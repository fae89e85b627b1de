/** What every reachable state of the dispatcher satisfies, one step at a time. */
module MachineInvariants {
  import opened Wrappers
  import opened Jobs
  import opened ReadyQueues
  import opened Machine
  import opened MachineTokens
  import opened MachineEffects
  import opened MachineSteps

  // ---- The story of each job ----

  predicate CountsUp(seen: seq<nat>) {
    forall k :: 0 <= k < |seen| ==> seen[k] == k
  }

  /** b is a, perhaps with a later attempt. */
  predicate SameOrder(a: Job, b: Job) {
    b == a.(attempt := b.attempt, runAt := b.runAt) && (b.attempt == 0 ==> b == a)
  }

  /** The handler has seen the attempts before the current one, and the current one if it has started. */
  predicate SeenOk(l: Loc, seen: seq<nat>) {
    && CountsUp(seen)
    && l.job.attempt <= |seen| <= l.job.attempt + 1
    && (|seen| == l.job.attempt + 1 ==> l.role.Ran? || l.role.Finished? || l.role.Discarded?)
    && (l.role.Ran? || l.role.Finished? ==> |seen| == l.job.attempt + 1)
  }

  predicate StoryOk(c: Config, id: Id, order: Job, l: Loc, seen: seq<nat>) {
    && order.id == id && order.attempt == 0 && order.name in c.handlers && 0 <= order.maxRetries <= c.retryLimit
    && SameOrder(order, l.job) && l.job.attempt <= order.maxRetries && (NotQueuedYet(l.role) ==> l.job.attempt == 0)
    && (!IsHand(l.role) ==> l.t == 0)
    && SeenOk(l, seen)
  }

  predicate StoryInv(c: Config, s: State) {
    forall id :: id in s.where && id in s.submitted && id in s.seen ==>
      StoryOk(c, id, s.submitted[id], s.where[id], s.seen[id])
  }

  lemma StoryMoves(c: Config, id: Id, order: Job, l: Loc, to: Loc, seen: seq<nat>, seen': seq<nat>,
                    now: int)
    requires StoryOk(c, id, order, l, seen) && Follows(l.role, to.role) && (!IsHand(to.role) ==> to.t == 0)
    requires if l.role.Ran? && to.role.AtWorker? then RetryOf(l.job, to.job, now) else to.job == l.job
    requires seen' == if to.role.Ran? then seen + [l.job.attempt] else seen
    requires to.role.Finished? ==> l.role.Ran? || l.job.name !in c.handlers
    ensures StoryOk(c, id, order, to, seen')
  {
  }

  lemma StoryKept(c: Config, s: State, s': State, t: nat, mv: Move)
    requires StoryInv(c, s) && KeysInv(s) && MoveOk(c, s, s', t, mv) && EndOk(c, s, s', t, mv)
    ensures StoryInv(c, s')
  {
    hide Activates;
    match mv
    case Stay => hide StoryOk;
    case Create(j) =>
      assert StoryOk(c, j.id, j, Loc(Fresh, t, j), []);
      hide StoryOk, NewJob;
    case Shift(id, to) =>
      hide StoryOk, Follows, RetryOf;
      StoryMoves(c, id, s.submitted[id], s.where[id], to, s.seen[id], s'.seen[id], s.now);
  }

  /** A queue without room lets nothing run. */
  predicate RoomInv(c: Config, s: State) {
    && s.ready.cap == c.cap
    && (c.cap == 0 ==> forall id :: id in s.where ==> NeverQueued(s.where[id]))
  }

  predicate NeverQueued(l: Loc) {
    l.job.attempt == 0 && !l.role.InReady? && !l.role.AtWorker? && !l.role.Ran?
  }

  lemma RoomKept(c: Config, s: State, s': State, t: nat, mv: Move)
    requires RoomInv(c, s) && MoveOk(c, s, s', t, mv) && EndOk(c, s, s', t, mv)
    ensures RoomInv(c, s')
  {
    hide Activates, RetryOf;
  }

  // ---- How jobs end ----

  ghost predicate TombIsDue(s: State, id: Id) {
    exists t :: t in s.threads && TombDue(s.threads[t].pc) == Some(id)
  }

  /** No job is given up without cause. */
  ghost predicate EndExplained(s: State, id: Id, r: Role) {
    && (r.Discarded? ==> id in s.cancelled)
    && (r.Removed? ==> id in s.cancelled || TombIsDue(s, id))
    && (r.Lost? ==> s.ready.closed)
    && (r.Drained? ==> s.stopping)
  }

  ghost predicate EndInv(s: State) {
    forall id :: id in s.where ==> EndExplained(s, id, s.where[id].role)
  }

  lemma TombStaysDue(s: State, s': State, t: nat, id: Id)
    requires TombIsDue(s, id) && PcOk(s, s', t) && s'.threads == s.threads[t := s'.threads[t]]
    ensures TombIsDue(s', id) || id in s'.cancelled
  {
    hide TombDue;
    var u :| u in s.threads && TombDue(s.threads[u].pc) == Some(id);
    assert u in s'.threads;
    assert u != t ==> s'.threads[u] == s.threads[u];
  }

  lemma EndKept(c: Config, s: State, s': State, t: nat, mv: Move)
    requires EndInv(s) && MoveOk(c, s, s', t, mv) && EndOk(c, s, s', t, mv) && TodoOk(s, s', t) && PcOk(s, s', t)
    ensures EndInv(s')
  {
    forall id | id in s'.where ensures EndExplained(s', id, s'.where[id].role) {
      if id in s.where && s'.where[id] == s.where[id] {
        assert EndExplained(s, id, s.where[id].role);
        if TombIsDue(s, id) {
          TombStaysDue(s, s', t, id);
        }
      }
      hide Follows, Activates, RetryOf, NewJob, PcOk, Owed, TombDue;
    }
  }

  // ---- The store ----

  /** A job that has been accepted for its first attempt, and has neither ended nor been tombstoned, is recorded. */
  predicate Recorded(s: State, id: Id) {
    id in s.where && NeedsRecord(s.where[id].role) && id !in s.cancelled && s.where[id].job.attempt == 0 ==>
      id in s.store && s.store[id] == s.where[id].job
  }

  ghost predicate StoreInv(c: Config, s: State) {
    c.hasStore ==> forall id :: Recorded(s, id)
  }

  lemma StoreKept(c: Config, s: State, s': State, t: nat, d: Delta)
    requires StoreInv(c, s) && ChoreInv(s) && KeysInv(s)
    requires MoveOk(c, s, s', t, d.mv) && StoreOk(c, s, s', t, d) && s.cancelled <= s'.cancelled
    ensures StoreInv(c, s')
  {
    if c.hasStore {
      forall id ensures Recorded(s', id) {
        assert Recorded(s, id);
        if d.st.Erase? {
          assert ChoreOk(s, DeleteRecord(d.st.erased));
        }
        hide Activates, ChoreInv;
      }
    }
  }

  // ---- The in-flight table ----

  ghost predicate IsPending(s: State, id: Id) {
    exists t :: t in s.threads && id in PendingOf(s.threads[t].pc)
  }

  /** The job holds its name: it is past applyConflict, has not ended, and no cancellation is after it. */
  ghost predicate HoldsName(s: State, id: Id) {
    && id in s.where && Live(s.where[id].role) && s.where[id].job.attempt == 0
    && id !in s.cancelled && !IsPending(s, id)
  }

  ghost predicate AtMostOne(flight: map<Name, set<Id>>, n: Name) {
    forall a, b :: a in FlightSet(flight, n) && b in FlightSet(flight, n) ==> a == b
  }

  ghost predicate FlightInv(c: Config, s: State) {
    !c.policy.Allow? ==>
      && (forall n :: AtMostOne(s.flight, n))
      && (forall id :: HoldsName(s, id) ==> id in FlightSet(s.flight, s.where[id].job.name))
  }

  /** Adding and releasing change one set by one id; an emptied set leaves the table. */
  lemma TableMeaning(flight: map<Name, set<Id>>, n: Name, id: Id, m: Name)
    ensures FlightSet(AddFlight(flight, n, id), m) == FlightSet(flight, m) + (if m == n then {id} else {})
    ensures FlightSet(DropFlight(flight, n, id), m) == FlightSet(flight, m) - (if m == n then {id} else {})
    ensures n in DropFlight(flight, n, id) ==> DropFlight(flight, n, id)[n] != {}
    ensures FlightSet(flight - {n}, m) == if m == n then {} else FlightSet(flight, m)
  {
  }

  lemma ListedAtMostOne(flight: map<Name, set<Id>>, fl: FlightChange, n: Name)
    requires AtMostOne(flight, n)
    requires fl.Enlist? ==> FlightSet(flight, fl.name) == {}
    ensures AtMostOne(Listed(flight, fl), n)
  {
    if !fl.SameFlight? {
      TableMeaning(flight, fl.name, fl.id, n);
      TableMeaning(flight, fl.name, fl.id, fl.name);
      TableMeaning(flight - {fl.name}, fl.name, fl.id, n);
      hide AddFlight, DropFlight, FlightSet;
    }
  }

  lemma ListedKeeps(flight: map<Name, set<Id>>, fl: FlightChange, n: Name, id: Id)
    requires id in FlightSet(flight, n)
    requires fl.Supplant? ==> fl.name != n
    requires fl.Unlist? ==> fl.id != id
    ensures id in FlightSet(Listed(flight, fl), n)
  {
  }

  lemma ListedAdds(flight: map<Name, set<Id>>, fl: FlightChange)
    requires fl.Enlist? || fl.Supplant?
    ensures fl.id in FlightSet(Listed(flight, fl), fl.name)
  {
  }

  lemma PendingStays(s: State, s': State, t: nat, id: Id)
    requires IsPending(s, id) && t in s.threads && t in s'.threads && s'.threads == s.threads[t := s'.threads[t]]
    requires PendingOf(s.threads[t].pc) <= PendingOf(s'.threads[t].pc) + s'.cancelled
    ensures IsPending(s', id) || id in s'.cancelled
  {
    hide PendingOf;
    var u :| u in s.threads && id in PendingOf(s.threads[u].pc);
    assert u in s'.threads;
    assert u != t ==> s'.threads[u] == s.threads[u];
  }

  /** A job that holds its name after the step held it before, unless it has just been admitted. */
  lemma HeldBefore(c: Config, s: State, s': State, t: nat, d: Delta, id: Id)
    requires KeysInv(s) && MoveOk(c, s, s', t, d.mv) && FlightOk(c, s, s', t, d) && TodoOk(s, s', t)
    requires HoldsName(s', id)
    ensures (d.mv.Shift? && d.mv.id == id && d.mv.to.role.Admitted?) || HoldsName(s, id)
    ensures id in s.where && s'.where[id].job.name == s.where[id].job.name
  {
    if IsPending(s, id) {
      PendingStays(s, s', t, id);
    }
    hide IsPending, FlightOk, Owed, Activates;
  }

  lemma NameListed(c: Config, s: State, s': State, t: nat, d: Delta, id: Id)
    requires FlightInv(c, s) && !c.policy.Allow? && ChoreInv(s) && KeysInv(s)
    requires MoveOk(c, s, s', t, d.mv) && FlightOk(c, s, s', t, d) && TodoOk(s, s', t)
    requires HoldsName(s', id)
    ensures id in FlightSet(s'.flight, s'.where[id].job.name)
  {
    HeldBefore(c, s, s', t, d, id);
    var n := s'.where[id].job.name;
    if d.mv.Shift? && d.mv.id == id && d.mv.to.role.Admitted? {
      ListedAdds(s.flight, d.fl);
    } else {
      if d.fl.Unlist? {
        assert ChoreOk(s, ReleaseName(d.fl.name, d.fl.id));
        assert d.fl.id != id;
      }
      assert id in PendingOf(s'.threads[t].pc) ==> IsPending(s', id);
      ListedKeeps(s.flight, d.fl, n, id);
    }
  }

  lemma FlightKept(c: Config, s: State, s': State, t: nat, d: Delta)
    requires FlightInv(c, s) && ChoreInv(s) && KeysInv(s)
    requires MoveOk(c, s, s', t, d.mv) && FlightOk(c, s, s', t, d) && TodoOk(s, s', t)
    ensures FlightInv(c, s')
  {
    if !c.policy.Allow? {
      forall n ensures AtMostOne(s'.flight, n) {
        ListedAtMostOne(s.flight, d.fl, n);
      }
      forall id | HoldsName(s', id) ensures id in FlightSet(s'.flight, s'.where[id].job.name) {
        NameListed(c, s, s', t, d, id);
      }
      hide *;
    }
  }

  // ---- Waking the delay loop ----

  ghost predicate SignalDue(s: State) {
    exists t :: t in s.threads && SignalLoop in s.threads[t].todo
  }

  /** The delay loop does not sleep past the earliest job unless it is about to be woken. */
  ghost predicate WakeInv(s: State) {
    0 in s.threads && s.threads[0].pc.LoopWait? ==>
      s.loopSignal || SignalDue(s) || LooksAhead(s.heap, s.threads[0].pc.target)
  }

  lemma WakeKept(s: State, s': State, t: nat)
    requires WakeInv(s) && PcInv(s) && WakeOk(s, s', t) && PcOk(s, s', t)
    requires s'.threads == s.threads[t := s'.threads[t]]
    ensures WakeInv(s')
  {
    hide TombDue, Retrying;
    if SignalLoop in s'.threads[t].todo {
      assert SignalDue(s');
    } else if SignalDue(s) && !s'.loopSignal {
      var u :| u in s.threads && SignalLoop in s.threads[u].todo;
      assert u != t && u in s'.threads && s'.threads[u] == s.threads[u];
      assert SignalDue(s');
    }
  }

  // ---- Due jobs ----

  ghost predicate DueInv(s: State) {
    && (forall t :: t in s.threads ==>
          && (CarriesDue(s.threads[t].pc) ==> RunsNow(s.threads[t].pc.job, s.now))
          && (ClockRead(s.threads[t].pc).Some? ==> ClockRead(s.threads[t].pc).value <= s.now))
    && (forall e :: e in s.ready.items ==> RunsNow(e, s.now))
  }

  lemma DueKept(s: State, s': State, t: nat)
    requires DueInv(s) && DueOk(s, s', t) && s'.threads == s.threads[t := s'.threads[t]]
    ensures DueInv(s')
  {
    hide CarriesDue, ClockRead;
  }

  // ---- Cancelled jobs ----

  /** Some worker is past the first check of the job, and has not started its handler. */
  ghost predicate AboutToRun(s: State, id: Id) {
    exists t :: t in s.threads && s.threads[t].pc.LookingUp? && s.threads[t].pc.job.id == id
  }

  /** The activations a tombstoned job has had, and the one that can still come. */
  ghost function Activations(s: State, id: Id): nat {
    |SeenBy(s, id)| + if AboutToRun(s, id) then 1 else 0
  }

  lemma OneHolder(s: State, t: nat, u: nat)
    requires TokenInv(s) && t in s.threads && u in s.threads
    requires Hand(t, s.threads[t].pc).Some? && Hand(u, s.threads[u].pc).Some?
    requires Hand(t, s.threads[t].pc).value.job.id == Hand(u, s.threads[u].pc).value.job.id
    ensures t == u
  {
    hide Hand, HeapExact, ReadyExact, RecordsHeld;
  }

  lemma CancelledStops(c: Config, s: State, s': State, t: nat, d: Delta, id: Id)
    requires TokenInv(s) && KeysInv(s) && id in s.cancelled && id in s.used
    requires MoveOk(c, s, s', t, d.mv) && PcOk(s, s', t) && s'.threads == s.threads[t := s'.threads[t]]
    ensures Activations(s', id) <= Activations(s, id)
  {
    hide TokenInv, Follows, RetryOf, TombDue, Retrying, InLoop;
    if AboutToRun(s', id) {
      var u :| u in s'.threads && s'.threads[u].pc.LookingUp? && s'.threads[u].pc.job.id == id;
      assert u in s.threads && s.threads[u].pc.LookingUp? && s.threads[u].pc.job.id == id;
      if d.mv.Shift? && d.mv.id == id && d.mv.to.role.Ran? {
        assert u != t;
        OneHolder(s, t, u);
        assert false;
      }
    }
  }
}

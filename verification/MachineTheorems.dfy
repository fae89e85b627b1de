/** What holds in every run of the dispatcher. */
module MachineTheorems {
  import opened Wrappers
  import opened Jobs
  import opened ReadyQueues
  import opened Machine
  import opened MachineTokens
  import opened MachineEffects
  import opened MachineSteps
  import opened MachineNames
  import opened MachineInvariants
  import Backoff

  ghost predicate Inv(c: Config, s: State) {
    && Core(s) && StoryInv(c, s) && RoomInv(c, s) && EndInv(s) && StoreInv(c, s) && FlightInv(c, s) && WakeInv(s)
    && DueInv(s) && NameInv(c, s)
  }

  lemma InvTick(c: Config, s: State, time: int)
    requires Inv(c, s) && s.now <= time
    ensures DueInv(s.(now := time)) && StoryInv(c, s.(now := time)) && RoomInv(c, s.(now := time))
    ensures EndInv(s.(now := time))
    ensures StoreInv(c, s.(now := time)) && FlightInv(c, s.(now := time)) && WakeInv(s.(now := time))
  {
    hide Core;
    var s' := s.(now := time);
    forall id | id in s'.where ensures EndExplained(s', id, s'.where[id].role) {
      assert EndExplained(s, id, s.where[id].role);
    }
    forall id ensures c.hasStore ==> Recorded(s', id) {
      assert c.hasStore ==> Recorded(s, id);
    }
    forall id ensures HoldsName(s', id) == HoldsName(s, id) {
      assert IsPending(s', id) == IsPending(s, id);
    }
    assert SignalDue(s') == SignalDue(s);
  }

  lemma InvKept(c: Config, s: State, a: Action)
    requires Inv(c, s) && Enabled(c, s, a)
    ensures Inv(c, Do(c, s, a))
  {
    CoreKept(c, s, a);
    if a.Tick? {
      InvTick(c, s, a.time);
      NameInvTick(c, s, a.time);
      return;
    }
    var d := StepEffect(c, s, a);
    var s', t := Do(c, s, a), ThreadOf(a);
    hide TokenInv, Do, Enabled, KeysInv, PcInv, ChoreInv, MoveOk, EndOk, StoreOk, FlightOk, PcOk, WakeOk, DueOk, OweOk,
      Owed, StoryInv, RoomInv, EndInv, StoreInv, FlightInv, WakeInv, DueInv, NameInv;
    StoryKept(c, s, s', t, d.mv);
    RoomKept(c, s, s', t, d.mv);
    EndKept(c, s, s', t, d.mv);
    StoreKept(c, s, s', t, d);
    FlightKept(c, s, s', t, d);
    WakeKept(s, s', t);
    DueKept(s, s', t);
    NameInvKept(c, s, s', t, d);
  }

  lemma InvStart(c: Config, s: State)
    requires IsStart(c, s)
    ensures Inv(c, s)
  {
    CoreStart(c, s);
    hide Core;
  }

  lemma LastStep(c: Config, run: seq<State>, i: nat) returns (a: Action)
    requires IsRun(c, run) && 0 < i < |run|
    ensures Enabled(c, run[i - 1], a) && run[i] == Do(c, run[i - 1], a)
  {
    hide Enabled, Do, IsStart;
    assert Linked(c, run, i - 1);
    a :| Enabled(c, run[i - 1], a) && run[i] == Do(c, run[i - 1], a);
  }

  lemma {:induction false} Always(c: Config, run: seq<State>, i: nat)
    requires IsRun(c, run) && i < |run|
    ensures Inv(c, run[i])
  {
    hide Inv, Enabled, Do;
    if i == 0 {
      hide IsStart;
      InvStart(c, run[0]);
    } else {
      Always(c, run, i - 1);
      var a := LastStep(c, run, i);
      InvKept(c, run[i - 1], a);
    }
  }

  // ---- One place for each job ----

  /** The job thread t carries. */
  function Carried(s: State, t: nat): Option<Job> {
    if t in s.threads && Hand(t, s.threads[t].pc).Some? then Some(Hand(t, s.threads[t].pc).value.job) else None
  }

  ghost predicate Carries(s: State, t: nat, id: Id) {
    Carried(s, t).Some? && Carried(s, t).value.id == id
  }

  /** No id is carried twice, queued twice, delayed twice, or in two of these at once. */
  ghost predicate OnePlace(s: State) {
    && (forall t, u, id :: Carries(s, t, id) && Carries(s, u, id) ==> t == u)
    && (forall e :: s.heap[e] <= 1)
    && (forall e, f :: e in s.heap && f in s.heap && e.id == f.id ==> e == f)
    && (forall i, k :: 0 <= i < k < |s.ready.items| ==> s.ready.items[i].id != s.ready.items[k].id)
    && (forall e, k :: e in s.heap && 0 <= k < |s.ready.items| ==> e.id != s.ready.items[k].id)
    && (forall t, e :: e in s.heap ==> !Carries(s, t, e.id))
    && (forall t, k :: 0 <= k < |s.ready.items| ==> !Carries(s, t, s.ready.items[k].id))
  }

  lemma CarriedIs(s: State, t: nat, id: Id)
    requires TokenInv(s) && Carries(s, t, id)
    ensures id in s.where && s.where[id].t == t && IsHand(s.where[id].role)
  {
    hide Hand, HeapExact, ReadyExact, RecordsHeld;
    HandRecorded(s.threads, s.where, t);
  }

  lemma TwoCopies(items: seq<Job>, i: nat, k: nat)
    requires i < k < |items| && items[i] == items[k]
    ensures multiset(items)[items[k]] >= 2
  {
    assert items == items[..k] + [items[k]] + items[k + 1..] && items[k] in items[..k];
  }

  lemma AtMostOneCopy(s: State, e: Job)
    requires TokenInv(s)
    ensures s.heap[e] <= 1 && multiset(s.ready.items)[e] <= 1
  {
    hide HandsRecorded, RecordsHeld;
  }

  lemma TwiceReady(s: State, i: nat, k: nat)
    requires TokenInv(s) && i < k < |s.ready.items|
    ensures s.ready.items[i].id != s.ready.items[k].id
  {
    hide TokenInv;
    ReadyKeeps(s, i);
    ReadyKeeps(s, k);
    AtMostOneCopy(s, s.ready.items[k]);
    if s.ready.items[i].id == s.ready.items[k].id {
      TwoCopies(s.ready.items, i, k);
    }
  }

  lemma HandsApart(s: State, t: nat, u: nat, id: Id)
    requires TokenInv(s) && Carries(s, t, id) && Carries(s, u, id)
    ensures t == u
  {
    hide TokenInv, Hand;
    OneHolder(s, t, u);
  }

  lemma HeapApart(s: State, e: Job, f: Job)
    requires TokenInv(s) && e in s.heap && f in s.heap && e.id == f.id
    ensures e == f
  {
    hide TokenInv;
    HeapKeeps(s, e);
    HeapKeeps(s, f);
  }

  lemma QueuesApart(s: State, e: Job, k: nat)
    requires TokenInv(s) && e in s.heap && k < |s.ready.items|
    ensures e.id != s.ready.items[k].id
  {
    hide TokenInv;
    HeapKeeps(s, e);
    ReadyKeeps(s, k);
  }

  lemma CarriedApart(s: State, t: nat, id: Id)
    requires TokenInv(s) && Carries(s, t, id)
    ensures forall e :: e in s.heap ==> e.id != id
    ensures forall k :: 0 <= k < |s.ready.items| ==> s.ready.items[k].id != id
  {
    hide TokenInv, Carries;
    CarriedIs(s, t, id);
    forall e | e in s.heap ensures e.id != id {
      HeapKeeps(s, e);
    }
    forall k | 0 <= k < |s.ready.items| ensures s.ready.items[k].id != id {
      ReadyKeeps(s, k);
    }
  }

  lemma PlacesApart(s: State)
    requires TokenInv(s)
    ensures OnePlace(s)
  {
    hide TokenInv, Carries;
    forall t, u, id | Carries(s, t, id) && Carries(s, u, id) ensures t == u {
      HandsApart(s, t, u, id);
    }
    forall t, id | Carries(s, t, id)
      ensures forall e :: e in s.heap ==> e.id != id
      ensures forall k :: 0 <= k < |s.ready.items| ==> s.ready.items[k].id != id
    {
      CarriedApart(s, t, id);
    }
    forall e ensures s.heap[e] <= 1 {
      AtMostOneCopy(s, e);
    }
    forall e, f | e in s.heap && f in s.heap && e.id == f.id ensures e == f {
      HeapApart(s, e, f);
    }
    forall i, k | 0 <= i < k < |s.ready.items| ensures s.ready.items[i].id != s.ready.items[k].id {
      TwiceReady(s, i, k);
    }
    forall e, k | e in s.heap && 0 <= k < |s.ready.items| ensures e.id != s.ready.items[k].id {
      QueuesApart(s, e, k);
    }
  }

  lemma SingleToken(c: Config, run: seq<State>, i: nat)
    requires IsRun(c, run) && i < |run|
    ensures OnePlace(run[i])
  {
    Always(c, run, i);
    PlacesApart(run[i]);
  }

  // ---- Attempts ----

  /** The handler sees attempts 0, 1, 2, ... of the same order, at most MaxRetries + 1 of them. */
  lemma AttemptsInOrder(c: Config, run: seq<State>, i: nat, id: Id)
    requires IsRun(c, run) && i < |run| && id in run[i].used
    ensures id in run[i].submitted && id in run[i].where && id in run[i].seen
    ensures var s := run[i];
            && CountsUp(s.seen[id]) && |s.seen[id]| <= s.submitted[id].maxRetries + 1
            && SameOrder(s.submitted[id], s.where[id].job)
  {
    Always(c, run, i);
    hide Core, RoomInv, EndInv, StoreInv, FlightInv, WakeInv, DueInv, NameInv;
  }

  lemma InHandler(s: State, t: nat)
    requires TokenInv(s) && t in s.threads && s.threads[t].pc.Handling?
    ensures var j := s.threads[t].pc.job; j.id in s.where && s.where[j.id] == Loc(Ran, t, j) && Carries(s, t, j.id)
  {
    hide HeapExact, ReadyExact, RecordsHeld;
    HandRecorded(s.threads, s.where, t);
  }

  /** The thread that is in the handler of a job is on its latest attempt, and is alone. */
  lemma HandlersDoNotOverlap(c: Config, run: seq<State>, i: nat, t: nat, u: nat)
    requires IsRun(c, run) && i < |run| && t in run[i].threads && u in run[i].threads
    requires run[i].threads[t].pc.Handling? && run[i].threads[u].pc.Handling?
    requires run[i].threads[t].pc.job.id == run[i].threads[u].pc.job.id
    ensures t == u
    ensures var j := run[i].threads[t].pc.job; j.id in run[i].seen && |run[i].seen[j.id]| == j.attempt + 1
  {
    Always(c, run, i);
    var s := run[i];
    hide TokenInv, PcInv, ChoreInv, RoomInv, EndInv, StoreInv, FlightInv, WakeInv, DueInv, NameInv, Carries, Hand;
    InHandler(s, t);
    InHandler(s, u);
    HandsApart(s, t, u, s.threads[t].pc.job.id);
    var id := s.threads[t].pc.job.id;
    assert StoryOk(c, id, s.submitted[id], s.where[id], s.seen[id]);
  }

  // ---- Crash safety ----

  /** The job has been accepted, and has neither come to its end nor been tombstoned. */
  predicate Outstanding(s: State, id: Id) {
    id in s.where && NeedsRecord(s.where[id].role) && id !in s.cancelled
  }

  ghost predicate CrashSafe(s: State) {
    forall id :: Outstanding(s, id) ==> id in s.store && id in s.submitted && s.store[id] == s.submitted[id]
  }

  /** Until its first retry, an outstanding job is in the store as it was submitted. */
  lemma FirstAttemptSafe(c: Config, run: seq<State>, i: nat, id: Id)
    requires IsRun(c, run) && i < |run| && c.hasStore
    requires Outstanding(run[i], id) && run[i].where[id].job.attempt == 0
    ensures id in run[i].store && id in run[i].submitted && run[i].store[id] == run[i].submitted[id]
  {
    Always(c, run, i);
    hide TokenInv, RoomInv, EndInv, FlightInv, WakeInv, DueInv, NameInv;
    assert Recorded(run[i], id);
  }

  // ---- Same-name exclusion ----

  /** Past applyConflict, not ended, not tombstoned, and on no submitter's list of jobs to replace. */
  ghost predicate Active(s: State, id: Id) {
    id in s.where && Live(s.where[id].role) && id !in s.cancelled && !IsPending(s, id)
  }

  ghost predicate Exclusive(s: State) {
    forall a, b :: Active(s, a) && Active(s, b) && s.where[a].job.name == s.where[b].job.name ==> a == b
  }

  /** Under Skip and Replace, two active jobs on their first attempt have different names. */
  lemma FirstAttemptsExclusive(c: Config, run: seq<State>, i: nat, a: Id, b: Id)
    requires IsRun(c, run) && i < |run| && !c.policy.Allow?
    requires Active(run[i], a) && Active(run[i], b) && run[i].where[a].job.name == run[i].where[b].job.name
    requires run[i].where[a].job.attempt == 0 && run[i].where[b].job.attempt == 0
    ensures a == b
  {
    Always(c, run, i);
    var s := run[i];
    assert HoldsName(s, a) && HoldsName(s, b);
    assert AtMostOne(s.flight, s.where[a].job.name);
    hide Core, StoryInv, RoomInv, EndInv, StoreInv, WakeInv, DueInv, NameInv, IsPending;
  }

  // ---- No retries ----

  /** With no retries, no handlers or no room, every job stays on its first attempt. */
  lemma FirstAttemptsOnly(c: Config, run: seq<State>, i: nat, id: Id)
    requires IsRun(c, run) && i < |run| && id in run[i].where
    requires c.retryLimit == 0 || c.handlers == {} || c.cap == 0
    ensures run[i].where[id].job.attempt == 0
  {
    Always(c, run, i);
    var s := run[i];
    hide TokenInv, PcInv, ChoreInv, EndInv, StoreInv, FlightInv, WakeInv, DueInv, NameInv;
    assert StoryOk(c, id, s.submitted[id], s.where[id], s.seen[id]);
  }

  // ---- The delay loop ----

  /** Whenever the delay loop waits with a later target than some delayed job, or with none, a wake-up is
      buffered or some thread still owes it. */
  lemma LoopNeverOversleeps(c: Config, run: seq<State>, i: nat, e: Job)
    requires IsRun(c, run) && i < |run| && 0 in run[i].threads && run[i].threads[0].pc.LoopWait? && e in run[i].heap
    requires var w := run[i].threads[0].pc.target; w.None? || e.runAt < w.value
    ensures run[i].loopSignal || SignalDue(run[i])
  {
    Always(c, run, i);
    hide Core, StoryInv, RoomInv, EndInv, StoreInv, FlightInv, DueInv, NameInv;
  }

  // ---- Time ----

  /** No handler starts a job, and no job is in the ready queue, before its time has come. */
  lemma NeverEarly(c: Config, run: seq<State>, i: nat, t: nat)
    requires IsRun(c, run) && i < |run| && t in run[i].threads
    ensures run[i].threads[t].pc.Handling? ==> RunsNow(run[i].threads[t].pc.job, run[i].now)
    ensures forall e :: e in run[i].ready.items ==> RunsNow(e, run[i].now)
  {
    Always(c, run, i);
    hide Core, StoryInv, RoomInv, EndInv, StoreInv, FlightInv, WakeInv, NameInv, RunsNow, IsRun;
  }

  /** The job stays as it is, or is replaced by its next attempt, due its backoff delay later. */
  predicate SameOrNext(j: Job, next: Job, now: int) {
    next == j || (Retries(j) && next.attempt == j.attempt + 1 &&
                  next.runAt == now + Backoff.Delay(j.retryDelay, j.attempt))
  }

  lemma MoveRetries(c: Config, s: State, s': State, t: nat, mv: Move, id: Id)
    requires KeysInv(s) && MoveOk(c, s, s', t, mv) && id in s.where && id in s'.where
    ensures SameOrNext(s.where[id].job, s'.where[id].job, s.now)
  {
    hide Activates, Follows, Retries, Backoff.Delay;
  }

  lemma StepRetries(c: Config, s: State, a: Action, id: Id)
    requires Core(s) && Enabled(c, s, a) && id in s.where && id in Do(c, s, a).where
    ensures SameOrNext(s.where[id].job, Do(c, s, a).where[id].job, s.now)
  {
    if a.Tick? {
      return;
    }
    hide Do, Enabled, SameOrNext, TokenInv, KeysInv, PcInv, ChoreInv, MoveOk, EndOk, StoreOk, FlightOk, Course;
    var d := StepEffect(c, s, a);
    MoveRetries(c, s, Do(c, s, a), ThreadOf(a), d.mv, id);
  }

  /** A step changes the attempt of a job only after a failure that leaves retries, by one, and the job is then
      due its backoff delay later. */
  lemma RetryIsDelayed(c: Config, run: seq<State>, i: nat, id: Id)
    requires IsRun(c, run) && 0 < i < |run| && id in run[i - 1].where && id in run[i].where
    ensures SameOrNext(run[i - 1].where[id].job, run[i].where[id].job, run[i - 1].now)
  {
    hide Enabled, Do, SameOrNext, StoryInv, RoomInv, EndInv, StoreInv, FlightInv, WakeInv, DueInv, NameInv, Core;
    Always(c, run, i - 1);
    var a := LastStep(c, run, i);
    StepRetries(c, run[i - 1], a, id);
  }

  // ---- Cancellation ----

  /** Cancellations are after jobs that were submitted. */
  predicate KnownTo(used: set<Id>, pc: Pc) {
    (Victim(pc).Some? ==> Victim(pc).value in used) && PendingOf(pc) <= used
  }

  ghost predicate KnownInv(s: State) {
    s.cancelled <= s.used && forall t :: t in s.threads ==> KnownTo(s.used, s.threads[t].pc)
  }

  lemma ListedAreUsed(c: Config, s: State, n: Name)
    requires KeysInv(s) && NameInv(c, s)
    ensures FlightSet(s.flight, n) <= s.used
  {
    hide NamesInv, OrderInv, UnnamedSomewhere, ReleaseDue;
    forall id | id in FlightSet(s.flight, n) ensures id in s.used {
      assert IsListed(s, n, id);
    }
  }

  lemma KnownMoves(c: Config, s: State, s': State, t: nat, mv: Move)
    requires KeysInv(s) && NameInv(c, s) && KnownInv(s) && s.used <= s'.used && OweOk(c, s, s', t, mv)
    requires t in s'.threads
    ensures s'.cancelled <= s'.used && KnownTo(s'.used, s'.threads[t].pc)
  {
    var pc := s.threads[t].pc;
    assert KnownTo(s.used, pc);
    if pc.Admitting? {
      ListedAreUsed(c, s, pc.job.name);
    }
    hide KnownInv, NameInv, Clears, ClearsRecord, Unnamed, TombDue, Retrying, MustErase, FlightSet;
  }

  lemma KnownStep(c: Config, s: State, a: Action)
    requires Inv(c, s) && Enabled(c, s, a) && KnownInv(s)
    ensures KnownInv(Do(c, s, a))
  {
    if a.Tick? {
      return;
    }
    hide TokenInv, Do, Enabled, KeysInv, PcInv, ChoreInv, MoveOk, EndOk, StoreOk, FlightOk, PcOk, WakeOk, DueOk, OweOk,
      Owed, StoryInv, RoomInv, EndInv, StoreInv, FlightInv, WakeInv, DueInv, NameInv, KnownTo;
    var d := StepEffect(c, s, a);
    var s', t := Do(c, s, a), ThreadOf(a);
    UsedKept(c, s, s', t, d.mv);
    KnownMoves(c, s, s', t, d.mv);
    forall u | u in s'.threads ensures KnownTo(s'.used, s'.threads[u].pc) {
      if u != t {
        assert KnownTo(s.used, s.threads[u].pc);
        KnownStays(s.used, s'.used, s.threads[u].pc);
      }
    }
  }

  lemma KnownStays(used: set<Id>, used': set<Id>, pc: Pc)
    requires KnownTo(used, pc) && used <= used'
    ensures KnownTo(used', pc)
  {
  }

  lemma KnownStart(c: Config, run: seq<State>)
    requires IsRun(c, run)
    ensures KnownInv(run[0])
  {
  }

  /** Only submitted jobs are tombstoned. */
  lemma {:induction false} TombsAreUsed(c: Config, run: seq<State>, i: nat)
    requires IsRun(c, run) && i < |run|
    ensures KnownInv(run[i])
  {
    hide *;
    if i == 0 {
      KnownStart(c, run);
    } else {
      TombsAreUsed(c, run, i - 1);
      Always(c, run, i - 1);
      var a := LastStep(c, run, i);
      KnownStep(c, run[i - 1], a);
    }
  }

  lemma CancelStep(c: Config, s: State, a: Action, id: Id)
    requires Inv(c, s) && Enabled(c, s, a) && id in s.cancelled && id in s.used
    ensures var s' := Do(c, s, a); id in s'.cancelled && id in s'.used && Activations(s', id) <= Activations(s, id)
  {
    if a.Tick? {
      assert AboutToRun(s.(now := a.time), id) == AboutToRun(s, id);
      return;
    }
    hide TokenInv, Do, Enabled, KeysInv, PcInv, ChoreInv, MoveOk, EndOk, StoreOk, FlightOk, PcOk, WakeOk, DueOk, OweOk,
      Owed, StoryInv, RoomInv, EndInv, StoreInv, FlightInv, WakeInv, DueInv, NameInv, Activations;
    var d := StepEffect(c, s, a);
    CancelledStops(c, s, Do(c, s, a), ThreadOf(a), d, id);
    UsedKept(c, s, Do(c, s, a), ThreadOf(a), d.mv);
  }

  lemma UsedKept(c: Config, s: State, s': State, t: nat, mv: Move)
    requires MoveOk(c, s, s', t, mv)
    ensures s.used <= s'.used
  {
    hide Activates, RetryOf, Follows, NewJob;
  }

  /** A tombstone is never removed, and after it only a worker already past its check of the job can still
      start the handler, once. */
  lemma {:induction false} CancelIsFinal(c: Config, run: seq<State>, i: nat, k: nat, id: Id)
    requires IsRun(c, run) && i <= k < |run| && id in run[i].cancelled
    ensures id in run[k].cancelled && id in run[i].used && id in run[k].used
    ensures Activations(run[k], id) <= Activations(run[i], id)
  {
    TombsAreUsed(c, run, i);
    hide *;
    if i < k {
      CancelIsFinal(c, run, i, k - 1, id);
      Always(c, run, k - 1);
      var a := LastStep(c, run, k);
      CancelStep(c, run[k - 1], a, id);
    }
  }

  /** After the tombstone the handler starts at most once more, and not at all when no worker was past its check. */
  lemma CancelledRunsAtMostOnceMore(c: Config, run: seq<State>, i: nat, k: nat, id: Id)
    requires IsRun(c, run) && i <= k < |run| && id in run[i].cancelled
    ensures |SeenBy(run[k], id)| <= |SeenBy(run[i], id)| + 1
    ensures !AboutToRun(run[i], id) ==> |SeenBy(run[k], id)| <= |SeenBy(run[i], id)|
  {
    hide IsRun, SeenBy, AboutToRun;
    CancelIsFinal(c, run, i, k, id);
  }

  // ---- Names ----

  /** An id that takes a name belongs to an admitted job of that name, and someone is answerable for it: the job
      is alive, its release is under way, or it was lost to a closed queue. */
  lemma TakenNamesAnswered(c: Config, run: seq<State>, i: nat, n: Name, id: Id)
    requires IsRun(c, run) && i < |run| && id in FlightSet(run[i].flight, n)
    ensures Answered(run[i], n, id)
  {
    Always(c, run, i);
    hide Core, StoryInv, RoomInv, EndInv, StoreInv, FlightInv, WakeInv, DueInv, NamesInv, OrderInv, IsRun;
    assert IsListed(run[i], n, id);
  }

  /** When no thread has chores left or is in the middle of a cancellation, only living and lost jobs take names. */
  lemma NamesFreeAtRest(c: Config, run: seq<State>, i: nat, n: Name, id: Id)
    requires IsRun(c, run) && i < |run| && id in FlightSet(run[i].flight, n)
    requires forall t :: t in run[i].threads ==> run[i].threads[t].todo == [] && TombDue(run[i].threads[t].pc).None?
    ensures id in run[i].where && run[i].where[id].job.name == n
    ensures Live(run[i].where[id].role) || (run[i].where[id].role.Lost? && run[i].ready.closed)
  {
    hide IsRun, Answered, EndExplained, TombDue;
    TakenNamesAnswered(c, run, i, n, id);
    AnsweredAtRest(run[i], n, id);
    if run[i].where[id].role.Lost? {
      LostWhenClosed(c, run, i, id);
    }
  }

  lemma AnsweredAtRest(s: State, n: Name, id: Id)
    requires Answered(s, n, id)
    requires forall t :: t in s.threads ==> s.threads[t].todo == [] && TombDue(s.threads[t].pc).None?
    ensures id in s.where && s.where[id].job.name == n && (Live(s.where[id].role) || s.where[id].role.Lost?)
  {
    hide TombDue, UnnamedSomewhere;
  }

  lemma LostWhenClosed(c: Config, run: seq<State>, i: nat, id: Id)
    requires IsRun(c, run) && i < |run| && id in run[i].where && run[i].where[id].role.Lost?
    ensures run[i].ready.closed
  {
    Always(c, run, i);
    hide Core, StoryInv, RoomInv, StoreInv, FlightInv, WakeInv, DueInv, NameInv, IsRun;
    assert EndExplained(run[i], id, run[i].where[id].role);
  }

  // ---- Shutdown ----

  /** The job was submitted and is still on its way to the check of the running flag, or was refused. */
  predicate NotAccepted(s: State, id: Id) {
    id in s.where ==> s.where[id].role.Fresh? || s.where[id].role.Admitted? || s.where[id].role.Rejected?
  }

  /** Every job past that check is among those already used. */
  ghost predicate NoneChecked(s: State, id: Id) {
    && !s.running && NotAccepted(s, id)
    && forall t :: t in s.threads && s.threads[t].pc.Persisting? ==> s.threads[t].pc.job.id != id
  }

  lemma NoneCheckedStep(c: Config, s: State, a: Action, id: Id)
    requires Inv(c, s) && Enabled(c, s, a) && NoneChecked(s, id)
    ensures NoneChecked(Do(c, s, a), id)
  {
    if a.Tick? {
      return;
    }
    hide TokenInv, Do, Enabled, KeysInv, PcInv, ChoreInv, MoveOk, StoreOk, FlightOk, WakeOk, DueOk, OweOk, Owed,
      StoryInv, RoomInv, EndInv, StoreInv, FlightInv, WakeInv, DueInv, NameInv, EndOk, PcOk, NoneChecked;
    var d := StepEffect(c, s, a);
    NoneCheckedKept(c, s, Do(c, s, a), ThreadOf(a), d.mv, id);
  }

  lemma NoneCheckedKept(c: Config, s: State, s': State, t: nat, mv: Move, id: Id)
    requires NoneChecked(s, id) && MoveOk(c, s, s', t, mv) && EndOk(c, s, s', t, mv) && PcOk(s, s', t)
    requires s'.threads == s.threads[t := s'.threads[t]]
    ensures NoneChecked(s', id)
  {
    hide Activates, RetryOf, TombDue, Retrying, InLoop;
  }

  /** No job submitted after Shutdown has begun is ever accepted. */
  lemma {:induction false} NoneAcceptedAfterShutdown(c: Config, run: seq<State>, i: nat, k: nat, id: Id)
    requires IsRun(c, run) && i <= k < |run| && !run[i].running && id !in run[i].used
    ensures NoneChecked(run[k], id)
  {
    hide *;
    if i == k {
      Always(c, run, i);
      UnusedUnchecked(c, run[i], id);
    } else {
      NoneAcceptedAfterShutdown(c, run, i, k - 1, id);
      Always(c, run, k - 1);
      var a := LastStep(c, run, k);
      NoneCheckedStep(c, run[k - 1], a, id);
    }
  }

  lemma UnusedUnchecked(c: Config, s: State, id: Id)
    requires Inv(c, s) && !s.running && id !in s.used
    ensures NoneChecked(s, id)
  {
    hide PcInv, ChoreInv, StoryInv, RoomInv, EndInv, StoreInv, FlightInv, WakeInv, DueInv, NameInv, HeapExact,
      ReadyExact, RecordsHeld;
    forall t | t in s.threads && s.threads[t].pc.Persisting? ensures s.threads[t].pc.job.id != id {
      HandRecorded(s.threads, s.where, t);
    }
  }

  // ---- Nothing is lost silently ----

  /** Where a submitted job is, or why it is nowhere. */
  ghost predicate Accounted(s: State, id: Id) {
    && id in s.where && id in s.seen
    && var l := s.where[id];
       match l.role
       case InHeap => l.job in s.heap
       case InReady => l.job in s.ready.items
       case Rejected => s.seen[id] == []
       case Finished => s.seen[id] != []
       case Removed => id in s.cancelled || TombIsDue(s, id)
       case Discarded => id in s.cancelled
       case Drained => s.stopping
       case Lost => s.ready.closed
       case _ => Carries(s, l.t, id)
  }

  lemma AccountedNow(c: Config, s: State, id: Id)
    requires Inv(c, s) && id in s.used
    ensures Accounted(s, id)
  {
    hide TokenInv, PcInv, ChoreInv, RoomInv, StoreInv, FlightInv, WakeInv, DueInv, NameInv, Carries, TombIsDue;
    var l := s.where[id];
    assert StoryOk(c, id, s.submitted[id], l, s.seen[id]) && EndExplained(s, id, l.role);
    hide StoryInv, EndInv, CountsUp;
    PlacedNow(s, id);
  }

  lemma PlacedNow(s: State, id: Id)
    requires TokenInv(s) && id in s.where && (!IsHand(s.where[id].role) ==> s.where[id].t == 0)
    ensures var l := s.where[id];
            && (l.role.InHeap? ==> l.job in s.heap)
            && (l.role.InReady? ==> l.job in s.ready.items)
            && (IsHand(l.role) ==> Carries(s, l.t, id))
  {
    hide Hand, HandsRecorded;
    var l := s.where[id];
    assert l.job.id == id;
    assert s.heap[l.job] == Count(WhereIs(s.where, id) == Some(Loc(InHeap, 0, l.job)));
    assert multiset(s.ready.items)[l.job] == Count(WhereIs(s.where, id) == Some(Loc(InReady, 0, l.job)));
  }

  /** Every submitted job is in a hand, delayed or ready, was refused or has run to its end, or was given up to
      a cancellation or to Shutdown. */
  lemma NothingLost(c: Config, run: seq<State>, i: nat, id: Id)
    requires IsRun(c, run) && i < |run| && id in run[i].used
    ensures Accounted(run[i], id)
  {
    Always(c, run, i);
    hide Inv, Accounted;
    AccountedNow(c, run[i], id);
  }
}

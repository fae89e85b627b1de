/** Which configurations keep crash safety and same-name exclusion in every run.

    The deferred clean-up of runEntry also follows a retry that scheduleRetry has just put back, so both
    properties end where retries begin. */
module MachineLimits {
  import opened Wrappers
  import opened Jobs
  import opened ReadyQueues
  import opened Machine
  import opened MachineTokens
  import opened MachineEffects
  import opened MachineSteps
  import opened MachineInvariants
  import opened MachineTheorems

  ghost predicate AlwaysCrashSafe(c: Config) {
    forall run :: IsRun(c, run) ==> CrashSafe(run[|run| - 1])
  }

  ghost predicate AlwaysExclusive(c: Config) {
    forall run :: IsRun(c, run) ==> Exclusive(run[|run| - 1])
  }

  /** Some job can be retried. */
  predicate CanRetry(c: Config) {
    c.retryLimit > 0 && c.handlers != {} && c.cap > 0
  }

  // ---- Reachable states ----

  ghost predicate Reach(c: Config, s: State) {
    exists run :: IsRun(c, run) && run[|run| - 1] == s
  }

  lemma ReachStart(c: Config, s: State)
    requires IsStart(c, s)
    ensures Reach(c, s)
  {
    hide IsStart;
    assert IsRun(c, [s]);
  }

  lemma ReachStep(c: Config, s: State, a: Action)
    requires Reach(c, s) && Enabled(c, s, a)
    ensures Reach(c, Do(c, s, a))
  {
    hide IsStart, Enabled, Do;
    var run :| IsRun(c, run) && run[|run| - 1] == s;
    var longer := run + [Do(c, s, a)];
    forall i | 0 <= i < |longer| - 1 ensures Linked(c, longer, i) {
      assert i < |run| - 1 ==> Linked(c, run, i);
    }
    assert IsRun(c, longer);
  }

  // ---- A job is submitted, fails once and is retried ----

  function Resting(pc: Pc): Thread {
    Thread([], pc)
  }

  function StartState(c: Config): State {
    State(map[0 := Thread([], LoopCheck), 1 := Thread([], Idle), 2 := Thread([], WorkerPop)], 0, true, false,
          Queue([], c.cap, false), multiset{}, map[], map[], {}, map[], false, {}, map[], map[], map[])
  }

  function Order(id: Id, name: Name, runAt: int, maxRetries: int): Job {
    Job(id, name, [], 0, runAt, maxRetries, 0, 0, 0)
  }

  /** What the rest of a scene relies on. */
  ghost predicate Scene(c: Config, s: State, client: Thread, worker: Thread) {
    && Reach(c, s) && s.running && s.now == 0 && s.cancelled == {} && s.ready.cap == c.cap && !s.ready.closed
    && s.threads == map[0 := Thread([], LoopCheck), 1 := client, 2 := worker]
  }

  lemma Opening(c: Config) returns (s: State)
    ensures Scene(c, s, Thread([], Idle), Thread([], WorkerPop))
    ensures s.ready.items == [] && s.flight == map[] && s.where == map[] && s.used == {} && s.store == map[]
  {
    s := StartState(c);
    ReachStart(c, s);
    hide Reach;
  }

  /** Only the job named moves, and only the named container changes. */
  lemma Submits(c: Config, s: State, worker: Thread, j: Job) returns (s': State)
    requires Scene(c, s, Thread([], Idle), worker) && NewJob(c, s, j)
    ensures Scene(c, s', Thread([], Admitting(j)), worker)
    ensures s'.where == s.where[j.id := Loc(Fresh, 1, j)] && s'.used == s.used + {j.id}
    ensures s'.ready == s.ready && s'.flight == s.flight && s'.store == s.store
  {
    hide Reach;
    s' := DoSubmit(s, 1, j);
    ReachStep(c, s, Client(1, Submit(j)));
  }

  lemma FirstListed(n: Name, id: Id)
    ensures AddFlight(map[], n, id) == map[n := {id}] && AddFlight(map[] - {n}, n, id) == map[n := {id}]
    ensures DropFlight(map[n := {id}], n, id) == map[] && DropFlight(map[], n, id) == map[]
  {
    var none: map<Name, set<Id>> := map[];
    assert none - {n} == none;
    assert {} + {id} == {id} && {id} - {id} == {};
    assert map[n := {id}] - {n} == none;
    assert AddFlight(none, n, id) == map[n := {id}];
    assert DropFlight(map[n := {id}], n, id) == none;
  }

  lemma AdmitsReplacing(c: Config, s: State, worker: Thread, j: Job) returns (s': State)
    requires Scene(c, s, Thread([], Admitting(j)), worker) && s.flight == map[] && c.policy.Replace?
    ensures Scene(c, s', Thread([], Naming(j)), worker)
    ensures s'.where == s.where[j.id := Loc(Admitted, 1, j)] && s'.used == s.used
    ensures s'.ready == s.ready && s'.flight == map[j.name := {j.id}]
  {
    hide Reach, AddFlight;
    FirstListed(j.name, j.id);
    var s1 := DoAdmit(c, s, 1, j);
    ReachStep(c, s, Client(1, Admit));
    s' := DoAllReplaced(s1, 1, j);
    ReachStep(c, s1, Client(1, AllReplaced));
  }

  lemma AdmitsSkipping(c: Config, s: State, worker: Thread, j: Job) returns (s': State)
    requires Scene(c, s, Thread([], Admitting(j)), worker) && s.flight == map[] && c.policy.Skip?
    ensures Scene(c, s', Thread([], Naming(j)), worker)
    ensures s'.where == s.where[j.id := Loc(Admitted, 1, j)] && s'.used == s.used
    ensures s'.ready == s.ready && s'.flight == map[j.name := {j.id}]
  {
    hide Reach, AddFlight;
    FirstListed(j.name, j.id);
    s' := DoAdmit(c, s, 1, j);
    ReachStep(c, s, Client(1, Admit));
  }

  lemma AdmitsAny(c: Config, s: State, worker: Thread, j: Job) returns (s': State)
    requires Scene(c, s, Thread([], Admitting(j)), worker) && c.policy.Allow?
    ensures Scene(c, s', Thread([], Naming(j)), worker)
    ensures s'.where == s.where[j.id := Loc(Admitted, 1, j)] && s'.used == s.used
    ensures s'.ready == s.ready && s'.flight == s.flight
  {
    hide Reach;
    s' := DoAdmit(c, s, 1, j);
    ReachStep(c, s, Client(1, Admit));
  }

  lemma Admits(c: Config, s: State, worker: Thread, j: Job) returns (s': State)
    requires Scene(c, s, Thread([], Admitting(j)), worker) && s.flight == map[]
    ensures Scene(c, s', Thread([], Naming(j)), worker)
    ensures s'.where == s.where[j.id := Loc(Admitted, 1, j)] && s'.used == s.used
    ensures s'.ready == s.ready && s'.flight == (if c.policy.Allow? then map[] else map[j.name := {j.id}])
  {
    hide Scene;
    match c.policy
    case Skip => s' := AdmitsSkipping(c, s, worker, j);
    case Replace => s' := AdmitsReplacing(c, s, worker, j);
    case Allow => s' := AdmitsAny(c, s, worker, j);
  }

  lemma Checks(c: Config, s: State, worker: Thread, j: Job) returns (s': State)
    requires Scene(c, s, Thread([], Naming(j)), worker)
    ensures Scene(c, s', Thread([], Persisting(j, j.runAt > 0)), worker)
    ensures s'.where == s.where && s'.used == s.used && s'.ready == s.ready && s'.flight == s.flight
  {
    hide Reach;
    var s1 := DoRecordName(s, 1, j);
    ReachStep(c, s, Client(1, RecordName));
    s' := At(s1, 1, [], Persisting(j, j.runAt > 0));
    assert DoCheckRunning(s1, 1, j) == s';
    ReachStep(c, s1, Client(1, CheckRunning));
  }

  lemma Persists(c: Config, s: State, worker: Thread, j: Job) returns (s': State)
    requires Scene(c, s, Thread([], Persisting(j, j.runAt > 0)), worker)
    ensures Scene(c, s', Thread([], if j.runAt > 0 then Delaying(j) else Enqueueing(j)), worker)
    ensures s'.where == s.where[j.id := Loc(Saved, 1, j)] && s'.used == s.used
    ensures s'.ready == s.ready && s'.flight == s.flight
  {
    hide Reach;
    ReachStep(c, s, Client(1, Persist(true, true)));
    s' := At(Place(s, j.id, Loc(Saved, 1, j)), 1, [], if j.runAt > 0 then Delaying(j) else Enqueueing(j));
    if c.hasStore {
      s' := s'.(store := s.store[j.id := j]);
    }
    assert DoPersist(c, s, 1, j, j.runAt > 0, true, true) == s';
  }

  lemma Enqueues(c: Config, s: State, worker: Thread, j: Job) returns (s': State)
    requires Scene(c, s, Thread([], Enqueueing(j)), worker) && s.ready.items == [] && c.cap > 0
    ensures Scene(c, s', Thread([], Idle), worker)
    ensures s'.where == s.where[j.id := Loc(InReady, 0, j)] && s'.used == s.used
    ensures s'.ready.items == [j] && s'.flight == s.flight
  {
    hide Reach;
    s' := DoEnqueue(c, s, 1, j);
    assert PushVerdict(s.ready, c.drop).Pushed?;
    ReachStep(c, s, Client(1, Enqueue));
  }

  lemma Delays(c: Config, s: State, worker: Thread, j: Job) returns (s': State)
    requires Scene(c, s, Thread([], Delaying(j)), worker)
    ensures Scene(c, s', Thread([], Idle), worker)
    ensures s'.where == s.where[j.id := Loc(InHeap, 0, j)] && s'.used == s.used && s'.flight == s.flight
  {
    hide Reach;
    var s1 := DoPushDelayed(s, 1, j);
    ReachStep(c, s, Client(1, PushDelayed));
    s' := At(s1, 1, [], Idle).(loopSignal := true);
    assert [SignalLoop][1..] == [];
    assert DoChoreOf(c, s1, 1, true) == s';
    ReachStep(c, s1, DoChore(1, true));
  }

  lemma Takes(c: Config, s: State, client: Thread, j: Job) returns (s': State)
    requires Scene(c, s, client, Thread([], WorkerPop)) && s.ready.items == [j]
    ensures Scene(c, s', client, Thread([], LookingUp(j)))
    ensures s'.where == s.where[j.id := Loc(AtWorker, 2, j)] && s'.used == s.used && s'.flight == s.flight
  {
    hide Reach;
    var s1 := At(Place(s, j.id, Loc(AtWorker, 2, j)), 2, [], WorkerHas(j)).(ready := AfterPop(s.ready));
    assert DoTakeReady(s, 2) == s1;
    ReachStep(c, s, Work(2, TakeReady));
    s' := At(s1, 2, [], LookingUp(j));
    assert DoFirstCheck(s1, 2, j) == s';
    ReachStep(c, s1, Work(2, FirstCheck));
  }

  lemma Fails(c: Config, s: State, client: Thread, j: Job) returns (s': State)
    requires Scene(c, s, client, Thread([], LookingUp(j))) && j.name in c.handlers
    ensures Scene(c, s', client, Thread([], Handled(j, false)))
    ensures s'.where == s.where[j.id := Loc(Ran, 2, j)] && s'.used == s.used && s'.flight == s.flight
  {
    hide Reach;
    var s1 := At(Place(s, j.id, Loc(Ran, 2, j)), 2, [], Handling(j))
                .(seen := s.seen[j.id := SeenBy(s, j.id) + [j.attempt]]);
    assert DoStartHandler(c, s, 2, j) == s1;
    ReachStep(c, s, Work(2, StartHandler));
    s' := DoHandlerReturns(s1, 2, j, false);
    ReachStep(c, s1, Work(2, HandlerReturns(false)));
  }

  lemma SchedulesRetry(c: Config, s: State, client: Thread, j: Job) returns (s': State, next: Job)
    requires Scene(c, s, client, Thread([], Handled(j, false))) && Retries(j)
    ensures next.id == j.id && next.name == j.name
    ensures Scene(c, s', client, Thread([SignalLoop] + Cleanup(next), WorkerPop))
    ensures s'.where == s.where[j.id := Loc(InHeap, 0, next)] && s'.used == s.used && s'.flight == s.flight
  {
    hide Reach, Backoff.Delay;
    next := NextAttempt(j, s.now);
    var s1 := DoSecondCheck(s, 2, j, false);
    assert s1 == At(Place(s, j.id, Loc(AtWorker, 2, next)), 2, [], SavingRetry(next));
    hide NextAttempt;
    ReachStep(c, s, Work(2, SecondCheck));
    var s2 := DoSaveRetry(c, s1, 2, next, true);
    ReachStep(c, s1, Work(2, SaveRetry(true)));
    s' := DoRequeue(s2, 2, next);
    ReachStep(c, s2, Work(2, Requeue));
  }

  lemma Signals(c: Config, s: State, client: Thread, rest: seq<Chore>) returns (s': State)
    requires Scene(c, s, client, Thread([SignalLoop] + rest, WorkerPop))
    ensures Scene(c, s', client, Thread(rest, WorkerPop))
    ensures s'.where == s.where && s'.used == s.used && s'.flight == s.flight
  {
    hide Reach, DropFlight;
    assert ([SignalLoop] + rest)[1..] == rest;
    s' := DoChoreOf(c, s, 2, true);
    ReachStep(c, s, DoChore(2, true));
  }

  lemma Releases(c: Config, s: State, client: Thread, n: Name, id: Id, rest: seq<Chore>) returns (s': State)
    requires Scene(c, s, client, Thread([ReleaseName(n, id)] + rest, WorkerPop)) && !c.policy.Allow?
    ensures Scene(c, s', client, Thread(rest, WorkerPop))
    ensures s'.where == s.where && s'.used == s.used && s'.flight == DropFlight(s.flight, n, id)
  {
    hide Reach, DropFlight;
    assert ([ReleaseName(n, id)] + rest)[1..] == rest;
    s' := DoChoreOf(c, s, 2, true);
    ReachStep(c, s, DoChore(2, true));
  }

  lemma ReleasesNot(c: Config, s: State, client: Thread, n: Name, id: Id, rest: seq<Chore>) returns (s': State)
    requires Scene(c, s, client, Thread([ReleaseName(n, id)] + rest, WorkerPop)) && c.policy.Allow?
    ensures Scene(c, s', client, Thread(rest, WorkerPop))
    ensures s'.where == s.where && s'.used == s.used && s'.flight == s.flight
  {
    hide Reach, DropFlight;
    assert ([ReleaseName(n, id)] + rest)[1..] == rest;
    s' := DoChoreOf(c, s, 2, true);
    ReachStep(c, s, DoChore(2, true));
  }

  lemma Forgets(c: Config, s: State, client: Thread, id: Id, rest: seq<Chore>) returns (s': State)
    requires Scene(c, s, client, Thread([ForgetName(id)] + rest, WorkerPop))
    ensures Scene(c, s', client, Thread(rest, WorkerPop))
    ensures s'.where == s.where && s'.used == s.used && s'.flight == s.flight
  {
    hide Reach, DropFlight;
    assert ([ForgetName(id)] + rest)[1..] == rest;
    s' := DoChoreOf(c, s, 2, true);
    ReachStep(c, s, DoChore(2, true));
  }

  lemma Deletes(c: Config, s: State, client: Thread, id: Id, rest: seq<Chore>) returns (s': State)
    requires Scene(c, s, client, Thread([DeleteRecord(id)] + rest, WorkerPop))
    ensures Scene(c, s', client, Thread(rest, WorkerPop))
    ensures s'.where == s.where && s'.used == s.used && s'.flight == s.flight && (c.hasStore ==> id !in s'.store)
  {
    hide Reach, DropFlight;
    assert ([DeleteRecord(id)] + rest)[1..] == rest;
    s' := DoChoreOf(c, s, 2, true);
    ReachStep(c, s, DoChore(2, true));
  }

  lemma CleansUp(c: Config, s: State, client: Thread, j: Job) returns (s': State)
    requires Scene(c, s, client, Thread([SignalLoop] + Cleanup(j), WorkerPop))
    requires s.flight == (if c.policy.Allow? then map[] else map[j.name := {j.id}])
    ensures Scene(c, s', client, Thread([], WorkerPop))
    ensures s'.where == s.where && s'.used == s.used && s'.flight == map[] && (c.hasStore ==> j.id !in s'.store)
  {
    hide Scene, DropFlight;
    var last := [DeleteRecord(j.id)];
    assert Cleanup(j) == [ReleaseName(j.name, j.id)] + ([ForgetName(j.id)] + last) && last == last + [];
    FirstListed(j.name, j.id);
    s' := Signals(c, s, client, Cleanup(j));
    if c.policy.Allow? {
      s' := ReleasesNot(c, s', client, j.name, j.id, [ForgetName(j.id)] + last);
    } else {
      s' := Releases(c, s', client, j.name, j.id, [ForgetName(j.id)] + last);
    }
    s' := Forgets(c, s', client, j.id, last);
    s' := Deletes(c, s', client, j.id, []);
  }

  // ---- The exact conditions ----

  /** A job has failed once, and its retry waits in the heap: neither its name nor its record is left. */
  lemma RetryWaits(c: Config, id: Id, n: Name) returns (s: State, j: Job)
    requires CanRetry(c) && n in c.handlers
    ensures Scene(c, s, Thread([], Idle), Thread([], WorkerPop)) && s.used == {id} && s.flight == map[]
    ensures j.id == id && j.name == n && s.where == map[id := Loc(InHeap, 0, j)] && (c.hasStore ==> id !in s.store)
  {
    hide Scene;
    var first := Order(id, n, 0, 1);
    var idle, free := Thread([], Idle), Thread([], WorkerPop);
    s := Opening(c);
    s := Submits(c, s, free, first);
    s := Admits(c, s, free, first);
    s := Checks(c, s, free, first);
    s := Persists(c, s, free, first);
    s := Enqueues(c, s, free, first);
    s := Takes(c, s, idle, first);
    s := Fails(c, s, idle, first);
    s, j := SchedulesRetry(c, s, idle, first);
    s := CleansUp(c, s, idle, j);
  }

  /** With a store, every run is crash-safe exactly when no job can be retried. */
  lemma CrashSafeExactly(c: Config)
    requires c.hasStore
    ensures AlwaysCrashSafe(c) <==> !CanRetry(c)
  {
    if CanRetry(c) {
      var n :| n in c.handlers;
      var s, j := RetryWaits(c, "a", n);
      assert Outstanding(s, "a") && !CrashSafe(s);
      hide CrashSafe, IsRun;
      var run :| IsRun(c, run) && run[|run| - 1] == s;
    } else {
      forall run | IsRun(c, run) ensures CrashSafe(run[|run| - 1]) {
        CrashSafeWithoutRetries(c, run, |run| - 1);
      }
    }
  }

  lemma CrashSafeWithoutRetries(c: Config, run: seq<State>, i: nat)
    requires IsRun(c, run) && i < |run| && c.hasStore && !CanRetry(c)
    ensures CrashSafe(run[i])
  {
    hide IsRun;
    forall id | Outstanding(run[i], id)
      ensures id in run[i].store && id in run[i].submitted && run[i].store[id] == run[i].submitted[id]
    {
      FirstAttemptsOnly(c, run, i, id);
      FirstAttemptSafe(c, run, i, id);
    }
  }

  lemma ExclusiveWithoutRetries(c: Config, run: seq<State>, i: nat)
    requires IsRun(c, run) && i < |run| && (c.handlers == {} || (!c.policy.Allow? && !CanRetry(c)))
    ensures Exclusive(run[i])
  {
    hide IsRun, IsPending;
    var s := run[i];
    forall a, b | Active(s, a) && Active(s, b) && s.where[a].job.name == s.where[b].job.name ensures a == b {
      if c.handlers == {} {
        NoHandlers(c, run, i);
      } else {
        FirstAttemptsOnly(c, run, i, a);
        FirstAttemptsOnly(c, run, i, b);
        FirstAttemptsExclusive(c, run, i, a, b);
      }
    }
  }

  lemma NoHandlers(c: Config, run: seq<State>, i: nat)
    requires IsRun(c, run) && i < |run| && c.handlers == {}
    ensures run[i].where.Keys == {}
  {
    Always(c, run, i);
    var s := run[i];
    hide TokenInv, PcInv, ChoreInv, RoomInv, EndInv, StoreInv, FlightInv, WakeInv, IsRun;
    forall id ensures id !in s.where {
      assert id in s.where ==> StoryOk(c, id, s.submitted[id], s.where[id], s.seen[id]);
    }
  }

  /** A second submission is past applyConflict while the first job is still active. */
  lemma TwoActive(c: Config, s: State, j: Job, other: Job) returns (s': State)
    requires Scene(c, s, Thread([], Idle), Thread([], WorkerPop)) && s.flight == map[] && NewJob(c, s, other)
    requires j.id in s.where && Live(s.where[j.id].role) && s.where[j.id].job == j && j.name == other.name
    requires j.id != other.id
    ensures Reach(c, s') && !Exclusive(s')
  {
    hide Reach;
    var free := Thread([], WorkerPop);
    s' := Submits(c, s, free, other);
    s' := Admits(c, s', free, other);
    hide IsRun;
    assert forall t :: t in s'.threads ==> PendingOf(s'.threads[t].pc) == {};
    assert Active(s', j.id) && Active(s', other.id);
  }

  lemma Overlap(c: Config) returns (last: State)
    requires c.handlers != {} && (c.policy.Allow? || CanRetry(c))
    ensures Reach(c, last) && !Exclusive(last)
  {
    hide Scene, Exclusive, Reach;
    var n :| n in c.handlers;
    var s, j;
    if CanRetry(c) {
      s, j := RetryWaits(c, "a", n);
    } else {
      var free := Thread([], WorkerPop);
      j := Order("a", n, 1, 0);
      s := Opening(c);
      s := Submits(c, s, free, j);
      s := Admits(c, s, free, j);
      s := Checks(c, s, free, j);
      s := Persists(c, s, free, j);
      s := Delays(c, s, free, j);
    }
    last := TwoActive(c, s, j, Order("b", n, 0, 0));
  }

  /** Every run keeps same-name exclusion exactly when no job can be submitted, or the policy is not Allow and
      no job can be retried. */
  lemma ExclusiveExactly(c: Config)
    ensures AlwaysExclusive(c) <==> c.handlers == {} || (!c.policy.Allow? && !CanRetry(c))
  {
    if c.handlers != {} && (c.policy.Allow? || CanRetry(c)) {
      var last := Overlap(c);
      hide Exclusive, IsRun;
      var run :| IsRun(c, run) && run[|run| - 1] == last;
    } else {
      forall run | IsRun(c, run) ensures Exclusive(run[|run| - 1]) {
        ExclusiveWithoutRetries(c, run, |run| - 1);
      }
    }
  }
}

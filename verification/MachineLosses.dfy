/** What becomes of a due job when the queue is closed before the delay loop pushes it: it is lost when the queue is
    full, and left behind when the workers have gone. */
module MachineLosses {
  import opened Wrappers
  import opened Jobs
  import opened ReadyQueues
  import opened Machine
  import opened MachineTokens
  import opened MachineEffects
  import opened MachineSteps
  import opened MachineNames
  import opened MachineInvariants
  import opened MachineTheorems
  import opened MachineLimits

  /** The delay loop, a worker and two clients. */
  ghost predicate Crew(c: Config, s: State, loop: Thread, client: Thread, worker: Pc, other: Pc) {
    && Reach(c, s) && s.ready.cap == c.cap && 0 <= s.now
    && s.threads == map[0 := loop, 1 := client, 2 := Thread([], worker), 3 := Thread([], other)]
  }

  /** Before shutdown, with k jobs in the queue, and ids of at most the given lengths in use and tombstoned. */
  ghost predicate Round(s: State, k: nat, used: nat, tombs: nat) {
    && s.running && !s.stopping && !s.ready.closed && |s.ready.items| == k
    && (forall id :: id in s.used ==> |id| <= used)
    && (forall id :: id in s.cancelled ==> |id| <= tombs)
    && (forall e :: e in s.ready.items ==> |e.id| <= k)
  }

  /** The job's place, what the heap holds, and who takes the names, which is nobody under Allow. */
  ghost predicate Stands(c: Config, s: State, j: Job, place: Loc, heap: multiset<Job>, listed: bool) {
    && j.id in s.where && s.where[j.id] == place && s.heap == heap
    && s.flight == if listed && !c.policy.Allow? then map[j.name := {j.id}] else map[]
  }

  function Word(n: nat): (w: string)
    ensures |w| == n
  {
    seq(n, i => 'x')
  }

  /** The job of round k, due one nanosecond after it is submitted. */
  function Due(n: Name, k: nat, now: int): Job {
    Order(Word(k + 1), n, now + 1, 0)
  }

  // ---- A delayed job is submitted and reaches the delay loop's push ----

  lemma Submits(c: Config, s: State, k: nat, n: Name) returns (s': State, j: Job)
    requires Crew(c, s, Resting(LoopCheck), Resting(Idle), WorkerPop, Idle) && Round(s, k, k, k) && n in c.handlers
    requires s.heap == multiset{} && s.flight == map[]
    ensures j == Due(n, k, s.now) && s'.now == s.now
    ensures Crew(c, s', Resting(LoopCheck), Resting(Admitting(j)), WorkerPop, Idle) && Round(s', k, k + 1, k)
    ensures Stands(c, s', j, Loc(Fresh, 1, j), multiset{}, false)
  {
    hide Reach;
    j := Due(n, k, s.now);
    s' := DoSubmit(s, 1, j);
    ReachStep(c, s, Client(1, Submit(j)));
  }

  lemma AdmitsAny(c: Config, s: State, k: nat, j: Job) returns (s': State)
    requires Crew(c, s, Resting(LoopCheck), Resting(Admitting(j)), WorkerPop, Idle) && Round(s, k, k + 1, k)
    requires Stands(c, s, j, Loc(Fresh, 1, j), multiset{}, false) && c.policy.Allow?
    ensures Crew(c, s', Resting(LoopCheck), Resting(Naming(j)), WorkerPop, Idle) && Round(s', k, k + 1, k)
    ensures Stands(c, s', j, Loc(Admitted, 1, j), multiset{}, true) && s'.now == s.now
  {
    hide Reach;
    s' := DoAdmit(c, s, 1, j);
    ReachStep(c, s, Client(1, Admit));
  }

  lemma AdmitsAlone(c: Config, s: State, k: nat, j: Job) returns (s': State)
    requires Crew(c, s, Resting(LoopCheck), Resting(Admitting(j)), WorkerPop, Idle) && Round(s, k, k + 1, k)
    requires Stands(c, s, j, Loc(Fresh, 1, j), multiset{}, false) && c.policy.Skip?
    ensures Crew(c, s', Resting(LoopCheck), Resting(Naming(j)), WorkerPop, Idle) && Round(s', k, k + 1, k)
    ensures Stands(c, s', j, Loc(Admitted, 1, j), multiset{}, true) && s'.now == s.now
  {
    hide Reach, AddFlight;
    FirstListed(j.name, j.id);
    s' := DoAdmit(c, s, 1, j);
    ReachStep(c, s, Client(1, Admit));
  }

  lemma AdmitsInstead(c: Config, s: State, k: nat, j: Job) returns (s': State)
    requires Crew(c, s, Resting(LoopCheck), Resting(Admitting(j)), WorkerPop, Idle) && Round(s, k, k + 1, k)
    requires Stands(c, s, j, Loc(Fresh, 1, j), multiset{}, false) && c.policy.Replace?
    ensures Crew(c, s', Resting(LoopCheck), Resting(Naming(j)), WorkerPop, Idle) && Round(s', k, k + 1, k)
    ensures Stands(c, s', j, Loc(Admitted, 1, j), multiset{}, true) && s'.now == s.now
  {
    hide Reach, AddFlight;
    FirstListed(j.name, j.id);
    var s1 := DoAdmit(c, s, 1, j);
    ReachStep(c, s, Client(1, Admit));
    s' := DoAllReplaced(s1, 1, j);
    ReachStep(c, s1, Client(1, AllReplaced));
  }

  lemma Admits(c: Config, s: State, k: nat, j: Job) returns (s': State)
    requires Crew(c, s, Resting(LoopCheck), Resting(Admitting(j)), WorkerPop, Idle) && Round(s, k, k + 1, k)
    requires Stands(c, s, j, Loc(Fresh, 1, j), multiset{}, false)
    ensures Crew(c, s', Resting(LoopCheck), Resting(Naming(j)), WorkerPop, Idle) && Round(s', k, k + 1, k)
    ensures Stands(c, s', j, Loc(Admitted, 1, j), multiset{}, true) && s'.now == s.now
  {
    hide Crew, Round, Stands;
    match c.policy
    case Allow => s' := AdmitsAny(c, s, k, j);
    case Skip => s' := AdmitsAlone(c, s, k, j);
    case Replace => s' := AdmitsInstead(c, s, k, j);
  }

  predicate IsNamed(s: State, j: Job) {
    j.id in s.names && s.names[j.id] == j.name
  }

  lemma Checks(c: Config, s: State, k: nat, j: Job) returns (s': State)
    requires Crew(c, s, Resting(LoopCheck), Resting(Naming(j)), WorkerPop, Idle) && Round(s, k, k + 1, k)
    requires Stands(c, s, j, Loc(Admitted, 1, j), multiset{}, true) && j.runAt == s.now + 1
    ensures Crew(c, s', Resting(LoopCheck), Resting(Persisting(j, true)), WorkerPop, Idle) && Round(s', k, k + 1, k)
    ensures Stands(c, s', j, Loc(Admitted, 1, j), multiset{}, true) && s'.now == s.now && IsNamed(s', j)
  {
    hide Reach;
    var s1 := DoRecordName(s, 1, j);
    ReachStep(c, s, Client(1, RecordName));
    s' := At(s1, 1, [], Persisting(j, true));
    assert DoCheckRunning(s1, 1, j) == s';
    ReachStep(c, s1, Client(1, CheckRunning));
  }

  lemma Persists(c: Config, s: State, k: nat, j: Job) returns (s': State)
    requires Crew(c, s, Resting(LoopCheck), Resting(Persisting(j, true)), WorkerPop, Idle) && Round(s, k, k + 1, k)
    requires Stands(c, s, j, Loc(Admitted, 1, j), multiset{}, true) && IsNamed(s, j)
    ensures Crew(c, s', Resting(LoopCheck), Resting(Delaying(j)), WorkerPop, Idle) && Round(s', k, k + 1, k)
    ensures Stands(c, s', j, Loc(Saved, 1, j), multiset{}, true) && s'.now == s.now && IsNamed(s', j)
    ensures c.hasStore ==> j.id in s'.store
  {
    hide Reach;
    s' := At(Place(s, j.id, Loc(Saved, 1, j)), 1, [], Delaying(j));
    if c.hasStore {
      s' := s'.(store := s.store[j.id := j]);
    }
    assert DoPersist(c, s, 1, j, true, true, true) == s';
    ReachStep(c, s, Client(1, Persist(true, true)));
  }

  lemma Delays(c: Config, s: State, k: nat, j: Job) returns (s': State)
    requires Crew(c, s, Resting(LoopCheck), Resting(Delaying(j)), WorkerPop, Idle) && Round(s, k, k + 1, k)
    requires Stands(c, s, j, Loc(Saved, 1, j), multiset{}, true) && IsNamed(s, j)
    ensures Crew(c, s', Resting(LoopCheck), Resting(Idle), WorkerPop, Idle) && Round(s', k, k + 1, k)
    ensures Stands(c, s', j, Loc(InHeap, 0, j), multiset{j}, true) && s'.now == s.now && IsNamed(s', j)
  {
    hide Reach;
    assert multiset{} + multiset{j} == multiset{j};
    var s1 := DoPushDelayed(s, 1, j);
    ReachStep(c, s, Client(1, PushDelayed));
    s' := At(s1, 1, [], Idle).(loopSignal := true);
    assert [SignalLoop][1..] == [];
    assert DoChoreOf(c, s1, 1, true) == s';
    ReachStep(c, s1, DoChore(1, true));
  }

  lemma Looks(c: Config, s: State, k: nat, j: Job) returns (s': State)
    requires Crew(c, s, Resting(LoopCheck), Resting(Idle), WorkerPop, Idle) && Round(s, k, k + 1, k)
    requires Stands(c, s, j, Loc(InHeap, 0, j), multiset{j}, true) && j.runAt == s.now + 1 && IsNamed(s, j)
    ensures Crew(c, s', Resting(LoopWait(Some(j.runAt))), Resting(Idle), WorkerPop, Idle) && Round(s', k, k + 1, k)
    ensures Stands(c, s', j, Loc(InHeap, 0, j), multiset{j}, true) && IsNamed(s', j) && s'.now == j.runAt
  {
    hide Reach;
    var s1 := s.(now := j.runAt);
    ReachStep(c, s, Tick(j.runAt));
    s' := DoLook(s1, 0, Some(j));
    ReachStep(c, s1, Loop(0, Look(Some(j))));
  }

  lemma Rings(c: Config, s: State, k: nat, j: Job) returns (s': State)
    requires Crew(c, s, Resting(LoopWait(Some(j.runAt))), Resting(Idle), WorkerPop, Idle) && Round(s, k, k + 1, k)
    requires Stands(c, s, j, Loc(InHeap, 0, j), multiset{j}, true) && IsNamed(s, j) && s.now == j.runAt
    ensures Crew(c, s', Resting(PopDue(j.runAt)), Resting(Idle), WorkerPop, Idle) && Round(s', k, k + 1, k)
    ensures Stands(c, s', j, Loc(InHeap, 0, j), multiset{j}, true) && IsNamed(s', j)
  {
    hide Reach;
    s' := DoTimerFires(s, 0);
    ReachStep(c, s, Loop(0, TimerFires));
  }

  lemma TakeIs(s: State, j: Job)
    requires s.heap == multiset{j}
    ensures DoTakeDue(s, 0, j.runAt, Some(j)) ==
            At(Place(s, j.id, Loc(AtLoop, 0, j)), 0, [], DueHas(j, j.runAt)).(heap := multiset{})
  {
    assert multiset{j} - multiset{j} == multiset{};
  }

  lemma TakeReached(c: Config, s: State, j: Job)
    requires Reach(c, s) && Free(s, 0) && s.threads[0].pc == PopDue(j.runAt) && s.heap == multiset{j}
    ensures Reach(c, DoTakeDue(s, 0, j.runAt, Some(j)))
  {
    hide Reach, DoTakeDue;
    ReachStep(c, s, Loop(0, TakeDue(Some(j))));
  }

  lemma TakesDue(c: Config, s: State, k: nat, j: Job) returns (s': State)
    requires Crew(c, s, Resting(PopDue(j.runAt)), Resting(Idle), WorkerPop, Idle) && Round(s, k, k + 1, k)
    requires Stands(c, s, j, Loc(InHeap, 0, j), multiset{j}, true) && IsNamed(s, j)
    ensures Crew(c, s', Resting(DueHas(j, j.runAt)), Resting(Idle), WorkerPop, Idle) && Round(s', k, k + 1, k)
    ensures Stands(c, s', j, Loc(AtLoop, 0, j), multiset{}, true) && IsNamed(s', j)
  {
    hide Reach, DoTakeDue;
    TakeIs(s, j);
    TakeReached(c, s, j);
    s' := At(Place(s, j.id, Loc(AtLoop, 0, j)), 0, [], DueHas(j, j.runAt)).(heap := multiset{});
  }

  lemma ChecksDue(c: Config, s: State, k: nat, j: Job) returns (s': State)
    requires Crew(c, s, Resting(DueHas(j, j.runAt)), Resting(Idle), WorkerPop, Idle) && Round(s, k, k + 1, k)
    requires Stands(c, s, j, Loc(AtLoop, 0, j), multiset{}, true) && IsNamed(s, j) && |j.id| == k + 1
    ensures Crew(c, s', Resting(DuePush(j, j.runAt)), Resting(Idle), WorkerPop, Idle) && Round(s', k, k + 1, k)
    ensures Stands(c, s', j, Loc(AtLoop, 0, j), multiset{}, true) && IsNamed(s', j)
  {
    hide Reach;
    s' := At(s, 0, [], DuePush(j, j.runAt));
    assert DoDueCheck(s, 0, j, j.runAt) == s';
    ReachStep(c, s, Loop(0, DueCheck));
  }

  /** The delay loop has checked the job for a tombstone, and is about to push it. */
  lemma ComesDue(c: Config, s: State, k: nat, n: Name) returns (s': State, j: Job)
    requires Crew(c, s, Resting(LoopCheck), Resting(Idle), WorkerPop, Idle) && Round(s, k, k, k) && n in c.handlers
    requires s.heap == multiset{} && s.flight == map[]
    ensures |j.id| == k + 1
    ensures Crew(c, s', Resting(DuePush(j, j.runAt)), Resting(Idle), WorkerPop, Idle) && Round(s', k, k + 1, k)
    ensures Stands(c, s', j, Loc(AtLoop, 0, j), multiset{}, true) && IsNamed(s', j)
  {
    hide Crew, Round, Stands, IsNamed;
    s', j := Submits(c, s, k, n);
    s' := Admits(c, s', k, j);
    s' := Checks(c, s', k, j);
    s' := Persists(c, s', k, j);
    s' := Delays(c, s', k, j);
    s' := Looks(c, s', k, j);
    s' := Rings(c, s', k, j);
    s' := TakesDue(c, s', k, j);
    s' := ChecksDue(c, s', k, j);
  }

  // ---- It is cancelled there, pushed all the same, and fills the queue ----

  lemma BeginsCancel(c: Config, s: State, k: nat, j: Job) returns (s': State)
    requires Crew(c, s, Resting(DuePush(j, j.runAt)), Resting(Idle), WorkerPop, Idle) && Round(s, k, k + 1, k)
    requires Stands(c, s, j, Loc(AtLoop, 0, j), multiset{}, true) && IsNamed(s, j)
    ensures Crew(c, s', Resting(DuePush(j, j.runAt)), Resting(CancelReady(j.id, ToCaller)), WorkerPop, Idle)
    ensures Round(s', k, k + 1, k) && Stands(c, s', j, Loc(AtLoop, 0, j), multiset{}, true) && IsNamed(s', j)
  {
    hide Reach;
    var s1 := DoBeginCancel(s, 1, j.id);
    ReachStep(c, s, Client(1, BeginCancel(j.id)));
    s' := DoRemoveFromHeap(s1, 1, j.id, ToCaller, None);
    ReachStep(c, s1, Client(1, RemoveFromHeap(None)));
  }

  lemma MissesQueue(c: Config, s: State, k: nat, j: Job) returns (s': State)
    requires Crew(c, s, Resting(DuePush(j, j.runAt)), Resting(CancelReady(j.id, ToCaller)), WorkerPop, Idle)
    requires Round(s, k, k + 1, k) && Stands(c, s, j, Loc(AtLoop, 0, j), multiset{}, true) && IsNamed(s, j)
    requires |j.id| == k + 1
    ensures Crew(c, s', Resting(DuePush(j, j.runAt)), Resting(CancelTomb(j.id, ToCaller)), WorkerPop, Idle)
    ensures Round(s', k, k + 1, k) && Stands(c, s', j, Loc(AtLoop, 0, j), multiset{}, true) && IsNamed(s', j)
  {
    hide Reach;
    assert Find(s.ready.items, j.id) == -1;
    s' := At(s, 1, [], CancelTomb(j.id, ToCaller));
    assert DoRemoveFromReady(s, 1, j.id, ToCaller) == s';
    ReachStep(c, s, Client(1, RemoveFromReady));
  }

  lemma Entombs(c: Config, s: State, k: nat, j: Job) returns (s': State)
    requires Crew(c, s, Resting(DuePush(j, j.runAt)), Resting(CancelTomb(j.id, ToCaller)), WorkerPop, Idle)
    requires Round(s, k, k + 1, k) && Stands(c, s, j, Loc(AtLoop, 0, j), multiset{}, true) && IsNamed(s, j)
    requires |j.id| == k + 1
    ensures Crew(c, s', Resting(DuePush(j, j.runAt)), Thread(TombChores(j.id), Idle), WorkerPop, Idle)
    ensures Round(s', k, k + 1, k + 1) && Stands(c, s', j, Loc(AtLoop, 0, j), multiset{}, true) && IsNamed(s', j)
  {
    hide Reach;
    s' := DoEntomb(s, 1, j.id, ToCaller);
    ReachStep(c, s, Client(1, Entomb));
  }

  lemma FindsName(c: Config, s: State, k: nat, j: Job) returns (s': State)
    requires Crew(c, s, Resting(DuePush(j, j.runAt)), Thread(TombChores(j.id), Idle), WorkerPop, Idle)
    requires Round(s, k, k + 1, k + 1) && Stands(c, s, j, Loc(AtLoop, 0, j), multiset{}, true) && IsNamed(s, j)
    ensures Crew(c, s', Resting(DuePush(j, j.runAt)), Thread(Cleanup(j), Idle), WorkerPop, Idle)
    ensures Round(s', k, k + 1, k + 1) && Stands(c, s', j, Loc(AtLoop, 0, j), multiset{}, true)
  {
    hide Reach;
    assert [ReleaseName(j.name, j.id), ForgetName(j.id)] + TombChores(j.id)[1..] == Cleanup(j);
    s' := At(s, 1, Cleanup(j), Idle);
    assert DoChoreOf(c, s, 1, true) == s';
    ReachStep(c, s, DoChore(1, true));
  }

  lemma Unlists(c: Config, s: State, k: nat, j: Job) returns (s': State)
    requires Crew(c, s, Resting(DuePush(j, j.runAt)), Thread(Cleanup(j), Idle), WorkerPop, Idle)
    requires Round(s, k, k + 1, k + 1) && Stands(c, s, j, Loc(AtLoop, 0, j), multiset{}, true)
    ensures Crew(c, s', Resting(DuePush(j, j.runAt)), Thread([ForgetName(j.id), DeleteRecord(j.id)], Idle),
                  WorkerPop, Idle)
    ensures Round(s', k, k + 1, k + 1) && Stands(c, s', j, Loc(AtLoop, 0, j), multiset{}, false)
  {
    hide Reach, DropFlight;
    FirstListed(j.name, j.id);
    assert Cleanup(j)[1..] == [ForgetName(j.id), DeleteRecord(j.id)];
    s' := At(s, 1, [ForgetName(j.id), DeleteRecord(j.id)], Idle).(flight := map[]);
    assert DoChoreOf(c, s, 1, true) == s';
    ReachStep(c, s, DoChore(1, true));
  }

  lemma Forgets(c: Config, s: State, k: nat, j: Job) returns (s': State)
    requires Crew(c, s, Resting(DuePush(j, j.runAt)), Thread([ForgetName(j.id), DeleteRecord(j.id)], Idle),
                  WorkerPop, Idle)
    requires Round(s, k, k + 1, k + 1) && Stands(c, s, j, Loc(AtLoop, 0, j), multiset{}, false)
    ensures Crew(c, s', Resting(DuePush(j, j.runAt)), Thread([DeleteRecord(j.id)], Idle), WorkerPop, Idle)
    ensures Round(s', k, k + 1, k + 1) && Stands(c, s', j, Loc(AtLoop, 0, j), multiset{}, false)
  {
    hide Reach;
    assert [ForgetName(j.id), DeleteRecord(j.id)][1..] == [DeleteRecord(j.id)];
    s' := At(s, 1, [DeleteRecord(j.id)], Idle).(names := s.names - {j.id});
    assert DoChoreOf(c, s, 1, true) == s';
    ReachStep(c, s, DoChore(1, true));
  }

  lemma Deletes(c: Config, s: State, k: nat, j: Job) returns (s': State)
    requires Crew(c, s, Resting(DuePush(j, j.runAt)), Thread([DeleteRecord(j.id)], Idle), WorkerPop, Idle)
    requires Round(s, k, k + 1, k + 1) && Stands(c, s, j, Loc(AtLoop, 0, j), multiset{}, false)
    ensures Crew(c, s', Resting(DuePush(j, j.runAt)), Resting(Idle), WorkerPop, Idle)
    ensures Round(s', k, k + 1, k + 1) && Stands(c, s', j, Loc(AtLoop, 0, j), multiset{}, false)
  {
    hide Reach;
    assert [DeleteRecord(j.id)][1..] == [];
    s' := At(s, 1, [], Idle).(store := if c.hasStore then s.store - {j.id} else s.store);
    assert DoChoreOf(c, s, 1, true) == s';
    ReachStep(c, s, DoChore(1, true));
  }

  lemma PushIs(s: State, j: Job)
    requires |s.ready.items| < s.ready.cap
    ensures DoDueEnqueue(s, 0, j, j.runAt) ==
            At(Place(s, j.id, Loc(InReady, 0, j)), 0, [], PopDue(j.runAt))
              .(ready := s.ready.(items := s.ready.items + [j]))
  {
  }

  lemma PushReached(c: Config, s: State, j: Job)
    requires Reach(c, s) && Free(s, 0) && s.threads[0].pc == DuePush(j, j.runAt)
    ensures Reach(c, DoDueEnqueue(s, 0, j, j.runAt))
  {
    hide Reach, DoDueEnqueue;
    ReachStep(c, s, Loop(0, DueEnqueue));
  }

  lemma LoseIs(s: State, j: Job)
    requires |s.ready.items| >= s.ready.cap && s.ready.closed
    ensures DoDueEnqueue(s, 0, j, j.runAt) == Leave(s, 0, j, Lost, [], PopDue(j.runAt))
  {
  }

  lemma Pushes(c: Config, s: State, k: nat, j: Job) returns (s': State)
    requires Crew(c, s, Resting(DuePush(j, j.runAt)), Resting(Idle), WorkerPop, Idle)
    requires Round(s, k, k + 1, k + 1) && Stands(c, s, j, Loc(AtLoop, 0, j), multiset{}, false)
    requires |j.id| == k + 1 && k < c.cap
    ensures Crew(c, s', Resting(PopDue(j.runAt)), Resting(Idle), WorkerPop, Idle) && Round(s', k + 1, k + 1, k + 1)
    ensures s'.heap == multiset{} && s'.flight == map[]
  {
    hide Reach, DoDueEnqueue;
    PushIs(s, j);
    PushReached(c, s, j);
    s' := At(Place(s, j.id, Loc(InReady, 0, j)), 0, [], PopDue(j.runAt))
            .(ready := s.ready.(items := s.ready.items + [j]));
  }

  lemma FindsNoMore(c: Config, s: State, k: nat, at: int) returns (s': State)
    requires Crew(c, s, Resting(PopDue(at)), Resting(Idle), WorkerPop, Idle) && Round(s, k, k, k)
    requires s.heap == multiset{} && s.flight == map[]
    ensures Crew(c, s', Resting(LoopCheck), Resting(Idle), WorkerPop, Idle) && Round(s', k, k, k)
    ensures s'.heap == multiset{} && s'.flight == map[]
  {
    hide Reach;
    s' := At(s, 0, [], LoopCheck);
    assert DoTakeDue(s, 0, at, None) == s';
    ReachStep(c, s, Loop(0, TakeDue(None)));
  }

  /** One more job lies in the queue, cancelled, with its name free for the next. */
  lemma CancelledInQueue(c: Config, s: State, k: nat, n: Name) returns (s': State)
    requires Crew(c, s, Resting(LoopCheck), Resting(Idle), WorkerPop, Idle) && Round(s, k, k, k) && n in c.handlers
    requires s.heap == multiset{} && s.flight == map[] && k < c.cap
    ensures Crew(c, s', Resting(LoopCheck), Resting(Idle), WorkerPop, Idle) && Round(s', k + 1, k + 1, k + 1)
    ensures s'.heap == multiset{} && s'.flight == map[]
  {
    hide Crew, Round, Stands, IsNamed;
    var j;
    s', j := ComesDue(c, s, k, n);
    s' := BeginsCancel(c, s', k, j);
    s' := MissesQueue(c, s', k, j);
    s' := Entombs(c, s', k, j);
    s' := FindsName(c, s', k, j);
    s' := Unlists(c, s', k, j);
    s' := Forgets(c, s', k, j);
    s' := Deletes(c, s', k, j);
    s' := Pushes(c, s', k, j);
    s' := FindsNoMore(c, s', k + 1, j.runAt);
  }

  lemma Opens(c: Config) returns (s: State)
    ensures Crew(c, s, Resting(LoopCheck), Resting(Idle), WorkerPop, Idle) && Round(s, 0, 0, 0)
    ensures s.heap == multiset{} && s.flight == map[]
  {
    s := StartState(c).(threads := map[0 := Resting(LoopCheck), 1 := Resting(Idle), 2 := Resting(WorkerPop),
                                       3 := Resting(Idle)]);
    ReachStart(c, s);
    hide Reach;
  }

  /** The queue can be filled whatever the conflict policy, with a single handler and no worker at work. */
  lemma {:induction false} FillsQueue(c: Config, n: Name, k: nat) returns (s: State)
    requires n in c.handlers && k <= c.cap
    ensures Crew(c, s, Resting(LoopCheck), Resting(Idle), WorkerPop, Idle) && Round(s, k, k, k)
    ensures s.heap == multiset{} && s.flight == map[]
  {
    hide Crew, Round;
    if k == 0 {
      s := Opens(c);
    } else {
      s := FillsQueue(c, n, k - 1);
      s := CancelledInQueue(c, s, k - 1, n);
    }
  }

  // ---- Shutdown comes between the check and the push ----

  lemma StopsAccepting(c: Config, s: State, k: nat, j: Job) returns (s': State)
    requires Crew(c, s, Resting(DuePush(j, j.runAt)), Resting(Idle), WorkerPop, Idle) && Round(s, k, k + 1, k)
    requires Stands(c, s, j, Loc(AtLoop, 0, j), multiset{}, true)
    ensures Crew(c, s', Resting(DuePush(j, j.runAt)), Resting(ShutStop), WorkerPop, Idle)
    ensures Stands(c, s', j, Loc(AtLoop, 0, j), multiset{}, true)
    ensures s'.ready.items == s.ready.items && s'.cancelled == s.cancelled
  {
    hide Reach, Round;
    s' := DoBeginShutdown(s, 1);
    ReachStep(c, s, Client(1, BeginShutdown));
  }

  lemma StopsLoop(c: Config, s: State, j: Job) returns (s': State)
    requires Crew(c, s, Resting(DuePush(j, j.runAt)), Resting(ShutStop), WorkerPop, Idle)
    requires Stands(c, s, j, Loc(AtLoop, 0, j), multiset{}, true)
    ensures Crew(c, s', Resting(DuePush(j, j.runAt)), Resting(ShutClose), WorkerPop, Idle) && s'.stopping
    ensures Stands(c, s', j, Loc(AtLoop, 0, j), multiset{}, true)
    ensures s'.ready.items == s.ready.items && s'.cancelled == s.cancelled
  {
    hide Reach;
    s' := DoStopLoop(s, 1);
    ReachStep(c, s, Client(1, StopLoop));
  }

  lemma ClosesQueue(c: Config, s: State, j: Job) returns (s': State)
    requires Crew(c, s, Resting(DuePush(j, j.runAt)), Resting(ShutClose), WorkerPop, Idle) && s.stopping
    requires Stands(c, s, j, Loc(AtLoop, 0, j), multiset{}, true)
    ensures Crew(c, s', Resting(DuePush(j, j.runAt)), Resting(Idle), WorkerPop, Idle) && s'.ready.closed && s'.stopping
    ensures Stands(c, s', j, Loc(AtLoop, 0, j), multiset{}, true)
    ensures s'.ready.items == s.ready.items && s'.cancelled == s.cancelled
  {
    hide Reach;
    s' := DoCloseQueue(s, 1);
    ReachStep(c, s, Client(1, CloseQueue));
  }

  lemma ShutsDown(c: Config, s: State, k: nat, j: Job) returns (s': State)
    requires Crew(c, s, Resting(DuePush(j, j.runAt)), Resting(Idle), WorkerPop, Idle) && Round(s, k, k + 1, k)
    requires Stands(c, s, j, Loc(AtLoop, 0, j), multiset{}, true)
    ensures Crew(c, s', Resting(DuePush(j, j.runAt)), Resting(Idle), WorkerPop, Idle) && s'.ready.closed && s'.stopping
    ensures Stands(c, s', j, Loc(AtLoop, 0, j), multiset{}, true) && s'.heap == multiset{}
    ensures s'.ready.items == s.ready.items && s'.cancelled == s.cancelled
  {
    hide Crew, Round;
    s' := StopsAccepting(c, s, k, j);
    s' := StopsLoop(c, s', j);
    s' := ClosesQueue(c, s', j);
  }

  /** A job was lost that nobody had cancelled. */
  predicate LosesJob(s: State, id: Id) {
    id in s.where && s.where[id].role.Lost? && id !in s.cancelled
  }

  lemma Loses(c: Config, s: State, j: Job) returns (s': State)
    requires Crew(c, s, Resting(DuePush(j, j.runAt)), Resting(Idle), WorkerPop, Idle) && s.ready.closed
    requires |s.ready.items| >= c.cap && j.id !in s.cancelled
    ensures Reach(c, s') && LosesJob(s', j.id)
  {
    hide Reach, DoDueEnqueue;
    LoseIs(s, j);
    PushReached(c, s, j);
    s' := Leave(s, 0, j, Lost, [], PopDue(j.runAt));
  }

  /** At a full queue the push fails, and the error is ignored. */
  lemma LosesDue(c: Config, n: Name) returns (s: State, id: Id)
    requires n in c.handlers
    ensures Reach(c, s) && LosesJob(s, id)
  {
    hide Crew, Stands, IsNamed, Reach, LosesJob;
    s := FillsQueue(c, n, c.cap);
    var j;
    s, j := ComesDue(c, s, c.cap, n);
    s := ShutsDown(c, s, c.cap, j);
    id := j.id;
    s := Loses(c, s, j);
  }

  ghost predicate KeepsJobs(s: State) {
    forall id :: !LosesJob(s, id)
  }

  ghost predicate NeverLoses(c: Config) {
    forall run :: IsRun(c, run) ==> KeepsJobs(run[|run| - 1])
  }

  /** popDue means never to drop a due job; it keeps to that in every run exactly when there is nothing to submit. */
  lemma NeverLosesExactly(c: Config)
    ensures NeverLoses(c) <==> c.handlers == {}
  {
    if c.handlers != {} {
      var n :| n in c.handlers;
      var s, id := LosesDue(c, n);
      var run :| IsRun(c, run) && run[|run| - 1] == s;
    } else {
      forall run | IsRun(c, run) ensures KeepsJobs(run[|run| - 1]) {
        NoHandlers(c, run, |run| - 1);
      }
    }
  }

  // ---- A job is left in the queue ----

  predicate AtRest(th: Thread) {
    th.todo == [] && (th.pc.Idle? || th.pc.WorkerDone? || th.pc.LoopDone?)
  }

  /** Everything has come to rest, the worker has gone, and a job is still in the queue. */
  ghost predicate Stranded(s: State) {
    && s.ready.items != []
    && (exists t :: t in s.threads && s.threads[t].pc.WorkerDone?)
    && (forall t :: t in s.threads ==> AtRest(s.threads[t]))
  }

  lemma WorkerGoes(c: Config, s: State, j: Job) returns (s': State)
    requires Crew(c, s, Resting(DuePush(j, j.runAt)), Resting(Idle), WorkerPop, Idle) && s.ready.closed && s.stopping
    requires s.heap == multiset{} && s.ready.items == []
    ensures Crew(c, s', Resting(DuePush(j, j.runAt)), Resting(Idle), WorkerDone, Idle) && s'.ready.closed && s'.stopping
    ensures s'.heap == multiset{} && s'.ready.items == []
  {
    hide Reach;
    s' := At(s, 2, [], WorkerDone);
    assert DoTakeReady(s, 2) == s';
    ReachStep(c, s, Work(2, TakeReady));
  }

  lemma FirstPushIs(s: State, j: Job)
    requires s.ready.items == [] && s.ready.cap > 0
    ensures DoDueEnqueue(s, 0, j, j.runAt) ==
            At(Place(s, j.id, Loc(InReady, 0, j)), 0, [], PopDue(j.runAt)).(ready := s.ready.(items := [j]))
  {
    hide DoDueEnqueue;
    PushIs(s, j);
    assert s.ready.items + [j] == [j];
  }

  lemma PushesLate(c: Config, s: State, j: Job) returns (s': State)
    requires Crew(c, s, Resting(DuePush(j, j.runAt)), Resting(Idle), WorkerDone, Idle) && s.stopping
    requires s.heap == multiset{} && s.ready.items == [] && c.cap > 0
    ensures Crew(c, s', Resting(PopDue(j.runAt)), Resting(Idle), WorkerDone, Idle) && s'.stopping
    ensures s'.heap == multiset{} && s'.ready.items == [j]
  {
    hide Reach, DoDueEnqueue;
    FirstPushIs(s, j);
    PushReached(c, s, j);
    s' := At(Place(s, j.id, Loc(InReady, 0, j)), 0, [], PopDue(j.runAt)).(ready := s.ready.(items := [j]));
  }

  lemma LoopReturns(c: Config, s: State, at: int) returns (s': State)
    requires Crew(c, s, Resting(PopDue(at)), Resting(Idle), WorkerDone, Idle) && s.stopping && s.heap == multiset{}
    ensures Crew(c, s', Resting(LoopCheck), Resting(Idle), WorkerDone, Idle) && s'.stopping && s'.heap == multiset{}
    ensures s'.ready.items == s.ready.items
  {
    hide Reach;
    s' := At(s, 0, [], LoopCheck);
    assert DoTakeDue(s, 0, at, None) == s';
    ReachStep(c, s, Loop(0, TakeDue(None)));
  }

  lemma LoopWaits(c: Config, s: State) returns (s': State)
    requires Crew(c, s, Resting(LoopCheck), Resting(Idle), WorkerDone, Idle) && s.stopping && s.heap == multiset{}
    ensures Crew(c, s', Resting(LoopWait(None)), Resting(Idle), WorkerDone, Idle)
    ensures s'.stopping && s'.heap == multiset{}
    ensures s'.ready.items == s.ready.items
  {
    hide Reach;
    s' := DoLook(s, 0, None);
    ReachStep(c, s, Loop(0, Look(None)));
  }

  lemma LoopEnds(c: Config, s: State) returns (s': State)
    requires Crew(c, s, Resting(LoopWait(None)), Resting(Idle), WorkerDone, Idle) && s.stopping && s.heap == multiset{}
    ensures Crew(c, s', Resting(LoopDone), Resting(Idle), WorkerDone, Idle) && s'.ready.items == s.ready.items
  {
    hide Reach;
    var s1 := DoStopped(s, 0);
    ReachStep(c, s, Loop(0, Stopped));
    s' := At(s1, 0, [], LoopDone);
    assert DoDrain(s1, 0, None) == s';
    ReachStep(c, s1, Loop(0, Drain(None)));
  }

  lemma IsStranded(c: Config, s: State)
    requires Crew(c, s, Resting(LoopDone), Resting(Idle), WorkerDone, Idle) && s.ready.items != []
    ensures Reach(c, s) && Stranded(s)
  {
    hide Reach;
    assert s.threads[2].pc.WorkerDone?;
  }

  /** The worker finds the closed queue empty and goes; the push that comes after finds room. */
  lemma LeavesBehind(c: Config, n: Name) returns (s: State)
    requires n in c.handlers && c.cap > 0
    ensures Reach(c, s) && Stranded(s)
  {
    hide Crew, Stands, IsNamed, Reach, Stranded;
    s := Opens(c);
    var j;
    s, j := ComesDue(c, s, 0, n);
    s := ShutsDown(c, s, 0, j);
    s := WorkerGoes(c, s, j);
    s := PushesLate(c, s, j);
    s := LoopReturns(c, s, j.runAt);
    s := LoopWaits(c, s);
    s := LoopEnds(c, s);
    IsStranded(c, s);
  }

  ghost predicate NeverStrands(c: Config) {
    forall run :: IsRun(c, run) ==> !Stranded(run[|run| - 1])
  }

  /** A run can come to rest with a job in the queue and no worker left, unless nothing can ever be in the queue. */
  lemma NeverStrandsExactly(c: Config)
    ensures NeverStrands(c) <==> c.handlers == {} || c.cap == 0
  {
    hide Stranded, IsStart;
    if c.handlers != {} && c.cap > 0 {
      var n :| n in c.handlers;
      var s := LeavesBehind(c, n);
      var run :| IsRun(c, run) && run[|run| - 1] == s;
    } else {
      forall run | IsRun(c, run) ensures !Stranded(run[|run| - 1]) {
        NothingQueued(c, run, |run| - 1);
        EmptyIsNotStranded(run[|run| - 1]);
      }
    }
  }

  lemma EmptyIsNotStranded(s: State)
    ensures s.ready.items == [] ==> !Stranded(s)
  {
  }

  lemma NothingQueued(c: Config, run: seq<State>, i: nat)
    requires IsRun(c, run) && i < |run| && (c.handlers == {} || c.cap == 0)
    ensures run[i].ready.items == []
  {
    Always(c, run, i);
    var s := run[i];
    hide IsRun, TokenInv, PcInv, ChoreInv, EndInv, StoreInv, FlightInv, WakeInv, DueInv, NameInv, StoryInv;
    if s.ready.items != [] {
      ReadyKeeps(s, 0);
      if c.handlers == {} {
        NoHandlers(c, run, i);
      }
    }
  }

  // ---- Such a job came late ----

  lemma DoneStep(c: Config, s: State, a: Action, t: nat)
    requires Inv(c, s) && Enabled(c, s, a)
    requires var s' := Do(c, s, a); t in s'.threads && s'.threads[t].pc.WorkerDone?
    ensures (t in s.threads && s.threads[t].pc.WorkerDone?) || (s.ready.closed && s.ready.items == [])
  {
    if a.Tick? {
      return;
    }
    hide TokenInv, Do, Enabled, KeysInv, PcInv, ChoreInv, MoveOk, EndOk, StoreOk, FlightOk, WakeOk, DueOk, OweOk, Owed,
      StoryInv, RoomInv, EndInv, StoreInv, FlightInv, WakeInv, DueInv, NameInv, TombDue, Retrying, InLoop;
    var d := StepEffect(c, s, a);
  }

  /** What a step puts into the queue is one job, at the end; a closed queue stays closed. */
  lemma QueueStep(c: Config, s: State, a: Action, e: Job)
    requires Inv(c, s) && Enabled(c, s, a) && e in Do(c, s, a).ready.items && e !in s.ready.items
    ensures Do(c, s, a).ready.items == s.ready.items + [e]
  {
    if a.Tick? {
      return;
    }
    hide TokenInv, Do, Enabled, KeysInv, PcInv, ChoreInv, MoveOk, EndOk, StoreOk, FlightOk, WakeOk, PcOk, OweOk, Owed,
      StoryInv, RoomInv, EndInv, StoreInv, FlightInv, WakeInv, DueInv, NameInv, CarriesDue, ClockRead, RunsNow;
    var d := StepEffect(c, s, a);
  }

  lemma ClosedStep(c: Config, s: State, a: Action)
    requires Inv(c, s) && Enabled(c, s, a) && s.ready.closed
    ensures Do(c, s, a).ready.closed
  {
    if a.Tick? {
      return;
    }
    hide TokenInv, Do, Enabled, KeysInv, PcInv, ChoreInv, MoveOk, Reason, StoreOk, FlightOk, WakeOk, PcOk, OweOk, Owed,
      StoryInv, RoomInv, EndInv, StoreInv, FlightInv, WakeInv, DueInv, NameInv, DueOk;
    var d := StepEffect(c, s, a);
  }

  /** A worker has gone only after some state with the queue closed and empty. */
  lemma {:induction false} GoneMeansEmptied(c: Config, run: seq<State>, k: nat, t: nat) returns (i: nat)
    requires IsRun(c, run) && k < |run| && t in run[k].threads && run[k].threads[t].pc.WorkerDone?
    ensures i <= k && run[i].ready.closed && run[i].ready.items == []
  {
    i := k;
    if k > 0 {
      hide IsRun, Inv, Enabled, Do;
      Always(c, run, k - 1);
      var a := LastStep(c, run, k);
      DoneStep(c, run[k - 1], a, t);
      if run[k - 1].ready.closed && run[k - 1].ready.items == [] {
        i := k - 1;
      } else {
        i := GoneMeansEmptied(c, run, k - 1, t);
      }
    }
  }

  lemma {:induction false} ClosedStays(c: Config, run: seq<State>, i: nat, k: nat)
    requires IsRun(c, run) && i <= k < |run| && run[i].ready.closed
    ensures run[k].ready.closed
  {
    hide *;
    if i < k {
      ClosedStays(c, run, i, k - 1);
      Always(c, run, k - 1);
      var a := LastStep(c, run, k);
      ClosedStep(c, run[k - 1], a);
    }
  }

  /** What is in the queue and was not there before was put there by a step in between. */
  lemma {:induction false} WasPushed(c: Config, run: seq<State>, i: nat, k: nat, e: Job) returns (p: nat)
    requires IsRun(c, run) && i <= k < |run| && e !in run[i].ready.items && e in run[k].ready.items
    ensures i <= p < k && run[p + 1].ready.items == run[p].ready.items + [e]
  {
    hide *;
    Always(c, run, k - 1);
    var a := LastStep(c, run, k);
    if e in run[k - 1].ready.items {
      p := WasPushed(c, run, i, k - 1, e);
    } else {
      QueueStep(c, run[k - 1], a, e);
      p := k - 1;
    }
  }

  /** Whatever is in the queue once a worker has gone was pushed after the queue had been closed. */
  lemma LeftBehindCameLate(c: Config, run: seq<State>, k: nat, t: nat, e: Job) returns (p: nat)
    requires IsRun(c, run) && k < |run| && t in run[k].threads && run[k].threads[t].pc.WorkerDone?
    requires e in run[k].ready.items
    ensures p < k && run[p].ready.closed && run[p + 1].ready.items == run[p].ready.items + [e]
  {
    hide *;
    var i := GoneMeansEmptied(c, run, k, t);
    p := WasPushed(c, run, i, k, e);
    ClosedStays(c, run, i, p);
  }
}

/** A job replaced before it is saved keeps its record when it ends. */
module MachineLeftovers {
  import opened Wrappers
  import opened Jobs
  import opened ReadyQueues
  import opened Machine
  import opened MachineTokens
  import opened MachineEffects
  import opened MachineNames
  import opened MachineLimits
  import opened MachineRecords
  import opened MachineRemains

  /** Two clients, the delay loop and an idle worker. */
  ghost predicate Stage(c: Config, s: State, loop: Thread, one: Thread, two: Thread) {
    && Reach(c, s) && s.running && s.ready == Queue([], c.cap, false)
    && s.threads == map[0 := loop, 1 := one, 2 := Thread([], WorkerPop), 3 := two]
  }

  /** What an admission leaves alone. */
  predicate StillBut(s: State, s': State) {
    && s'.heap == s.heap && s'.names == s.names && s'.cancelled == s.cancelled && s'.store == s.store
    && s'.now == s.now && s'.used == s.used
  }

  /** What most steps leave alone. */
  predicate Still(s: State, s': State) {
    StillBut(s, s') && s'.flight == s.flight
  }

  lemma FirstSubmits(c: Config, s: State, a: Job) returns (s': State)
    requires Stage(c, s, Resting(LoopCheck), Resting(Idle), Resting(Idle)) && NewJob(c, s, a)
    ensures Stage(c, s', Resting(LoopCheck), Resting(Admitting(a)), Resting(Idle))
    ensures s'.flight == s.flight && s'.store == s.store && s'.used == s.used + {a.id}
    ensures s'.heap == s.heap && s'.names == s.names && s'.cancelled == s.cancelled && s'.now == s.now
    ensures s'.where == s.where[a.id := Loc(Fresh, 1, a)]
  {
    hide Reach;
    s' := DoSubmit(s, 1, a);
    ReachStep(c, s, Client(1, Submit(a)));
  }

  lemma FirstAdmitted(c: Config, s: State, a: Job) returns (s': State)
    requires Stage(c, s, Resting(LoopCheck), Resting(Admitting(a)), Resting(Idle))
    requires c.policy.Replace? && s.flight == map[]
    ensures Stage(c, s', Resting(LoopCheck), Resting(Replacing(a, {})), Resting(Idle))
    ensures StillBut(s, s') && s'.flight == map[a.name := {a.id}]
    ensures s'.where == s.where[a.id := Loc(Admitted, 1, a)]
  {
    hide Reach, AddFlight;
    FirstListed(a.name, a.id);
    s' := DoAdmit(c, s, 1, a);
    ReachStep(c, s, Client(1, Admit));
  }

  lemma FirstWaits(c: Config, s: State, a: Job) returns (s': State)
    requires Stage(c, s, Resting(LoopCheck), Resting(Replacing(a, {})), Resting(Idle))
    ensures Stage(c, s', Resting(LoopCheck), Resting(Naming(a)), Resting(Idle))
    ensures Still(s, s') && s'.where == s.where
  {
    hide Reach;
    s' := DoAllReplaced(s, 1, a);
    ReachStep(c, s, Client(1, AllReplaced));
  }

  lemma SecondSubmits(c: Config, s: State, a: Job, b: Job) returns (s': State)
    requires Stage(c, s, Resting(LoopCheck), Resting(Naming(a)), Resting(Idle)) && NewJob(c, s, b) && b.id != a.id
    ensures Stage(c, s', Resting(LoopCheck), Resting(Naming(a)), Resting(Admitting(b))) && s'.flight == s.flight
    ensures s'.store == s.store
    ensures s'.heap == s.heap && s'.names == s.names && s'.cancelled == s.cancelled && s'.now == s.now
    ensures a.id in s.where ==> a.id in s'.where && s'.where[a.id] == s.where[a.id]
  {
    hide Reach;
    s' := DoSubmit(s, 3, b);
    ReachStep(c, s, Client(3, Submit(b)));
  }

  lemma SecondReplaces(c: Config, s: State, a: Job, b: Job) returns (s': State)
    requires Stage(c, s, Resting(LoopCheck), Resting(Naming(a)), Resting(Admitting(b)))
    requires c.policy.Replace? && b.id != a.id
    requires s.flight == map[b.name := {a.id}]
    ensures Stage(c, s', Resting(LoopCheck), Resting(Naming(a)), Resting(Replacing(b, {a.id})))
    ensures StillBut(s, s') && s'.flight == map[b.name := {b.id}]
    ensures a.id in s.where ==> a.id in s'.where && s'.where[a.id] == s.where[a.id]
  {
    hide Reach, AddFlight;
    FirstListed(b.name, b.id);
    assert s.flight - {b.name} == map[];
    assert AddFlight(s.flight - {b.name}, b.name, b.id) == map[b.name := {b.id}];
    s' := DoAdmit(c, s, 3, b);
    ReachStep(c, s, Client(3, Admit));
  }

  lemma SecondPicks(c: Config, s: State, a: Job, b: Job) returns (s': State)
    requires Stage(c, s, Resting(LoopCheck), Resting(Naming(a)), Resting(Replacing(b, {a.id})))
    ensures Stage(c, s', Resting(LoopCheck), Resting(Naming(a)), Resting(CancelHeap(a.id, ToReplace(b, {}))))
    ensures Still(s, s') && s'.where == s.where
  {
    hide Reach;
    assert {a.id} - {a.id} == {};
    s' := DoNextReplaced(s, 3, b, {a.id}, a.id);
    ReachStep(c, s, Client(3, NextReplaced(a.id)));
  }

  lemma SecondMissesHeap(c: Config, s: State, a: Job, b: Job) returns (s': State)
    requires Stage(c, s, Resting(LoopCheck), Resting(Naming(a)), Resting(CancelHeap(a.id, ToReplace(b, {}))))
    requires s.heap == multiset{}
    ensures Stage(c, s', Resting(LoopCheck), Resting(Naming(a)), Resting(CancelReady(a.id, ToReplace(b, {}))))
    ensures Still(s, s') && s'.where == s.where
  {
    hide Reach;
    s' := DoRemoveFromHeap(s, 3, a.id, ToReplace(b, {}), None);
    ReachStep(c, s, Client(3, RemoveFromHeap(None)));
  }

  lemma SecondMissesQueue(c: Config, s: State, a: Job, b: Job) returns (s': State)
    requires Stage(c, s, Resting(LoopCheck), Resting(Naming(a)), Resting(CancelReady(a.id, ToReplace(b, {}))))
    ensures Stage(c, s', Resting(LoopCheck), Resting(Naming(a)), Resting(CancelTomb(a.id, ToReplace(b, {}))))
    ensures Still(s, s') && s'.where == s.where
  {
    hide Reach;
    assert Find(s.ready.items, a.id) == -1;
    s' := DoRemoveFromReady(s, 3, a.id, ToReplace(b, {}));
    ReachStep(c, s, Client(3, RemoveFromReady));
  }

  lemma SecondEntombs(c: Config, s: State, a: Job, b: Job) returns (s': State)
    requires Stage(c, s, Resting(LoopCheck), Resting(Naming(a)), Resting(CancelTomb(a.id, ToReplace(b, {}))))
    ensures Stage(c, s', Resting(LoopCheck), Resting(Naming(a)), Thread(TombChores(a.id), Replacing(b, {})))
    ensures s'.where == s.where && s'.flight == s.flight && s'.store == s.store
    ensures s'.heap == s.heap && s'.names == s.names && s'.now == s.now && a.id in s'.cancelled
  {
    hide Reach;
    s' := DoEntomb(s, 3, a.id, ToReplace(b, {}));
    ReachStep(c, s, Client(3, Entomb));
  }

  lemma SecondFindsNoName(c: Config, s: State, a: Job, b: Job) returns (s': State)
    requires Stage(c, s, Resting(LoopCheck), Resting(Naming(a)), Thread(TombChores(a.id), Replacing(b, {})))
    requires a.id !in s.names
    ensures Stage(c, s', Resting(LoopCheck), Resting(Naming(a)), Thread([DeleteRecord(a.id)], Replacing(b, {})))
    ensures Still(s, s') && s'.where == s.where
  {
    hide Reach;
    assert TombChores(a.id)[1..] == [DeleteRecord(a.id)];
    assert DoChoreOf(c, s, 3, true) == At(s, 3, [DeleteRecord(a.id)], Replacing(b, {}));
    s' := At(s, 3, [DeleteRecord(a.id)], Replacing(b, {}));
    ReachStep(c, s, DoChore(3, true));
  }

  lemma SecondDeletes(c: Config, s: State, a: Job, b: Job) returns (s': State)
    requires Stage(c, s, Resting(LoopCheck), Resting(Naming(a)), Thread([DeleteRecord(a.id)], Replacing(b, {})))
    requires c.hasStore
    ensures Stage(c, s', Resting(LoopCheck), Resting(Naming(a)), Resting(Replacing(b, {}))) && s'.where == s.where
    ensures s'.flight == s.flight && s'.store == s.store - {a.id}
    ensures s'.heap == s.heap && s'.cancelled == s.cancelled && s'.now == s.now
  {
    hide Reach;
    assert [DeleteRecord(a.id)][1..] == [];
    assert DoChoreOf(c, s, 3, true) == At(s, 3, [], Replacing(b, {})).(store := s.store - {a.id});
    s' := At(s, 3, [], Replacing(b, {})).(store := s.store - {a.id});
    ReachStep(c, s, DoChore(3, true));
  }

  lemma FirstNamed(c: Config, s: State, a: Job, b: Job) returns (s': State)
    requires Stage(c, s, Resting(LoopCheck), Resting(Naming(a)), Resting(Replacing(b, {})))
    ensures Stage(c, s', Resting(LoopCheck), Resting(CheckingRunning(a)), Resting(Replacing(b, {})))
    ensures s'.where == s.where && s'.flight == s.flight && s'.store == s.store
    ensures s'.heap == s.heap && s'.cancelled == s.cancelled && s'.now == s.now
  {
    hide Reach;
    s' := DoRecordName(s, 1, a);
    ReachStep(c, s, Client(1, RecordName));
  }

  lemma FirstChecked(c: Config, s: State, a: Job, b: Job) returns (s': State)
    requires Stage(c, s, Resting(LoopCheck), Resting(CheckingRunning(a)), Resting(Replacing(b, {})))
    requires a.runAt == s.now + 1 && a.runAt != 0
    ensures Stage(c, s', Resting(LoopCheck), Resting(Persisting(a, true)), Resting(Replacing(b, {})))
    ensures s'.where == s.where && Still(s, s')
  {
    hide Reach;
    assert DoCheckRunning(s, 1, a) == At(s, 1, [], Persisting(a, true));
    s' := At(s, 1, [], Persisting(a, true));
    ReachStep(c, s, Client(1, CheckRunning));
  }

  lemma FirstSaved(c: Config, s: State, a: Job, b: Job) returns (s': State)
    requires Stage(c, s, Resting(LoopCheck), Resting(Persisting(a, true)), Resting(Replacing(b, {}))) && c.hasStore
    ensures Stage(c, s', Resting(LoopCheck), Resting(Delaying(a)), Resting(Replacing(b, {}))) 
    ensures s'.flight == s.flight && s'.store == s.store[a.id := a]
    ensures s'.heap == s.heap && s'.cancelled == s.cancelled && s'.now == s.now
  {
    hide Reach;
    assert DoPersist(c, s, 1, a, true, true, true) ==
           At(Place(s, a.id, Loc(Saved, 1, a)), 1, [], Delaying(a)).(store := s.store[a.id := a]);
    s' := At(Place(s, a.id, Loc(Saved, 1, a)), 1, [], Delaying(a)).(store := s.store[a.id := a]);
    ReachStep(c, s, Client(1, Persist(true, true)));
  }

  lemma FirstDelayed(c: Config, s: State, a: Job, b: Job) returns (s': State)
    requires Stage(c, s, Resting(LoopCheck), Resting(Delaying(a)), Resting(Replacing(b, {}))) && s.heap == multiset{}
    ensures Stage(c, s', Resting(LoopCheck), Thread([SignalLoop], Idle), Resting(Replacing(b, {})))
    ensures s'.heap == multiset{a} && s'.cancelled == s.cancelled && s'.now == s.now && s'.store == s.store
    ensures s'.flight == s.flight
  {
    hide Reach;
    assert multiset{} + multiset{a} == multiset{a};
    s' := DoPushDelayed(s, 1, a);
    ReachStep(c, s, Client(1, PushDelayed));
  }

  lemma TimePasses(c: Config, s: State, a: Job, b: Job) returns (s': State)
    requires Stage(c, s, Resting(LoopCheck), Thread([SignalLoop], Idle), Resting(Replacing(b, {})))
    requires s.now <= a.runAt
    ensures Stage(c, s', Resting(LoopCheck), Thread([SignalLoop], Idle), Resting(Replacing(b, {})))
    ensures s'.now == a.runAt
    ensures s'.heap == s.heap && s'.cancelled == s.cancelled && s'.store == s.store && s'.flight == s.flight
  {
    hide Reach;
    s' := s.(now := a.runAt);
    ReachStep(c, s, Tick(a.runAt));
  }

  lemma LoopLooks(c: Config, s: State, a: Job, b: Job) returns (s': State)
    requires Stage(c, s, Resting(LoopCheck), Thread([SignalLoop], Idle), Resting(Replacing(b, {})))
    requires s.heap == multiset{a}
    ensures Stage(c, s', Resting(LoopWait(Some(a.runAt))), Thread([SignalLoop], Idle), Resting(Replacing(b, {})))
    ensures Still(s, s')
  {
    hide Reach;
    s' := DoLook(s, 0, Some(a));
    ReachStep(c, s, Loop(0, Look(Some(a))));
  }

  lemma LoopRings(c: Config, s: State, a: Job, b: Job) returns (s': State)
    requires Stage(c, s, Resting(LoopWait(Some(a.runAt))), Thread([SignalLoop], Idle), Resting(Replacing(b, {})))
    requires s.now == a.runAt
    ensures Stage(c, s', Resting(PopDue(a.runAt)), Thread([SignalLoop], Idle), Resting(Replacing(b, {})))
    ensures Still(s, s')
  {
    hide Reach;
    s' := DoTimerFires(s, 0);
    ReachStep(c, s, Loop(0, TimerFires));
  }

  lemma TakesIs(s: State, a: Job)
    ensures DoTakeDue(s, 0, a.runAt, Some(a)) ==
            At(Place(s, a.id, Loc(AtLoop, 0, a)), 0, [], DueHas(a, a.runAt)).(heap := s.heap - multiset{a})
  {
  }

  lemma DiscardsIs(s: State, a: Job)
    requires a.id in s.cancelled
    ensures DoDueCheck(s, 0, a, a.runAt) == Leave(s, 0, a, Discarded, Release(a), PopDue(a.runAt))
  {
  }

  lemma TakeReached(c: Config, s: State, a: Job, b: Job)
    requires Stage(c, s, Resting(PopDue(a.runAt)), Thread([SignalLoop], Idle), Resting(Replacing(b, {})))
    requires s.heap == multiset{a}
    ensures Reach(c, DoTakeDue(s, 0, a.runAt, Some(a)))
  {
    hide Reach, DoTakeDue;
    ReachStep(c, s, Loop(0, TakeDue(Some(a))));
  }

  lemma DiscardReached(c: Config, s: State, a: Job, b: Job)
    requires Stage(c, s, Resting(DueHas(a, a.runAt)), Thread([SignalLoop], Idle), Resting(Replacing(b, {})))
    ensures Reach(c, DoDueCheck(s, 0, a, a.runAt))
  {
    hide Reach, DoDueCheck;
    ReachStep(c, s, Loop(0, DueCheck));
  }

  lemma LoopTakes(c: Config, s: State, a: Job, b: Job) returns (s': State)
    requires Stage(c, s, Resting(PopDue(a.runAt)), Thread([SignalLoop], Idle), Resting(Replacing(b, {})))
    requires s.heap == multiset{a}
    ensures Stage(c, s', Resting(DueHas(a, a.runAt)), Thread([SignalLoop], Idle), Resting(Replacing(b, {})))
    ensures s'.cancelled == s.cancelled && s'.store == s.store && s'.flight == s.flight
  {
    hide Reach, DoTakeDue;
    TakesIs(s, a);
    TakeReached(c, s, a, b);
    s' := At(Place(s, a.id, Loc(AtLoop, 0, a)), 0, [], DueHas(a, a.runAt)).(heap := s.heap - multiset{a});
  }

  lemma LoopDiscards(c: Config, s: State, a: Job, b: Job) returns (s': State)
    requires Stage(c, s, Resting(DueHas(a, a.runAt)), Thread([SignalLoop], Idle), Resting(Replacing(b, {})))
    requires a.id in s.cancelled
    ensures Stage(c, s', Thread(Release(a), PopDue(a.runAt)), Thread([SignalLoop], Idle), Resting(Replacing(b, {})))
    ensures s'.store == s.store && s'.flight == s.flight && s'.cancelled == s.cancelled
    ensures s'.where == s.where[a.id := Loc(Discarded, 0, a)]
  {
    hide Reach, DoDueCheck, Release;
    DiscardsIs(s, a);
    DiscardReached(c, s, a, b);
    s' := Leave(s, 0, a, Discarded, Release(a), PopDue(a.runAt));
  }

  lemma Begins(c: Config) returns (s: State)
    ensures Stage(c, s, Resting(LoopCheck), Resting(Idle), Resting(Idle))
    ensures s.flight == map[] && s.heap == multiset{} && s.names == map[] && s.used == {} && s.now == 0
    ensures s.store == map[]
  {
    s := StartState(c).(threads := map[0 := Resting(LoopCheck), 1 := Resting(Idle), 2 := Resting(WorkerPop),
                                       3 := Resting(Idle)]);
    ReachStart(c, s);
    hide Reach;
  }

  /** The first job is replaced while its submitter is held up before the save. */
  lemma ReplacedUnsaved(c: Config, a: Job, b: Job) returns (s: State)
    requires c.policy.Replace? && c.hasStore && a.name in c.handlers
    requires a == Order("a", a.name, 1, 0) && b == Order("b", a.name, 0, 0)
    ensures Stage(c, s, Resting(LoopCheck), Resting(Naming(a)), Resting(Replacing(b, {})))
    ensures s.heap == multiset{} && a.id in s.cancelled && s.now == 0
    ensures s.store == map[] && s.flight == map[b.name := {b.id}]
  {
    hide Stage;
    s := Begins(c);
    s := FirstSubmits(c, s, a);
    s := FirstAdmitted(c, s, a);
    s := FirstWaits(c, s, a);
    s := SecondSubmits(c, s, a, b);
    s := SecondReplaces(c, s, a, b);
    s := SecondPicks(c, s, a, b);
    s := SecondMissesHeap(c, s, a, b);
    s := SecondMissesQueue(c, s, a, b);
    s := SecondEntombs(c, s, a, b);
    s := SecondFindsNoName(c, s, a, b);
    var none: map<Id, Job> := map[];
    assert none - {a.id} == none;
    s := SecondDeletes(c, s, a, b);
  }

  /** It is then saved, delayed, and discarded when it is due: its record is left, with nothing under way that could
      delete it. */
  lemma LeavesRecord(c: Config, n: Name) returns (s: State)
    requires c.policy.Replace? && c.hasStore && n in c.handlers
    ensures Reach(c, s) && !Tidy(s) && LeftAlone(s, "a") && "a" in s.cancelled
    ensures s.store == map["a" := Order("a", n, 1, 0)]
  {
    hide Stage, Tidy, Reach, LeftAlone;
    var a, b := Order("a", n, 1, 0), Order("b", n, 0, 0);
    s := ReplacedUnsaved(c, a, b);
    s := FirstNamed(c, s, a, b);
    s := FirstChecked(c, s, a, b);
    s := FirstSaved(c, s, a, b);
    s := FirstDelayed(c, s, a, b);
    s := TimePasses(c, s, a, b);
    s := LoopLooks(c, s, a, b);
    s := LoopRings(c, s, a, b);
    s := LoopTakes(c, s, a, b);
    s := LoopDiscards(c, s, a, b);
    NotTidy(c, s, a, b);
  }

  lemma NotTidy(c: Config, s: State, a: Job, b: Job)
    requires Stage(c, s, Thread(Release(a), PopDue(a.runAt)), Thread([SignalLoop], Idle), Resting(Replacing(b, {})))
    requires a.id in s.store && a.id in s.where && s.where[a.id].role.Discarded?
    requires s.flight == map[b.name := {b.id}] && b.id != a.id
    ensures Reach(c, s) && !Tidy(s) && LeftAlone(s, a.id)
  {
    hide Reach;
    assert !DeleteDue(s, a.id);
  }

  /** With a reliable store, every ended job leaves no record in any run if and only if the policy is not Replace,
      or there is nothing to submit. */
  lemma TidyExactly(c: Config)
    requires c.hasStore && c.reliable
    ensures AlwaysTidy(c) <==> !c.policy.Replace? || c.handlers == {}
  {
    if c.policy.Replace? && c.handlers != {} {
      var n :| n in c.handlers;
      var s := LeavesRecord(c, n);
      hide Tidy, IsRun;
      var run :| IsRun(c, run) && run[|run| - 1] == s;
    } else {
      forall run | IsRun(c, run) ensures Tidy(run[|run| - 1]) {
        hide IsRun;
        if c.handlers == {} {
          NoHandlers(c, run, |run| - 1);
        } else {
          TidyWithoutReplace(c, run, |run| - 1);
        }
      }
    }
  }
}

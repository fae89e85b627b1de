/** What becomes of a job that is delayed after drainDelayed has emptied the heap: it stays there, with its name and its
    record, and nothing will take it out. */
module MachineStrays {
  import opened Wrappers
  import opened Jobs
  import opened ReadyQueues
  import opened Machine
  import opened MachineTokens
  import opened MachineEffects
  import opened MachineSteps
  import opened MachineNames
  import opened MachineInvariants
  import opened MachineTheorems
  import opened MachineLimits
  import opened MachineLosses

  /** Everything has come to rest, the delay loop has gone, and a job is still in the heap. */
  ghost predicate Strays(s: State) {
    && s.heap != multiset{}
    && (exists t :: t in s.threads && s.threads[t].pc.LoopDone?)
    && (forall t :: t in s.threads ==> AtRest(s.threads[t]))
  }

  /** The client holds a job that it has saved and is about to delay; nothing else is anywhere. */
  ghost predicate InHand(c: Config, s: State, j: Job) {
    && Stands(c, s, j, Loc(Saved, 1, j), multiset{}, true) && s.ready.items == []
    && (c.hasStore ==> j.id in s.store) && j.id !in s.cancelled
  }

  lemma ComesToHand(c: Config, n: Name) returns (s: State, j: Job)
    requires n in c.handlers
    ensures Crew(c, s, Resting(LoopCheck), Resting(Delaying(j)), WorkerPop, Idle) && InHand(c, s, j)
  {
    hide Crew, Stands, IsNamed;
    s := Opens(c);
    s, j := MachineLosses.Submits(c, s, 0, n);
    s := MachineLosses.Admits(c, s, 0, j);
    s := MachineLosses.Checks(c, s, 0, j);
    s := MachineLosses.Persists(c, s, 0, j);
  }

  lemma ShutsElsewhere(c: Config, s: State, j: Job) returns (s': State)
    requires Crew(c, s, Resting(LoopCheck), Resting(Delaying(j)), WorkerPop, Idle) && InHand(c, s, j)
    ensures Crew(c, s', Resting(LoopCheck), Resting(Delaying(j)), WorkerPop, ShutClose) && InHand(c, s', j)
    ensures s'.stopping
  {
    hide Reach;
    var s1 := DoBeginShutdown(s, 3);
    ReachStep(c, s, Client(3, BeginShutdown));
    s' := DoStopLoop(s1, 3);
    ReachStep(c, s1, Client(3, StopLoop));
  }

  lemma ClosesElsewhere(c: Config, s: State, j: Job) returns (s': State)
    requires Crew(c, s, Resting(LoopCheck), Resting(Delaying(j)), WorkerPop, ShutClose) && InHand(c, s, j)
    requires s.stopping
    ensures Crew(c, s', Resting(LoopCheck), Resting(Delaying(j)), WorkerPop, Idle) && InHand(c, s', j)
    ensures s'.stopping && s'.ready.closed
  {
    hide Reach;
    s' := DoCloseQueue(s, 3);
    ReachStep(c, s, Client(3, CloseQueue));
  }

  lemma WorkerLeavesFirst(c: Config, s: State, j: Job) returns (s': State)
    requires Crew(c, s, Resting(LoopCheck), Resting(Delaying(j)), WorkerPop, Idle) && InHand(c, s, j)
    requires s.stopping && s.ready.closed
    ensures Crew(c, s', Resting(LoopCheck), Resting(Delaying(j)), WorkerDone, Idle) && InHand(c, s', j)
    ensures s'.stopping
  {
    hide Reach;
    s' := At(s, 2, [], WorkerDone);
    assert DoTakeReady(s, 2) == s';
    ReachStep(c, s, Work(2, TakeReady));
  }

  lemma LoopIsStopped(c: Config, s: State, j: Job) returns (s': State)
    requires Crew(c, s, Resting(LoopCheck), Resting(Delaying(j)), WorkerDone, Idle) && InHand(c, s, j) && s.stopping
    ensures Crew(c, s', Resting(Draining), Resting(Delaying(j)), WorkerDone, Idle) && InHand(c, s', j)
  {
    hide Reach;
    var s1 := DoLook(s, 0, None);
    ReachStep(c, s, Loop(0, Look(None)));
    s' := DoStopped(s1, 0);
    ReachStep(c, s1, Loop(0, Stopped));
  }

  lemma LoopDrains(c: Config, s: State, j: Job) returns (s': State)
    requires Crew(c, s, Resting(Draining), Resting(Delaying(j)), WorkerDone, Idle) && InHand(c, s, j)
    ensures Crew(c, s', Resting(LoopDone), Resting(Delaying(j)), WorkerDone, Idle) && InHand(c, s', j)
  {
    hide Reach;
    s' := At(s, 0, [], LoopDone);
    assert DoDrain(s, 0, None) == s';
    ReachStep(c, s, Loop(0, Drain(None)));
  }

  lemma DelaysLate(c: Config, s: State, j: Job) returns (s': State)
    requires Crew(c, s, Resting(LoopDone), Resting(Delaying(j)), WorkerDone, Idle) && InHand(c, s, j)
    ensures Crew(c, s', Resting(LoopDone), Resting(Idle), WorkerDone, Idle)
    ensures Stands(c, s', j, Loc(InHeap, 0, j), multiset{j}, true)
    ensures (c.hasStore ==> j.id in s'.store) && j.id !in s'.cancelled
  {
    hide Reach;
    assert multiset{} + multiset{j} == multiset{j};
    var s1 := DoPushDelayed(s, 1, j);
    ReachStep(c, s, Client(1, PushDelayed));
    s' := At(s1, 1, [], Idle).(loopSignal := true);
    assert [SignalLoop][1..] == [];
    assert DoChoreOf(c, s1, 1, true) == s';
    ReachStep(c, s1, DoChore(1, true));
  }

  lemma RestsThere(c: Config, s: State, j: Job)
    requires Crew(c, s, Resting(LoopDone), Resting(Idle), WorkerDone, Idle) && s.heap == multiset{j}
    ensures Reach(c, s) && Strays(s)
  {
    hide Reach;
    assert j in s.heap;
    assert s.threads[0].pc.LoopDone?;
  }

  /** A submission that has passed the check of the running flag delays its job after the loop has drained the heap: the
      job is not cancelled, and keeps its name and its record. */
  lemma StaysDelayed(c: Config, n: Name) returns (s: State, j: Job)
    requires n in c.handlers
    ensures Reach(c, s) && Strays(s) && s.heap == multiset{j} && j.id !in s.cancelled
    ensures (c.hasStore ==> j.id in s.store) && (!c.policy.Allow? ==> IsListed(s, j.name, j.id))
  {
    hide Crew, InHand, Reach, Strays;
    s, j := ComesToHand(c, n);
    s := ShutsElsewhere(c, s, j);
    s := ClosesElsewhere(c, s, j);
    s := WorkerLeavesFirst(c, s, j);
    s := LoopIsStopped(c, s, j);
    s := LoopDrains(c, s, j);
    s := DelaysLate(c, s, j);
    RestsThere(c, s, j);
  }

  ghost predicate NeverStrays(c: Config) {
    forall run :: IsRun(c, run) ==> !Strays(run[|run| - 1])
  }

  /** drainDelayed means to leave the heap empty for good; it does in every run exactly when there is nothing to
      submit. */
  lemma NeverStraysExactly(c: Config)
    ensures NeverStrays(c) <==> c.handlers == {}
  {
    hide Strays, IsStart;
    if c.handlers != {} {
      var n :| n in c.handlers;
      var s, j := StaysDelayed(c, n);
      var run :| IsRun(c, run) && run[|run| - 1] == s;
    } else {
      forall run | IsRun(c, run) ensures !Strays(run[|run| - 1]) {
        NothingDelayed(c, run, |run| - 1);
        EmptyHeapIsFine(run[|run| - 1]);
      }
    }
  }

  lemma EmptyHeapIsFine(s: State)
    requires forall e :: e !in s.heap
    ensures !Strays(s)
  {
    assert s.heap == multiset{};
  }

  lemma NothingDelayed(c: Config, run: seq<State>, i: nat)
    requires IsRun(c, run) && i < |run| && c.handlers == {}
    ensures forall e :: e !in run[i].heap
  {
    Always(c, run, i);
    NoHandlers(c, run, i);
    hide IsRun, TokenInv, PcInv, ChoreInv, EndInv, StoreInv, FlightInv, WakeInv, DueInv, NameInv, StoryInv, RoomInv;
    forall e ensures e !in run[i].heap {
      if e in run[i].heap {
        HeapKeeps(run[i], e);
      }
    }
  }

  // ---- Such a job came late ----

  lemma LoopDoneStep(c: Config, s: State, a: Action, t: nat)
    requires Inv(c, s) && Enabled(c, s, a)
    requires var s' := Do(c, s, a); t in s'.threads && s'.threads[t].pc.LoopDone?
    ensures (t in s.threads && s.threads[t].pc.LoopDone?) || (s.stopping && s.heap == multiset{})
  {
    if a.Tick? {
      return;
    }
    hide TokenInv, Do, Enabled, KeysInv, ChoreInv, MoveOk, EndOk, StoreOk, FlightOk, WakeOk, DueOk, OweOk, Owed,
      StoryInv, RoomInv, EndInv, StoreInv, FlightInv, WakeInv, DueInv, NameInv, TombDue, Retrying, InLoop;
    var d := StepEffect(c, s, a);
  }

  lemma StoppingStep(c: Config, s: State, a: Action)
    requires Inv(c, s) && Enabled(c, s, a) && s.stopping
    ensures Do(c, s, a).stopping
  {
    if a.Tick? {
      return;
    }
    hide TokenInv, Do, Enabled, KeysInv, PcInv, ChoreInv, MoveOk, Reason, StoreOk, FlightOk, WakeOk, PcOk, OweOk, Owed,
      StoryInv, RoomInv, EndInv, StoreInv, FlightInv, WakeInv, DueInv, NameInv, DueOk;
    var d := StepEffect(c, s, a);
  }

  /** The loop has gone only after some state that was stopping and had an empty heap. */
  lemma {:induction false} GoneMeansDrained(c: Config, run: seq<State>, k: nat, t: nat) returns (i: nat)
    requires IsRun(c, run) && k < |run| && t in run[k].threads && run[k].threads[t].pc.LoopDone?
    ensures i <= k && run[i].stopping && run[i].heap == multiset{}
  {
    i := k;
    if k > 0 {
      hide IsRun, Inv, Enabled, Do;
      Always(c, run, k - 1);
      var a := LastStep(c, run, k);
      LoopDoneStep(c, run[k - 1], a, t);
      if run[k - 1].stopping && run[k - 1].heap == multiset{} {
        i := k - 1;
      } else {
        i := GoneMeansDrained(c, run, k - 1, t);
      }
    }
  }

  lemma {:induction false} StoppingStays(c: Config, run: seq<State>, i: nat, k: nat)
    requires IsRun(c, run) && i <= k < |run| && run[i].stopping
    ensures run[k].stopping
  {
    hide *;
    if i < k {
      StoppingStays(c, run, i, k - 1);
      Always(c, run, k - 1);
      var a := LastStep(c, run, k);
      StoppingStep(c, run[k - 1], a);
    }
  }

  /** What is in the heap and was not there before was put there by a step in between. */
  lemma {:induction false} WasDelayed(run: seq<State>, i: nat, k: nat, e: Job) returns (p: nat)
    requires i <= k < |run| && e !in run[i].heap && e in run[k].heap
    ensures i <= p < k && e !in run[p].heap && e in run[p + 1].heap
  {
    if e in run[k - 1].heap {
      p := WasDelayed(run, i, k - 1, e);
    } else {
      p := k - 1;
    }
  }

  /** Whatever is in the heap once the delay loop has gone was delayed after shutdown had found the heap empty. */
  lemma StraysCameLate(c: Config, run: seq<State>, k: nat, t: nat, e: Job) returns (i: nat, p: nat)
    requires IsRun(c, run) && k < |run| && t in run[k].threads && run[k].threads[t].pc.LoopDone? && e in run[k].heap
    ensures i <= p < k && run[i].heap == multiset{} && run[i].stopping
    ensures run[p].stopping && e !in run[p].heap && e in run[p + 1].heap
  {
    hide *;
    i := GoneMeansDrained(c, run, k, t);
    p := WasDelayed(run, i, k, e);
    StoppingStays(c, run, i, p);
  }
}

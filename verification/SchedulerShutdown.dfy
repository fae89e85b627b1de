/** internal/core/scheduler.go: what a Shutdown of the scheduler that returns nil promises.

    Two calls return nil: one that waited until its goroutine had seen the wait group empty, and one that found
    another Shutdown begun, which waits for nothing. */
module SchedulerShutdown {
  import opened Jobs
  import opened SchedulerEntries

  function Last(run: seq<State>): State
    requires run != []
  {
    run[|run| - 1]
  }

  // ---- Runs that go on ----

  lemma Extend(run: seq<State>, a: Action) returns (longer: seq<State>)
    requires IsRun(run) && Enabled(Last(run), a)
    ensures IsRun(longer) && run < longer && |longer| == |run| + 1 && Last(longer) == Do(Last(run), a)
  {
    hide Do, Enabled, IsStart;
    longer := run + [Do(run[|run| - 1], a)];
    forall i | 0 <= i < |longer| - 1 ensures Linked(longer, i) {
      assert longer[i] == run[i];
      if i < |run| - 1 {
        assert Linked(run, i) && longer[i + 1] == run[i + 1];
      } else {
        assert Enabled(longer[i], a);
      }
    }
  }

  lemma LastStep(run: seq<State>, i: nat) returns (a: Action)
    requires IsRun(run) && 0 < i < |run|
    ensures Enabled(run[i - 1], a) && run[i] == Do(run[i - 1], a)
  {
    hide Do, Enabled, IsStart;
    assert Linked(run, i - 1);
    a :| Enabled(run[i - 1], a) && run[i] == Do(run[i - 1], a);
  }

  lemma AddDoes(s: State, u: nat, id: Id)
    requires CallerIs(s, u, Registered(id)) && id in s.all
    ensures Enabled(s, AddToGroup(u))
    ensures Do(s, AddToGroup(u)) ==
            Moves(Calls(s, u, Added(id)), id, s.all[id].(inGroup := true)).(wg := s.wg + 1)
  {
  }

  lemma StartDoes(s: State, u: nat, id: Id)
    requires CallerIs(s, u, Added(id)) && id in s.all
    ensures Enabled(s, Start(u))
    ensures Do(s, Start(u)) == Moves(Calls(s, u, Idle), id, s.all[id].(firer := Waiting))
  {
  }

  lemma RingDoes(s: State, id: Id)
    requires FirerIs(s, id, Waiting)
    ensures Enabled(s, Ring(id)) && Do(s, Ring(id)) == Moves(s, id, s.all[id].(firer := Firing))
  {
  }

  lemma FireDoes(s: State, id: Id)
    requires FirerIs(s, id, Firing)
    ensures Enabled(s, Fire(id, false))
    ensures Do(s, Fire(id, false)) ==
            Moves(s, id, s.all[id].(fired := s.all[id].fired + 1, firer := Removing))
  {
  }

  // ---- When an entry can still fire ----

  /** The run can go on until the entry has fired once more. */
  ghost predicate CanFire(run: seq<State>, id: Id)
    requires run != [] && id in Last(run).all
  {
    exists longer :: FiresIn(run, longer, id)
  }

  ghost predicate FiresIn(run: seq<State>, longer: seq<State>, id: Id)
    requires run != [] && id in Last(run).all
  {
    && run <= longer && IsRun(longer) && id in Last(longer).all
    && Last(longer).all[id].fired > Last(run).all[id].fired
  }

  lemma FiringFires(run: seq<State>, id: Id) returns (longer: seq<State>)
    requires IsRun(run) && FirerIs(Last(run), id, Firing)
    ensures run < longer && FiresIn(run, longer, id)
  {
    FireDoes(Last(run), id);
    hide IsRun, Do, Enabled;
    longer := Extend(run, Fire(id, false));
  }

  lemma WaitingFires(run: seq<State>, id: Id) returns (longer: seq<State>)
    requires IsRun(run) && FirerIs(Last(run), id, Waiting)
    ensures run < longer && FiresIn(run, longer, id)
  {
    RingDoes(Last(run), id);
    hide IsRun, Do, Enabled;
    longer := Extend(run, Ring(id));
    longer := FiringFires(longer, id);
  }

  lemma AddedFires(run: seq<State>, u: nat, id: Id) returns (longer: seq<State>)
    requires IsRun(run) && CallerIs(Last(run), u, Added(id)) && id in Last(run).all
    ensures run < longer && FiresIn(run, longer, id)
  {
    StartDoes(Last(run), u, id);
    hide IsRun, Do, Enabled;
    longer := Extend(run, Start(u));
    longer := WaitingFires(longer, id);
  }

  lemma RegisteredFires(run: seq<State>, u: nat, id: Id) returns (longer: seq<State>)
    requires IsRun(run) && CallerIs(Last(run), u, Registered(id)) && id in Last(run).all
    ensures run < longer && FiresIn(run, longer, id)
  {
    AddDoes(Last(run), u, id);
    hide IsRun, Do, Enabled;
    longer := Extend(run, AddToGroup(u));
    longer := AddedFires(longer, u, id);
  }

  /** Whatever has not done its last firing can still fire. */
  lemma GoesOnToFire(run: seq<State>, id: Id) returns (longer: seq<State>)
    requires IsRun(run) && id in Last(run).all && !Finished(Last(run), id)
    ensures run < longer && FiresIn(run, longer, id)
  {
    var s := Last(run);
    Always(run, |run| - 1);
    hide IsRun, CallersInv, EntriesInv, GroupInv, TableInv, ShutInv, FiresIn;
    if s.all[id].firer.Firing? {
      longer := FiringFires(run, id);
    } else if s.all[id].firer.Waiting? {
      longer := WaitingFires(run, id);
    } else if s.all[id].inGroup {
      var u :| CallerIs(s, u, Added(id));
      longer := AddedFires(run, u, id);
    } else {
      var u :| CallerIs(s, u, Registered(id));
      longer := RegisteredFires(run, u, id);
    }
  }

  /** At any moment: an entry can still fire if and only if its goroutine has not done its last firing. */
  lemma CanFireExactly(run: seq<State>, id: Id)
    requires IsRun(run) && id in Last(run).all
    ensures CanFire(run, id) <==> !Finished(Last(run), id)
  {
    if Finished(Last(run), id) {
      forall longer | run <= longer && IsRun(longer) ensures !FiresIn(run, longer, id) {
        FinishedStays(longer, |run| - 1, |longer| - 1, id);
      }
    } else {
      var longer := GoesOnToFire(run, id);
    }
  }

  // ---- Every return of nil ----

  /** A Shutdown of caller t can now return nil. */
  predicate ReturnsNil(s: State, t: nat) {
    Enabled(s, Joined(t)) || Enabled(s, ShutdownAgain(t))
  }

  function ReturnOf(s: State, t: nat): Action
    requires ReturnsNil(s, t)
  {
    if Enabled(s, Joined(t)) then Joined(t) else ShutdownAgain(t)
  }

  lemma ReturnLeaves(s: State, t: nat)
    requires ReturnsNil(s, t)
    ensures Enabled(s, ReturnOf(s, t)) && Do(s, ReturnOf(s, t)).all == s.all
  {
  }

  /** After the return of nil the run can go on until the entry has fired once more. */
  ghost predicate FiresAfterReturn(run: seq<State>, t: nat, id: Id)
    requires run != [] && ReturnsNil(Last(run), t) && id in Last(run).all
  {
    exists longer :: FiresIn(run, longer, id) && |run| < |longer|
                     && longer[|run|] == Do(Last(run), ReturnOf(Last(run), t))
  }

  /** Whichever call returns nil, an entry can fire after it if and only if its goroutine has then not done its last
      firing. */
  lemma FiresAfterReturnExactly(run: seq<State>, t: nat, id: Id)
    requires IsRun(run) && ReturnsNil(Last(run), t) && id in Last(run).all
    ensures FiresAfterReturn(run, t, id) <==> !Finished(Last(run), id)
  {
    CanFireExactly(run, id);
    if !Finished(Last(run), id) {
      var back := ReturnOf(Last(run), t);
      ReturnLeaves(Last(run), t);
      hide IsRun, ReturnsNil, ReturnOf, Do, Enabled;
      var after := Extend(run, back);
      var longer := GoesOnToFire(after, id);
      assert longer[|run|] == after[|run|];
    }
  }

  // ---- What an empty wait group promises ----

  /** When the wait group is seen empty every entry has ended, but for those that a caller has registered and not yet
      added to the wait group. */
  lemma EmptyMeansEnded(run: seq<State>, e: nat, id: Id)
    requires IsRun(run) && e < |run| && Enabled(run[e], SeesEmpty) && id in run[e].all
    ensures Finished(run[e], id) || NotYetAdded(run[e], id)
  {
    Always(run, e);
    hide IsRun, CallersInv, TableInv, ShutInv;
    var s := run[e];
    assert EntryOk(s, id);
    assert Working(s.all) == {};
    assert id !in Working(s.all);
  }

  lemma StoppedStep(s: State, a: Action)
    requires Inv(s) && Enabled(s, a) && s.table.stopped
    ensures Do(s, a).table.stopped && Do(s, a).all.Keys == s.all.Keys
    ensures forall id :: NotYetAdded(Do(s, a), id) ==> NotYetAdded(s, id)
  {
    hide Inv;
    var s' := Do(s, a);
    forall id | NotYetAdded(s', id) ensures NotYetAdded(s, id) {
      var u :| CallerIs(s', u, Registered(id));
      assert CallerIs(s, u, Registered(id));
    }
  }

  /** Once Shutdown has stopped the scheduler no entry is registered any more. */
  lemma {:induction false} StoppedStays(run: seq<State>, i: nat, k: nat)
    requires IsRun(run) && i <= k < |run| && run[i].table.stopped
    ensures run[k].table.stopped && run[k].all.Keys == run[i].all.Keys
    ensures forall id :: NotYetAdded(run[k], id) ==> NotYetAdded(run[i], id)
  {
    hide *;
    if i < k {
      StoppedStays(run, i, k - 1);
      Always(run, k - 1);
      var a := LastStep(run, k);
      StoppedStep(run[k - 1], a);
    }
  }

  lemma SeenStep(s: State, a: Action)
    requires Enabled(s, a) && Do(s, a).waiter.SawEmpty? && !s.waiter.SawEmpty?
    ensures a.SeesEmpty?
  {
  }

  /** The Shutdown that waited returns nil only after the wait group has been seen empty. */
  lemma {:induction false} SeenBefore(run: seq<State>, i: nat) returns (e: nat)
    requires IsRun(run) && i < |run| && run[i].waiter.SawEmpty?
    ensures e < i && Enabled(run[e], SeesEmpty) && run[e + 1] == Do(run[e], SeesEmpty)
  {
    if i > 0 {
      hide IsRun, Do, Enabled;
      var a := LastStep(run, i);
      if run[i - 1].waiter.SawEmpty? {
        e := SeenBefore(run, i - 1);
      } else {
        SeenStep(run[i - 1], a);
        e := i - 1;
      }
    }
  }

  lemma SeenWhenStopped(run: seq<State>, e: nat)
    requires IsRun(run) && e < |run| && Enabled(run[e], SeesEmpty)
    ensures run[e].table.stopped
  {
    Always(run, e);
  }

  /** A Shutdown that waited returns nil only after the group was seen empty, at a moment e: from then on no entry
      fires, but for those whose registration was then between the table and the wait group. */
  lemma JoinedMeansEnded(run: seq<State>, i: nat, k: nat, t: nat) returns (e: nat)
    requires IsRun(run) && i <= k < |run| && Enabled(run[i], Joined(t))
    ensures e < i && Enabled(run[e], SeesEmpty) && run[k].all.Keys == run[e].all.Keys
    ensures forall id :: id in run[k].all && !NotYetAdded(run[e], id) ==>
              Finished(run[k], id) && run[k].all[id].fired == run[e].all[id].fired
  {
    e := SeenBefore(run, i);
    SeenWhenStopped(run, e);
    StoppedStays(run, e, k);
    hide IsRun, Do, Enabled;
    forall id | id in run[k].all && !NotYetAdded(run[e], id)
      ensures Finished(run[k], id) && run[k].all[id].fired == run[e].all[id].fired
    {
      EmptyMeansEnded(run, e, id);
      FinishedStays(run, e, k, id);
    }
  }

  // ---- The first Shutdown, exactly ----

  /** A run in which the call of t that takes the table at the end of `run` returns nil at k, and the entry fires
      between k and m. */
  ghost predicate Breaks(run: seq<State>, t: nat, longer: seq<State>, k: nat, m: nat, id: Id)
    requires run != [] && Enabled(Last(run), TakeAll(t))
  {
    && IsRun(longer) && run < longer && longer[|run|] == Do(Last(run), TakeAll(t))
    && |run| <= k < m < |longer| && Enabled(longer[k], Joined(t)) && longer[k + 1] == Do(longer[k], Joined(t))
    && id in longer[k].all && id in longer[m].all
    && longer[m].all[id].fired > longer[k].all[id].fired
  }

  /** Whenever the call returns nil, no entry fires after it. */
  ghost predicate CallKeeps(run: seq<State>, t: nat)
    requires run != [] && Enabled(Last(run), TakeAll(t))
  {
    forall longer, k, m, id :: !Breaks(run, t, longer, k, m, id)
  }

  lemma TakenStops(s: State, t: nat)
    requires Enabled(s, TakeAll(t))
    ensures Do(s, TakeAll(t)).table.stopped
    ensures forall id :: NotYetAdded(Do(s, TakeAll(t)), id) ==> NotYetAdded(s, id)
  {
    var s' := Do(s, TakeAll(t));
    forall id | NotYetAdded(s', id) ensures NotYetAdded(s, id) {
      var u :| CallerIs(s', u, Registered(id));
      assert CallerIs(s, u, Registered(id));
    }
  }

  lemma NoneUnderWay(run: seq<State>, t: nat, longer: seq<State>, k: nat, m: nat, id: Id)
    requires IsRun(run) && Enabled(Last(run), TakeAll(t)) && forall x :: !NotYetAdded(Last(run), x)
    ensures !Breaks(run, t, longer, k, m, id)
  {
    if Breaks(run, t, longer, k, m, id) {
      TakenStops(Last(run), t);
      var e := JoinedMeansEnded(longer, k, m, t);
      NotSeenBefore(run, t, longer, e);
      StoppedStays(longer, |run|, e);
      hide IsRun, Enabled, Do;
      assert !NotYetAdded(longer[e], id);
      EmptyMeansEnded(longer, e, id);
      FinishedStays(longer, e, k, id);
      FinishedStays(longer, k, m, id);
    }
  }

  /** The group is seen empty only after the table has been taken. */
  lemma NotSeenBefore(run: seq<State>, t: nat, longer: seq<State>, e: nat)
    requires IsRun(run) && Enabled(Last(run), TakeAll(t)) && IsRun(longer) && run < longer && e < |longer|
    requires Enabled(longer[e], SeesEmpty)
    ensures |run| <= e
  {
    SeenWhenStopped(longer, e);
    if e < |run| {
      assert longer[e] == run[e] && Last(run) == longer[|run| - 1];
      StoppedStays(longer, e, |run| - 1);
    }
  }

  // ---- A registration under way when the table is taken ----

  /** Caller u has registered the entry and is held up, while caller t shuts down. */
  ghost predicate HeldUp(run: seq<State>, u: nat, t: nat, pc: Caller, id: Id) {
    && IsRun(run) && CallerIs(Last(run), u, Registered(id)) && CallerIs(Last(run), t, pc) && id in Last(run).all
  }

  lemma TakeDoes(s: State, t: nat)
    requires Enabled(s, TakeAll(t))
    ensures Do(s, TakeAll(t)) == Calls(s, t, ClosingAll(s.table.ids)).(table := Table({}, true))
  {
  }

  lemma CloseDoes(s: State, t: nat, ids: set<Id>, x: Id)
    requires CallerIs(s, t, ClosingAll(ids)) && x in ids && x in s.all
    ensures Enabled(s, CloseNext(t, x))
    ensures Do(s, CloseNext(t, x)) == Moves(Calls(s, t, ClosingAll(ids - {x})), x, Closed(s.all[x]))
  {
  }

  lemma AllClosedDoes(s: State, t: nat)
    requires CallerIs(s, t, ClosingAll({}))
    ensures Enabled(s, AllClosed(t)) && Do(s, AllClosed(t)) == Calls(s, t, AwaitAll).(waiter := WaitsForGroup)
  {
  }

  /** The shutting caller closes all the channels, and its goroutine starts to wait. */
  lemma {:induction false} ClosesAll(run: seq<State>, u: nat, t: nat, ids: set<Id>, id: Id) returns (longer: seq<State>)
    requires HeldUp(run, u, t, ClosingAll(ids), id)
    ensures HeldUp(longer, u, t, AwaitAll, id) && run < longer && Last(longer).waiter.WaitsForGroup?
    decreases |ids|
  {
    var s := Last(run);
    if ids == {} {
      AllClosedDoes(s, t);
      hide IsRun, Do, Enabled;
      longer := Extend(run, AllClosed(t));
    } else {
      var x :| x in ids;
      Always(run, |run| - 1);
      assert ReliesOn(s, s.callers[t], x);
      CloseDoes(s, t, ids, x);
      hide IsRun, Do, Enabled, Inv;
      longer := Extend(run, CloseNext(t, x));
      longer := ClosesAll(longer, u, t, ids - {x}, id);
    }
  }

  function Rank(f: Firer): nat {
    match f
    case NotStarted => 6
    case Waiting => 5
    case Firing => 4
    case Removing => 3
    case ClosingDone => 2
    case Leaving => 1
    case Exited => 0
  }

  /** The group is waited for, and has these members. */
  ghost predicate Waited(run: seq<State>, u: nat, t: nat, id: Id, members: set<Id>) {
    HeldUp(run, u, t, AwaitAll, id) && Last(run).waiter.WaitsForGroup? && Working(Last(run).all) == members
  }

  lemma OutDoes(s: State, x: Id)
    requires x in s.all
    ensures s.all[x].firer.Waiting? ==>
              Enabled(s, NoNext(x)) && Do(s, NoNext(x)) == Moves(s, x, s.all[x].(firer := Removing))
    ensures s.all[x].firer.Removing? ==>
              Enabled(s, Remove(x)) &&
              Do(s, Remove(x)) == Moves(s, x, s.all[x].(firer := ClosingDone)).(table := TakenOut(s.table, x))
    ensures s.all[x].firer.ClosingDone? ==>
              Enabled(s, CloseDone(x)) &&
              Do(s, CloseDone(x)) == Moves(s, x, s.all[x].(firer := Leaving, doneClosed := true))
    ensures s.all[x].firer.Leaving? ==>
              Enabled(s, Leave(x)) &&
              Do(s, Leave(x)) == Moves(s, x, s.all[x].(firer := Exited, inGroup := false)).(wg := s.wg - 1)
  {
  }

  /** A step of a member's goroutine that leaves it in the group, or out of it. */
  lemma MemberMoves(s: State, s': State, u: nat, t: nat, id: Id, x: Id, e: Entry)
    requires CallerIs(s, u, Registered(id)) && CallerIs(s, t, AwaitAll) && id in s.all && x in s.all
    requires s'.callers == s.callers && s'.waiter == s.waiter && s'.all == s.all[x := e]
    ensures CallerIs(s', u, Registered(id)) && CallerIs(s', t, AwaitAll) && id in s'.all && s'.waiter == s.waiter
    ensures Working(s'.all) == (Working(s.all) - {x}) + if e.inGroup then {x} else {}
  {
    WorkingMoves(s.all, x, e);
  }

  lemma ApartFrom(run: seq<State>, u: nat, t: nat, id: Id, members: set<Id>, x: Id)
    requires Waited(run, u, t, id, members) && x in members
    ensures x != id && x in Last(run).all && Last(run).all[x].inGroup && !Last(run).all[x].firer.Exited?
    ensures Last(run).all[x].firer.NotStarted? ==> NotYetStarted(Last(run), x)
  {
    var s := Last(run);
    Always(run, |run| - 1);
    hide IsRun, GroupInv, TableInv, ShutInv;
    assert x in Working(s.all);
    assert EntryOk(s, x) && ReliesOn(s, s.callers[u], id);
  }

  lemma MemberStarts(run: seq<State>, u: nat, t: nat, id: Id, members: set<Id>, x: Id) returns (longer: seq<State>)
    requires Waited(run, u, t, id, members) && x in members && Last(run).all[x].firer.NotStarted?
    ensures run < longer && Waited(longer, u, t, id, members) && FirerIs(Last(longer), x, Waiting)
  {
    var s := Last(run);
    ApartFrom(run, u, t, id, members, x);
    var v :| CallerIs(s, v, Added(x));
    StartDoes(s, v, x);
    WorkingMoves(s.all, x, s.all[x].(firer := Waiting));
    hide IsRun, Do, Enabled;
    longer := Extend(run, Start(v));
    assert members - {x} + {x} == members;
  }

  lemma MemberSteps(run: seq<State>, u: nat, t: nat, id: Id, members: set<Id>, x: Id, a: Action, e: Entry)
    returns (longer: seq<State>)
    requires Waited(run, u, t, id, members) && x in members && x != id && Enabled(Last(run), a)
    requires var s, s' := Last(run), Do(Last(run), a);
             x in s.all && s'.callers == s.callers && s'.waiter == s.waiter && s'.all == s.all[x := e]
    ensures run < longer && Last(longer) == Do(Last(run), a)
    ensures Waited(longer, u, t, id, if e.inGroup then members else members - {x})
  {
    MemberMoves(Last(run), Do(Last(run), a), u, t, id, x, e);
    hide IsRun, Do, Enabled, Working;
    longer := Extend(run, a);
    assert members - {x} + {x} == members && members - {x} + {} == members - {x};
  }

  /** A member whose goroutine runs takes its next step towards the end. */
  lemma MemberAdvances(run: seq<State>, u: nat, t: nat, id: Id, members: set<Id>, x: Id) returns (longer: seq<State>)
    requires Waited(run, u, t, id, members) && x in members && x in Last(run).all
    requires !Last(run).all[x].firer.NotStarted? && !Last(run).all[x].firer.Leaving?
    ensures run < longer && Waited(longer, u, t, id, members) && x in Last(longer).all
    ensures Rank(Last(longer).all[x].firer) < Rank(Last(run).all[x].firer)
  {
    var s := Last(run);
    ApartFrom(run, u, t, id, members, x);
    OutDoes(s, x);
    hide Waited, Do, Enabled;
    var e := s.all[x];
    match e.firer
    case Waiting => longer := MemberSteps(run, u, t, id, members, x, NoNext(x), e.(firer := Removing));
    case Firing =>
      FireDoes(s, x);
      longer := MemberSteps(run, u, t, id, members, x, Fire(x, false), e.(fired := e.fired + 1, firer := Removing));
    case Removing => longer := MemberSteps(run, u, t, id, members, x, Remove(x), e.(firer := ClosingDone));
    case ClosingDone =>
      longer := MemberSteps(run, u, t, id, members, x, CloseDone(x), e.(firer := Leaving, doneClosed := true));
  }

  /** A member of the group goes to its end, and the others stay where they are. */
  lemma {:induction false} LeavesGroup(run: seq<State>, u: nat, t: nat, id: Id, members: set<Id>, x: Id)
    returns (longer: seq<State>)
    requires Waited(run, u, t, id, members) && x in members
    ensures run < longer && Waited(longer, u, t, id, members - {x})
    decreases if x in Last(run).all then Rank(Last(run).all[x].firer) else 0
  {
    var s := Last(run);
    ApartFrom(run, u, t, id, members, x);
    hide Waited, Do, Enabled;
    if s.all[x].firer.Leaving? {
      OutDoes(s, x);
      longer := MemberSteps(run, u, t, id, members, x, Leave(x), s.all[x].(firer := Exited, inGroup := false));
    } else {
      if s.all[x].firer.NotStarted? {
        longer := MemberStarts(run, u, t, id, members, x);
      } else {
        longer := MemberAdvances(run, u, t, id, members, x);
      }
      longer := LeavesGroup(longer, u, t, id, members, x);
    }
  }

  lemma {:induction false} GroupEmpties(run: seq<State>, u: nat, t: nat, id: Id, members: set<Id>)
    returns (longer: seq<State>)
    requires Waited(run, u, t, id, members)
    ensures run <= longer && Waited(longer, u, t, id, {})
    decreases |members|
  {
    hide Waited;
    longer := run;
    if members != {} {
      var x :| x in members;
      longer := LeavesGroup(run, u, t, id, members, x);
      longer := GroupEmpties(longer, u, t, id, members - {x});
    }
  }

  lemma EmptyIsSeen(run: seq<State>, u: nat, t: nat, id: Id) returns (longer: seq<State>)
    requires Waited(run, u, t, id, {})
    ensures run < longer && HeldUp(longer, u, t, AwaitAll, id) && Last(longer).waiter.SawEmpty?
  {
    Always(run, |run| - 1);
    assert Enabled(Last(run), SeesEmpty);
    hide IsRun, Inv;
    longer := Extend(run, SeesEmpty);
  }

  /** Once the group has been seen empty, the entry can join it before Shutdown returns nil: at that return it is in the
      group, and waits to fire. */
  lemma JoinsBeforeReturn(run: seq<State>, u: nat, t: nat, id: Id) returns (longer: seq<State>)
    requires HeldUp(run, u, t, AwaitAll, id) && Last(run).waiter.SawEmpty?
    ensures run < longer && IsRun(longer) && Enabled(Last(longer), Joined(t)) && !NotYetAdded(Last(longer), id)
    ensures FirerIs(Last(longer), id, Waiting) && Last(longer).all[id].inGroup
  {
    AddDoes(Last(run), u, id);
    hide IsRun, Do;
    longer := Extend(run, AddToGroup(u));
    StartDoes(Last(longer), u, id);
    longer := Extend(longer, Start(u));
    InGroupIsAdded(longer, id);
  }

  lemma InGroupIsAdded(run: seq<State>, id: Id)
    requires IsRun(run) && id in Last(run).all && Last(run).all[id].inGroup
    ensures !NotYetAdded(Last(run), id)
  {
    Always(run, |run| - 1);
    hide IsRun, EntriesInv, PendingInv, GroupInv, TableInv, ShutInv;
    var s := Last(run);
    forall v | v in s.callers ensures s.callers[v] != Registered(id) {
      assert ReliesOn(s, s.callers[v], id);
    }
  }

  lemma JoinedDoes(s: State, t: nat)
    requires Enabled(s, Joined(t))
    ensures Do(s, Joined(t)) == Calls(s, t, Idle)
  {
  }

  /** Shutdown takes the table, and comes to see the group empty while the registration is still under way. */
  lemma UnderWaySeen(run: seq<State>, u: nat, t: nat, id: Id) returns (longer: seq<State>)
    requires IsRun(run) && Enabled(Last(run), TakeAll(t)) && CallerIs(Last(run), u, Registered(id))
    ensures run < longer && longer[|run|] == Do(Last(run), TakeAll(t))
    ensures HeldUp(longer, u, t, AwaitAll, id) && Last(longer).waiter.SawEmpty?
  {
    var s := Last(run);
    Always(run, |run| - 1);
    assert ReliesOn(s, s.callers[u], id);
    TakeDoes(s, t);
    hide Inv, ReliesOn, IsRun, Do, Enabled;
    var taken := Extend(run, TakeAll(t));
    var closed := ClosesAll(taken, u, t, s.table.ids, id);
    hide HeldUp;
    longer := GroupEmpties(closed, u, t, id, Working(Last(closed).all));
    longer := EmptyIsSeen(longer, u, t, id);
    assert longer[|run|] == taken[|run|];
  }

  /** A registration under way when the table is taken can be missed by that Shutdown. */
  lemma UnderWayBreaks(run: seq<State>, t: nat, id: Id) returns (longer: seq<State>, k: nat, m: nat)
    requires IsRun(run) && Enabled(Last(run), TakeAll(t)) && NotYetAdded(Last(run), id)
    ensures Breaks(run, t, longer, k, m, id)
  {
    var u :| CallerIs(Last(run), u, Registered(id));
    hide IsRun, Do, Enabled;
    var seen := UnderWaySeen(run, u, t, id);
    hide HeldUp;
    var waits := JoinsBeforeReturn(seen, u, t, id);
    k := |waits| - 1;
    JoinedDoes(Last(waits), t);
    longer := Extend(waits, Joined(t));
    longer := WaitingFires(longer, id);
    m := |longer| - 1;
    assert longer[|run|] == seen[|run|] && longer[k] == Last(waits);
  }

  /** No entry fires after the nil return of the first Shutdown, in any run that goes on from there, if and only if no
      registration is between the table and the wait group when that Shutdown takes the table. */
  lemma FirstShutdownExactly(run: seq<State>, t: nat)
    requires IsRun(run) && Enabled(Last(run), TakeAll(t))
    ensures CallKeeps(run, t) <==> forall id :: !NotYetAdded(Last(run), id)
  {
    hide Breaks, Do;
    if id :| NotYetAdded(Last(run), id) {
      var longer, k, m := UnderWayBreaks(run, t, id);
    } else {
      forall longer, k: nat, m: nat, id ensures !Breaks(run, t, longer, k, m, id) {
        NoneUnderWay(run, t, longer, k, m, id);
      }
    }
  }

  // ---- Runs with such returns ----

  function Opening(first: Caller, second: Caller): State {
    State(Table({}, false), map[], 0, map[1 := first, 2 := second], {}, NoWaiter)
  }

  /** The entry, and what the two callers do. */
  function Scene(id: Id, e: Entry, table: Table, wg: int, first: Caller, second: Caller): State {
    State(table, map[id := e], wg, map[1 := first, 2 := second], {}, NoWaiter)
  }

  function Fresh(inGroup: bool, firer: Firer): Entry {
    Entry(true, inGroup, false, firer, 0, 0)
  }

  lemma Opens() returns (run: seq<State>)
    ensures IsRun(run) && Last(run) == Opening(Idle, Idle)
  {
    run := [Opening(Idle, Idle)];
  }

  lemma RegisterDoes(id: Id)
    ensures var s := Opening(Idle, Idle);
            Enabled(s, Register(1, id, true)) &&
            Do(s, Register(1, id, true)) ==
            Scene(id, Fresh(false, NotStarted), Table({id}, false), 0, Registered(id), Idle)
  {
  }

  /** The first Shutdown finds a registration under way: FirstShutdownExactly has both sides. */
  lemma UnderWayReached(id: Id) returns (run: seq<State>)
    ensures IsRun(run) && Enabled(Last(run), TakeAll(2)) && NotYetAdded(Last(run), id)
  {
    run := Opens();
    RegisterDoes(id);
    hide IsRun, Do;
    run := Extend(run, Register(1, id, true));
    assert CallerIs(Last(run), 1, Registered(id));
  }

  lemma ThenAdded(id: Id)
    ensures var s := Scene(id, Fresh(false, NotStarted), Table({id}, false), 0, Registered(id), Idle);
            Enabled(s, AddToGroup(1)) &&
            Do(s, AddToGroup(1)) == Scene(id, Fresh(true, NotStarted), Table({id}, false), 1, Added(id), Idle)
  {
  }

  lemma ThenStarted(id: Id)
    ensures var s := Scene(id, Fresh(true, NotStarted), Table({id}, false), 1, Added(id), Idle);
            Enabled(s, Start(1)) &&
            Do(s, Start(1)) == Scene(id, Fresh(true, Waiting), Table({id}, false), 1, Idle, Idle)
  {
  }

  lemma ThenTaken(id: Id)
    ensures var s := Scene(id, Fresh(true, Waiting), Table({id}, false), 1, Idle, Idle);
            Enabled(s, TakeAll(2)) &&
            Do(s, TakeAll(2)) == Scene(id, Fresh(true, Waiting), Table({}, true), 1, Idle, ClosingAll({id}))
  {
  }

  /** A repeated Shutdown returns nil while the first is still closing channels, and the entry, which is in the wait
      group, goes on to fire. */
  lemma AgainReturnsEarly(id: Id) returns (run: seq<State>)
    ensures IsRun(run) && Enabled(Last(run), ShutdownAgain(1)) && !NotYetAdded(Last(run), id)
    ensures id in Last(run).all && Last(run).all[id].inGroup && FiresAfterReturn(run, 1, id)
  {
    run := Opens();
    RegisterDoes(id);
    ThenAdded(id);
    ThenStarted(id);
    ThenTaken(id);
    hide IsRun, Do, FiresAfterReturn;
    run := Extend(run, Register(1, id, true));
    run := Extend(run, AddToGroup(1));
    run := Extend(run, Start(1));
    run := Extend(run, TakeAll(2));
    InGroupIsAdded(run, id);
    FiresAfterReturnExactly(run, 1, id);
  }
}

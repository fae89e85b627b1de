/** When a job that has ended leaves no record behind.

    A cancellation deletes the record after setting the tombstone, and a worker or the delay loop that meets the
    tombstone deletes nothing.  So a job that is tombstoned before it is saved keeps the record that its
    submission saves afterwards. */
module MachineRecords {
  import opened Wrappers
  import opened Jobs
  import opened ReadyQueues
  import opened Machine
  import opened MachineTokens
  import opened MachineEffects
  import opened MachineSteps
  import opened MachineNames
  import opened MachineInvariants
  import opened MachineTheorems

  ghost predicate DeleteDue(s: State, id: Id) {
    exists t :: t in s.threads && DeleteRecord(id) in s.threads[t].todo
  }

  ghost predicate RetryingSomewhere(s: State, id: Id) {
    exists t :: IsRetrying(s, t, id)
  }

  /** The job has not been saved yet. */
  predicate Unsaved(s: State, id: Id) {
    id in s.where ==> s.where[id].role.Fresh? || s.where[id].role.Admitted?
  }

  /** A recorded job has been saved; once it has ended its deletion is under way, and once it is tombstoned its
      deletion is under way or certain to follow. */
  ghost predicate RecordOk(s: State, id: Id) {
    && (id in s.store ==> !Unsaved(s, id))
    && (id in s.cancelled ==> !Unsaved(s, id))
    && (id in s.store && Ends(s.where[id].role) ==> DeleteDue(s, id))
    && (id in s.store && id in s.cancelled ==>
          DeleteDue(s, id) || s.where[id].role.Ran? || RetryingSomewhere(s, id))
  }

  /** A tombstone set by the step finds the job saved. */
  predicate TombsSaved(s: State, s': State, id: Id) {
    id in s'.cancelled && id !in s.cancelled ==> !Unsaved(s, id)
  }

  // ---- Every step keeps records tidy, unless it tombstones an unsaved job ----

  lemma SavedStays(c: Config, s: State, s': State, t: nat, mv: Move, id: Id)
    requires KeysInv(s) && MoveOk(c, s, s', t, mv) && !Unsaved(s, id)
    ensures !Unsaved(s', id)
  {
    hide Activates, RetryOf;
  }

  lemma RetryingHand(s: State, t: nat, id: Id)
    requires TokenInv(s) && IsRetrying(s, t, id)
    ensures id in s.where && s.where[id].role.AtWorker? && s.where[id].t == t
  {
    hide HeapExact, ReadyExact, RecordsHeld;
    HandRecorded(s.threads, s.where, t);
  }

  lemma WrittenIsSaved(c: Config, s: State, s': State, t: nat, d: Delta, id: Id)
    requires TokenInv(s') && MoveOk(c, s, s', t, d.mv) && StoreOk(c, s, s', t, d) && c.reliable
    requires id in s'.store && id !in s.store
    ensures !Unsaved(s', id) && !Ends(s'.where[id].role)
    ensures IsRetrying(s', t, id) || (d.mv.Shift? && d.mv.id == id && d.mv.to.role.Saved?)
  {
    hide Activates, RetryOf, TokenInv;
    if IsRetrying(s', t, id) {
      RetryingHand(s', t, id);
    }
  }

  /** A deletion that is due stays due while the record is there. */
  lemma DeleteStaysDue(c: Config, s: State, s': State, t: nat, mv: Move, id: Id)
    requires OweOk(c, s, s', t, mv) && s'.threads == s.threads[t := s'.threads[t]] && c.reliable && c.hasStore
    requires DeleteDue(s, id) && id in s'.store
    ensures DeleteDue(s', id)
  {
    hide TakesOn;
    var u :| u in s.threads && DeleteRecord(id) in s.threads[u].todo;
    assert u in s'.threads;
    if u == t {
      var todo := s.threads[t].todo;
      assert todo == [todo[0]] + todo[1..];
      assert DeleteRecord(id) in todo[1..];
      assert forall ch :: ch in todo[1..] ==> ch in s'.threads[t].todo;
    } else {
      assert s'.threads[u] == s.threads[u];
    }
  }

  lemma ClearsErases(s: State, t: nat, j: Job)
    requires t in s.threads && ClearsRecord(s.threads[t].todo, j)
    ensures DeleteDue(s, j.id)
  {
    var todo := s.threads[t].todo;
    assert Cleanup(j)[2] == DeleteRecord(j.id) && Undo(j)[0] == DeleteRecord(j.id);
    assert ([SignalLoop] + Cleanup(j))[3] == DeleteRecord(j.id);
    assert DeleteRecord(j.id) in todo;
  }

  /** A move that ends a saved job, or puts its retry back, takes on the deletion. */
  lemma MoveErases(c: Config, s: State, s': State, t: nat, mv: Move)
    requires TokenInv(s') && MoveOk(c, s, s', t, mv) && OweOk(c, s, s', t, mv)
    requires mv.Shift? && MustErase(s.where[mv.id].role, mv.to.role)
    ensures DeleteDue(s', mv.id)
  {
    RecordedIds(s', mv.id);
    hide TokenInv, Activates, RetryOf, MustErase, ClearsRecord, Clears, Unnamed, TombDue, Victim, InReplace, Retrying;
    ClearsErases(s', t, mv.to.job);
  }

  lemma NewTombErases(c: Config, s: State, s': State, t: nat, mv: Move, id: Id)
    requires OweOk(c, s, s', t, mv) && id in s'.cancelled && id !in s.cancelled
    ensures DeleteDue(s', id)
  {
    hide Clears, ClearsRecord, Unnamed, TombDue, Victim, InReplace, Retrying;
    assert TombChores(id)[1] == DeleteRecord(id);
    assert DeleteRecord(id) in s'.threads[t].todo;
  }

  /** A retry that is on its way back stays so, or takes on the deletion. */
  lemma RetryingOn(c: Config, s: State, s': State, t: nat, mv: Move, id: Id)
    requires TokenInv(s) && TokenInv(s') && MoveOk(c, s, s', t, mv) && OweOk(c, s, s', t, mv)
    requires s'.threads == s.threads[t := s'.threads[t]] && RetryingSomewhere(s, id)
    ensures RetryingSomewhere(s', id) || DeleteDue(s', id)
  {
    var u :| IsRetrying(s, u, id);
    RetryingHand(s, u, id);
    if u != t {
      assert IsRetrying(s', u, id);
    } else if !IsRetrying(s', t, id) {
      RetryMoves(c, s, s', t, mv, id);
      MoveErases(c, s, s', t, mv);
    }
    hide TokenInv, OweOk, MoveOk, DeleteDue;
  }

  lemma RetryMoves(c: Config, s: State, s': State, t: nat, mv: Move, id: Id)
    requires OweOk(c, s, s', t, mv) && IsRetrying(s, t, id) && !IsRetrying(s', t, id)
    ensures mv.Shift? && mv.id == id && mv.to.role.InHeap?
  {
    hide Clears, ClearsRecord, Unnamed, TombDue, Victim, InReplace;
  }

  /** A tombstoned job with a record has its deletion coming, through the step. */
  lemma TombstonedKept(c: Config, s: State, s': State, t: nat, d: Delta, id: Id)
    requires c.hasStore && c.reliable && KeysInv(s) && TokenInv(s) && TokenInv(s') && RecordOk(s, id)
    requires MoveOk(c, s, s', t, d.mv) && EndOk(c, s, s', t, d.mv) && StoreOk(c, s, s', t, d)
    requires OweOk(c, s, s', t, d.mv) && s'.threads == s.threads[t := s'.threads[t]]
    requires id in s'.store && id in s'.cancelled
    ensures id in s'.where && (DeleteDue(s', id) || s'.where[id].role.Ran? || RetryingSomewhere(s', id))
  {
    hide TokenInv, TakesOn, DoesFirst, Activates, RetryOf;
    assert IsRetrying(s', t, id) ==> RetryingSomewhere(s', id);
    if id !in s.cancelled {
      NewTombErases(c, s, s', t, d.mv, id);
    } else if id !in s.store {
      WrittenIsSaved(c, s, s', t, d, id);
    } else if DeleteDue(s, id) {
      DeleteStaysDue(c, s, s', t, d.mv, id);
    } else if RetryingSomewhere(s, id) {
      RetryingOn(c, s, s', t, d.mv, id);
    } else if d.mv.Shift? && d.mv.id == id && MustErase(s.where[id].role, d.mv.to.role) {
      MoveErases(c, s, s', t, d.mv);
    }
  }

  /** An ended job with a record has its deletion coming, through the step. */
  lemma EndedKept(c: Config, s: State, s': State, t: nat, d: Delta, id: Id)
    requires c.hasStore && c.reliable && KeysInv(s) && TokenInv(s) && TokenInv(s') && RecordOk(s, id)
    requires MoveOk(c, s, s', t, d.mv) && EndOk(c, s, s', t, d.mv) && StoreOk(c, s, s', t, d)
    requires OweOk(c, s, s', t, d.mv) && s'.threads == s.threads[t := s'.threads[t]]
    requires id in s'.store && id in s'.where && Ends(s'.where[id].role)
    ensures DeleteDue(s', id)
  {
    hide TokenInv, KeysInv, TakesOn, DoesFirst, Activates, RetryOf;
    if id !in s.store {
      WrittenIsSaved(c, s, s', t, d, id);
    } else if d.mv.Shift? && d.mv.id == id && MustErase(s.where[id].role, d.mv.to.role) {
      MoveErases(c, s, s', t, d.mv);
    } else {
      if d.mv.Shift? && d.mv.id == id {
        DiscardCovered(c, s, s', t, d, id);
      }
      DeleteStaysDue(c, s, s', t, d.mv, id);
    }
  }

  /** A worker or the delay loop discards a recorded job only while its deletion is under way. */
  lemma DiscardCovered(c: Config, s: State, s': State, t: nat, d: Delta, id: Id)
    requires TokenInv(s) && RecordOk(s, id) && MoveOk(c, s, s', t, d.mv) && EndOk(c, s, s', t, d.mv)
    requires OweOk(c, s, s', t, d.mv) && id in s.store
    requires d.mv.Shift? && d.mv.id == id && Ends(d.mv.to.role) && !MustErase(s.where[id].role, d.mv.to.role)
    ensures DeleteDue(s, id)
  {
    hide TokenInv, Activates, RetryOf, Unnamed, TombDue, Victim, InReplace, DeleteDue;
    if id !in s.cancelled {
      NotBoth(s'.threads[t].todo, d.mv.to.job, id);
    } else if !DeleteDue(s, id) {
      var u :| IsRetrying(s, u, id);
      RetryingHand(s, u, id);
    }
  }

  lemma NotBoth(todo: seq<Chore>, j: Job, id: Id)
    ensures !(Clears(todo, j) && todo == TombChores(id))
  {
    assert Release(j)[0].ReleaseName? && Cleanup(j)[0].ReleaseName? && Undo(j)[0].DeleteRecord?;
  }

  lemma RecordKept(c: Config, s: State, s': State, t: nat, d: Delta, id: Id)
    requires c.hasStore && c.reliable && KeysInv(s) && TokenInv(s) && TokenInv(s') && RecordOk(s, id)
    requires MoveOk(c, s, s', t, d.mv) && EndOk(c, s, s', t, d.mv) && StoreOk(c, s, s', t, d)
    requires OweOk(c, s, s', t, d.mv) && s'.threads == s.threads[t := s'.threads[t]]
    requires TombsSaved(s, s', id)
    ensures RecordOk(s', id)
  {
    hide TokenInv, KeysInv, MoveOk, EndOk, StoreOk, OweOk, DeleteDue, RetryingSomewhere, Ends;
    if !Unsaved(s, id) {
      SavedStays(c, s, s', t, d.mv, id);
    }
    if id in s'.store && id !in s.store {
      WrittenIsSaved(c, s, s', t, d, id);
    }
    if id in s'.store && Ends(s'.where[id].role) {
      EndedKept(c, s, s', t, d, id);
    }
    if id in s'.store && id in s'.cancelled {
      TombstonedKept(c, s, s', t, d, id);
    }
  }

  // ---- Over runs ----

  /** No step before state i tombstones the job before it is saved. */
  ghost predicate SavedBeforeTombs(run: seq<State>, i: nat, id: Id)
    requires i < |run|
  {
    forall k :: 0 <= k < i ==> TombsSaved(run[k], run[k + 1], id)
  }

  lemma RecordTick(s: State, time: int, id: Id)
    requires RecordOk(s, id)
    ensures RecordOk(s.(now := time), id)
  {
    var s' := s.(now := time);
    assert DeleteDue(s, id) == DeleteDue(s', id);
    assert forall t :: IsRetrying(s, t, id) == IsRetrying(s', t, id);
    assert RetryingSomewhere(s, id) == RetryingSomewhere(s', id);
  }

  lemma RecordStep(c: Config, s: State, a: Action, id: Id)
    requires Inv(c, s) && Enabled(c, s, a) && c.hasStore && c.reliable && RecordOk(s, id)
    requires TombsSaved(s, Do(c, s, a), id)
    ensures RecordOk(Do(c, s, a), id)
  {
    if a.Tick? {
      RecordTick(s, a.time, id);
      return;
    }
    hide TokenInv, Do, Enabled, KeysInv, PcInv, ChoreInv, MoveOk, EndOk, StoreOk, FlightOk, PcOk, WakeOk, DueOk, OweOk,
      Owed, StoryInv, RoomInv, EndInv, StoreInv, FlightInv, WakeInv, DueInv, NameInv, RecordOk, TombsSaved;
    CoreKept(c, s, a);
    var d := StepEffect(c, s, a);
    RecordKept(c, s, Do(c, s, a), ThreadOf(a), d, id);
  }

  lemma {:induction false} RecordsOk(c: Config, run: seq<State>, i: nat, id: Id)
    requires IsRun(c, run) && i < |run| && c.hasStore && c.reliable && SavedBeforeTombs(run, i, id)
    ensures RecordOk(run[i], id)
  {
    if i > 0 {
      hide IsRun, RecordOk, Inv, Enabled, Do, TombsSaved;
      RecordsOk(c, run, i - 1, id);
      Always(c, run, i - 1);
      var a := LastStep(c, run, i);
      assert TombsSaved(run[i - 1], run[i - 1 + 1], id);
      RecordStep(c, run[i - 1], a, id);
    }
  }

  /** With a reliable store, a job that was not tombstoned before it was saved leaves no record when it ends,
      or its deletion is under way. */
  lemma EndedLeavesNoRecord(c: Config, run: seq<State>, i: nat, id: Id)
    requires IsRun(c, run) && i < |run| && c.hasStore && c.reliable && SavedBeforeTombs(run, i, id)
    requires id in run[i].where && Ends(run[i].where[id].role)
    ensures id !in run[i].store || DeleteDue(run[i], id)
  {
    hide IsRun, SavedBeforeTombs;
    RecordsOk(c, run, i, id);
  }

  // ---- Only Replace tombstones unsaved jobs ----

  predicate VictimOk(c: Config, s: State, pc: Pc) {
    c.policy.Replace? || (!InReplace(pc) && (Victim(pc).Some? ==> StatusKnown(s, Victim(pc).value)))
  }

  ghost predicate VictimsOk(c: Config, s: State) {
    forall t :: t in s.threads ==> VictimOk(c, s, s.threads[t].pc)
  }

  lemma StatusStays(c: Config, s: State, s': State, t: nat, mv: Move, id: Id)
    requires KeysInv(s) && MoveOk(c, s, s', t, mv) && s.cancelled <= s'.cancelled && StatusKnown(s, id)
    ensures StatusKnown(s', id)
  {
    hide Activates, RetryOf;
  }

  lemma VictimNow(c: Config, s: State, s': State, t: nat, mv: Move)
    requires VictimsOk(c, s) && OweOk(c, s, s', t, mv) && !c.policy.Replace? && t in s'.threads
    ensures !InReplace(s'.threads[t].pc)
    ensures Victim(s'.threads[t].pc).Some? ==> StatusKnown(s, Victim(s'.threads[t].pc).value)
  {
    hide Victim, InReplace, Clears, ClearsRecord, Unnamed, TombDue, Retrying, StatusKnown;
    assert VictimOk(c, s, s.threads[t].pc);
  }

  lemma VictimsKept(c: Config, s: State, s': State, t: nat, mv: Move)
    requires VictimsOk(c, s) && KeysInv(s) && MoveOk(c, s, s', t, mv) && OweOk(c, s, s', t, mv)
    requires s.cancelled <= s'.cancelled && t in s'.threads && s'.threads == s.threads[t := s'.threads[t]]
    ensures VictimsOk(c, s')
  {
    forall u | u in s'.threads ensures VictimOk(c, s', s'.threads[u].pc) {
      hide KeysInv, MoveOk, OweOk, Victim, InReplace, StatusKnown;
      var pc := s'.threads[u].pc;
      if u != t {
        assert VictimOk(c, s, s.threads[u].pc);
      } else if !c.policy.Replace? {
        VictimNow(c, s, s', t, mv);
      }
      if !c.policy.Replace? && Victim(pc).Some? {
        StatusStays(c, s, s', t, mv, Victim(pc).value);
      }
    }
  }

  lemma TombIsSaved(c: Config, s: State, s': State, t: nat, mv: Move, id: Id)
    requires VictimsOk(c, s) && OweOk(c, s, s', t, mv) && !c.policy.Replace?
    ensures TombsSaved(s, s', id)
  {
    hide InReplace, Clears, ClearsRecord, Unnamed, TombDue, Retrying;
    assert VictimOk(c, s, s.threads[t].pc);
  }

  lemma VictimStep(c: Config, s: State, a: Action, id: Id)
    requires Inv(c, s) && Enabled(c, s, a) && VictimsOk(c, s) && !c.policy.Replace?
    ensures VictimsOk(c, Do(c, s, a)) && TombsSaved(s, Do(c, s, a), id)
  {
    if a.Tick? {
      var s' := s.(now := a.time);
      forall t | t in s'.threads ensures VictimOk(c, s', s'.threads[t].pc) {
        assert VictimOk(c, s, s.threads[t].pc);
      }
      return;
    }
    hide TokenInv, Do, Enabled, KeysInv, PcInv, ChoreInv, MoveOk, EndOk, StoreOk, FlightOk, PcOk, WakeOk, DueOk, OweOk,
      Owed, StoryInv, RoomInv, EndInv, StoreInv, FlightInv, WakeInv, DueInv, NameInv, VictimsOk, TombsSaved;
    var d := StepEffect(c, s, a);
    VictimsKept(c, s, Do(c, s, a), ThreadOf(a), d.mv);
    TombIsSaved(c, s, Do(c, s, a), ThreadOf(a), d.mv, id);
  }

  /** Unless the policy is Replace, every tombstone finds its job saved. */
  lemma {:induction false} TombsFindSaved(c: Config, run: seq<State>, i: nat, id: Id)
    requires IsRun(c, run) && i < |run| && !c.policy.Replace?
    ensures VictimsOk(c, run[i]) && SavedBeforeTombs(run, i, id)
  {
    if i == 0 {
      hide SavedBeforeTombs;
      assert SavedBeforeTombs(run, 0, id);
    } else {
      hide IsRun, Inv, Enabled, Do, TombsSaved, VictimsOk;
      TombsFindSaved(c, run, i - 1, id);
      Always(c, run, i - 1);
      var a := LastStep(c, run, i);
      VictimStep(c, run[i - 1], a, id);
    }
  }

  /** A job that a cancellation has taken out of a container has no record, or the cancellation is about to set its
      tombstone, or its deletion is under way. */
  lemma RemovedLeavesNoRecord(c: Config, run: seq<State>, i: nat, id: Id)
    requires IsRun(c, run) && i < |run| && c.hasStore && c.reliable && SavedBeforeTombs(run, i, id)
    requires id in run[i].where && run[i].where[id].role.Removed?
    ensures id !in run[i].store || DeleteDue(run[i], id) || TombIsDue(run[i], id)
  {
    RecordsOk(c, run, i, id);
    Always(c, run, i);
    var s := run[i];
    hide IsRun, SavedBeforeTombs, TokenInv, KeysInv, PcInv, ChoreInv, StoryInv, RoomInv, StoreInv, FlightInv, WakeInv,
      DueInv, NameInv, DeleteDue, TombIsDue;
    assert EndExplained(s, id, s.where[id].role);
    if RetryingSomewhere(s, id) {
      var u :| IsRetrying(s, u, id);
      RetryingHand(s, u, id);
    }
  }

  // ---- The exact condition ----

  /** Every job that has ended or was cancelled in a container has no record, or its deletion is under way. */
  ghost predicate Tidy(s: State) {
    forall id :: id in s.where && id in s.store ==>
      && (Ends(s.where[id].role) ==> DeleteDue(s, id))
      && (s.where[id].role.Removed? ==> DeleteDue(s, id) || TombIsDue(s, id))
  }

  ghost predicate AlwaysTidy(c: Config) {
    forall run :: IsRun(c, run) ==> Tidy(run[|run| - 1])
  }

  lemma TidyWithoutReplace(c: Config, run: seq<State>, i: nat)
    requires IsRun(c, run) && i < |run| && c.hasStore && c.reliable && !c.policy.Replace?
    ensures Tidy(run[i])
  {
    var s := run[i];
    forall id | id in s.where && id in s.store
      ensures Ends(s.where[id].role) ==> DeleteDue(s, id)
      ensures s.where[id].role.Removed? ==> DeleteDue(s, id) || TombIsDue(s, id)
    {
      hide IsRun, SavedBeforeTombs, Ends, DeleteDue, TombIsDue;
      TombsFindSaved(c, run, i, id);
      if Ends(s.where[id].role) {
        EndedLeavesNoRecord(c, run, i, id);
      }
      if s.where[id].role.Removed? {
        RemovedLeavesNoRecord(c, run, i, id);
      }
    }
  }
}

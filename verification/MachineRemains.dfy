/** A record left behind by a job that has ended stays in the store until somebody cancels that job again. */
module MachineRemains {
  import opened Wrappers
  import opened Jobs
  import opened ReadyQueues
  import opened Machine
  import opened MachineTokens
  import opened MachineEffects
  import opened MachineSteps
  import opened MachineNames
  import opened MachineInvariants
  import opened MachineTheorems
  import opened MachineRecords

  /** The job is nowhere, its record is in the store, and nothing is under way that could delete it: no chore, no
      cancellation, no replacement that has found the job or could still find it listed. */
  ghost predicate LeftAlone(s: State, id: Id) {
    && id in s.where && IsGone(s.where[id].role) && id in s.store && !DeleteDue(s, id)
    && (forall t :: t in s.threads ==> NotAfter(s.threads[t].pc, id))
    && (forall n :: !IsListed(s, n, id))
  }

  predicate NotAfter(pc: Pc, id: Id) {
    Victim(pc) != Some(id) && id !in PendingOf(pc)
  }

  predicate Cancels(a: Action, id: Id) {
    a.Client? && a.cop == BeginCancel(id)
  }

  lemma StaysGone(c: Config, s: State, s': State, t: nat, mv: Move, id: Id)
    requires KeysInv(s) && MoveOk(c, s, s', t, mv) && id in s.where && IsGone(s.where[id].role)
    ensures id in s'.where && s'.where[id] == s.where[id] && (mv.Shift? ==> mv.id != id)
  {
    hide Activates, RetryOf;
  }

  lemma ClearsOther(todo: seq<Chore>, j: Job, id: Id)
    requires Clears(todo, j) && j.id != id
    ensures DeleteRecord(id) !in todo
  {
  }

  lemma FirstDone(names: map<Id, Name>, todo: seq<Chore>, id: Id)
    requires todo != [] && DeleteRecord(id) !in todo
    ensures DeleteRecord(id) !in AfterFirst(names, todo)
  {
    assert forall k :: 0 <= k < |todo[1..]| ==> todo[1..][k] == todo[k + 1];
  }

  lemma TombsOther(x: Id, id: Id)
    ensures x != id ==> DeleteRecord(id) !in TombChores(x)
  {
  }

  lemma VictimTomb(pc: Pc)
    ensures TombDue(pc).Some? ==> TombDue(pc) == Victim(pc)
  {
  }

  /** The chores a thread takes on delete other records. */
  lemma OthersErased(c: Config, s: State, s': State, t: nat, mv: Move, id: Id)
    requires TokenInv(s') && MoveOk(c, s, s', t, mv) && OweOk(c, s, s', t, mv) && (mv.Shift? ==> mv.id != id)
    requires t in s'.threads && NotAfter(s.threads[t].pc, id) && DeleteRecord(id) !in s.threads[t].todo
    ensures DeleteRecord(id) !in s'.threads[t].todo
  {
    hide TokenInv, Activates, RetryOf, Unnamed, NewJob, InReplace, MustErase, ClearsRecord, Retrying, StatusKnown,
      Clears, AfterFirst, TombChores, TombDue, Victim, PendingOf, FlightSet;
    var todo, todo' := s.threads[t].todo, s'.threads[t].todo;
    VictimTomb(s.threads[t].pc);
    if todo != [] {
      FirstDone(s.names, todo, id);
    } else if mv.Shift? && Clears(todo', mv.to.job) {
      RecordedIds(s', mv.id);
      ClearsOther(todo', mv.to.job, id);
    } else if TombDue(s.threads[t].pc).Some? {
      TombsOther(TombDue(s.threads[t].pc).value, id);
    }
  }

  lemma NoDeleteTakenOn(c: Config, s: State, s': State, t: nat, mv: Move, id: Id)
    requires TokenInv(s') && MoveOk(c, s, s', t, mv) && OweOk(c, s, s', t, mv) && (mv.Shift? ==> mv.id != id)
    requires t in s'.threads && s'.threads == s.threads[t := s'.threads[t]]
    requires NotAfter(s.threads[t].pc, id) && !DeleteDue(s, id)
    ensures !DeleteDue(s', id)
  {
    OthersErased(c, s, s', t, mv, id);
    hide TokenInv, MoveOk, OweOk, NotAfter;
    forall u | u in s'.threads ensures DeleteRecord(id) !in s'.threads[u].todo {
      if u != t {
        assert u in s.threads && DeleteRecord(id) !in s.threads[u].todo;
      }
    }
  }

  lemma NotTurnedTo(c: Config, s: State, s': State, t: nat, mv: Move, id: Id)
    requires OweOk(c, s, s', t, mv) && t in s'.threads && NotAfter(s.threads[t].pc, id)
    requires Free(s, t) && s.threads[t].pc.Idle? ==> Victim(s'.threads[t].pc) != Some(id)
    requires forall n :: !IsListed(s, n, id)
    ensures NotAfter(s'.threads[t].pc, id)
  {
    hide Clears, ClearsRecord, Unnamed, TombDue, InReplace, Retrying, StatusKnown, MustErase, PendingOf, Victim,
      FlightSet;
    assert s.threads[t].pc.Admitting? ==> !IsListed(s, s.threads[t].pc.job.name, id);
  }

  lemma LeftAloneKept(c: Config, s: State, s': State, t: nat, d: Delta, id: Id)
    requires KeysInv(s) && TokenInv(s') && LeftAlone(s, id)
    requires MoveOk(c, s, s', t, d.mv) && StoreOk(c, s, s', t, d) && FlightOk(c, s, s', t, d)
    requires OweOk(c, s, s', t, d.mv) && t in s'.threads && s'.threads == s.threads[t := s'.threads[t]]
    requires Free(s, t) && s.threads[t].pc.Idle? ==> Victim(s'.threads[t].pc) != Some(id)
    ensures LeftAlone(s', id)
  {
    hide TokenInv, KeysInv, OweOk, NotAfter, MoveOk, FlightOk, DeleteDue;
    StaysGone(c, s, s', t, d.mv, id);
    assert NotAfter(s.threads[t].pc, id);
    NoDeleteTakenOn(c, s, s', t, d.mv, id);
    NotTurnedTo(c, s, s', t, d.mv, id);
    forall n ensures !IsListed(s', n, id) {
      if IsListed(s', n, id) {
        ListedBefore(c, s, s', t, d, n, id);
      }
    }
    assert id in s'.store by {
      if d.st.Erase? {
        NotErased(s, t, d.st.erased, id);
      }
    }
  }

  lemma NotErased(s: State, t: nat, erased: Id, id: Id)
    requires t in s.threads && DeleteRecord(erased) in s.threads[t].todo && !DeleteDue(s, id)
    ensures erased != id
  {
  }

  lemma IdleOps(c: Config, s: State, a: Action)
    requires Enabled(c, s, a) && !a.Tick? && Free(s, ThreadOf(a)) && s.threads[ThreadOf(a)].pc.Idle?
    ensures a.Client? && (a.cop.Submit? || a.cop.BeginCancel? || a.cop.BeginShutdown?)
  {
    hide NewJob, StatusKnown, IsVictim, IsRootOf;
  }

  /** The thread is at the given program counter after the step. */
  predicate GoesTo(s: State, t: nat, pc: Pc) {
    t in s.threads && s.threads[t].pc == pc
  }

  lemma SubmitGoes(c: Config, s: State, t: nat, j: Job)
    requires Enabled(c, s, Client(t, Submit(j)))
    ensures GoesTo(Do(c, s, Client(t, Submit(j))), t, Admitting(j))
  {
    hide NewJob;
  }

  lemma CancelGoes(c: Config, s: State, t: nat, id: Id)
    requires Enabled(c, s, Client(t, BeginCancel(id)))
    ensures GoesTo(Do(c, s, Client(t, BeginCancel(id))), t, CancelHeap(id, ToCaller))
  {
    hide StatusKnown;
  }

  lemma ShutdownGoes(c: Config, s: State, t: nat)
    requires Enabled(c, s, Client(t, BeginShutdown))
    ensures GoesTo(Do(c, s, Client(t, BeginShutdown)), t, ShutStop)
  {
  }

  /** An idle thread turns to the job only in a call of Cancel that names it. */
  lemma IdleTurnsNot(c: Config, s: State, a: Action, id: Id)
    requires Enabled(c, s, a) && !a.Tick? && !Cancels(a, id) && Free(s, ThreadOf(a))
    requires s.threads[ThreadOf(a)].pc.Idle?
    ensures ThreadOf(a) in Do(c, s, a).threads && Victim(Do(c, s, a).threads[ThreadOf(a)].pc) != Some(id)
  {
    IdleOps(c, s, a);
    hide Enabled, Do;
    match a.cop
    case Submit(j) => SubmitGoes(c, s, a.t, j);
    case BeginCancel(x) => CancelGoes(c, s, a.t, x);
    case BeginShutdown => ShutdownGoes(c, s, a.t);
  }

  lemma LeftAloneTick(s: State, time: int, id: Id)
    requires LeftAlone(s, id)
    ensures LeftAlone(s.(now := time), id)
  {
    assert DeleteDue(s.(now := time), id) == DeleteDue(s, id);
    assert forall n :: IsListed(s.(now := time), n, id) == IsListed(s, n, id);
  }

  lemma LeftAloneStep(c: Config, s: State, a: Action, id: Id)
    requires Inv(c, s) && Enabled(c, s, a) && LeftAlone(s, id) && !Cancels(a, id)
    ensures LeftAlone(Do(c, s, a), id)
  {
    if a.Tick? {
      LeftAloneTick(s, a.time, id);
      return;
    }
    hide TokenInv, Do, Enabled, KeysInv, PcInv, ChoreInv, MoveOk, EndOk, StoreOk, FlightOk, PcOk, WakeOk, DueOk, OweOk,
      Owed, StoryInv, RoomInv, EndInv, StoreInv, FlightInv, WakeInv, DueInv, NameInv, LeftAlone, Victim, Cancels;
    CoreKept(c, s, a);
    var d := StepEffect(c, s, a);
    if Free(s, ThreadOf(a)) && s.threads[ThreadOf(a)].pc.Idle? {
      IdleTurnsNot(c, s, a, id);
    }
    LeftAloneKept(c, s, Do(c, s, a), ThreadOf(a), d, id);
  }

  /** The step from state k is not a call of Cancel for the id. */
  ghost predicate Spares(c: Config, run: seq<State>, k: nat, id: Id)
    requires k + 1 < |run|
  {
    exists a :: Enabled(c, run[k], a) && run[k + 1] == Do(c, run[k], a) && !Cancels(a, id)
  }

  /** The record stays in every continuation without a further Cancel of that id. */
  lemma {:induction false} RecordStays(c: Config, run: seq<State>, i: nat, k: nat, id: Id)
    requires IsRun(c, run) && i <= k < |run| && LeftAlone(run[i], id)
    requires forall m :: i <= m < k ==> Spares(c, run, m, id)
    ensures LeftAlone(run[k], id) && id in run[k].store
  {
    if i < k {
      hide IsRun, Inv, Enabled, Do, Cancels;
      RecordStays(c, run, i, k - 1, id);
      Always(c, run, k - 1);
      assert Spares(c, run, k - 1, id);
      var a :| Enabled(c, run[k - 1], a) && run[k - 1 + 1] == Do(c, run[k - 1], a) && !Cancels(a, id);
      LeftAloneStep(c, run[k - 1], a, id);
    }
  }
}

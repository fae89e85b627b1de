/** Every step has its effect, and keeps the books the effects rely on. */
module MachineSteps {
  import opened Wrappers
  import opened Jobs
  import opened ReadyQueues
  import opened Machine
  import opened MachineTokens
  import opened MachineEffects

  ghost predicate ChoreInv(s: State) {
    forall t, ch :: t in s.threads && ch in s.threads[t].todo ==> ChoreOk(s, ch)
  }

  /** What the program counters promise. */
  ghost predicate PcInv(s: State) {
    forall t :: t in s.threads ==>
      && (Retrying(s.threads[t].pc) ==> s.threads[t].pc.job.attempt > 0)
      && (s.threads[t].pc.Draining? ==> s.stopping)
      && (InLoop(s.threads[t].pc) ==> t == 0)
  }

  ghost predicate KeysInv(s: State) {
    s.where.Keys == s.used && s.submitted.Keys == s.used && s.seen.Keys == s.used
  }

  ghost predicate Core(s: State) {
    TokenInv(s) && KeysInv(s) && PcInv(s) && ChoreInv(s)
  }

  // ---- What a thread or a container holds ----

  lemma HandHolds(s: State, t: nat, r: Role, j: Job)
    requires TokenInv(s) && Free(s, t) && Hand(t, s.threads[t].pc) == Some(Loc(r, t, j))
    ensures Holds(s, t, r, j)
  {
    hide Hand, HeapExact, ReadyExact, RecordsHeld;
    HandRecorded(s.threads, s.where, t);
  }

  lemma HeapKeeps(s: State, j: Job)
    requires TokenInv(s) && j in s.heap
    ensures Kept(s, InHeap, j)
  {
    hide Hand, HandsRecorded, RecordsHeld, ReadyExact, HeapExact, SameElsewhere, HeapHas;
    HeapTaken(s.where, s.heap, j, Loc(Removed, 0, j));
  }

  lemma ReadyKeeps(s: State, k: nat)
    requires TokenInv(s) && k < |s.ready.items|
    ensures Kept(s, InReady, s.ready.items[k])
  {
    hide Hand, HandsRecorded, RecordsHeld, HeapExact, ReadyExact, SameElsewhere, ReadyHas;
    var j := s.ready.items[k];
    MiddleOf(s.ready.items, k);
    ReadyTaken(s.where, s.ready.items, Without(s.ready.items, k), j, Loc(Removed, 0, j));
  }

  // ---- Every step has its effect ----

  lemma AdmitEffect(c: Config, s: State, t: nat, j: Job) returns (d: Delta)
    requires TokenInv(s) && Free(s, t) && s.threads[t].pc == Admitting(j)
    ensures Effect(c, s, DoAdmit(c, s, t, j), t, d)
  {
    hide Effect, DoAdmit, TokenInv;
    HandHolds(s, t, Fresh, j);
    hide Hand;
    if c.policy.Allow? {
      AdmitAnyEffect(c, s, t, j);
      d := Moving(j, Loc(Admitted, t, j));
    } else if c.policy.Skip? && FlightSet(s.flight, j.name) != {} {
      AdmitSkippedEffect(c, s, t, j);
      d := Moving(j, Loc(Rejected, 0, j));
    } else if c.policy.Skip? {
      AdmitAloneEffect(c, s, t, j);
      d := Delta(Shift(j.id, Loc(Admitted, t, j)), SameStore, Enlist(j.name, j.id));
    } else {
      AdmitInsteadEffect(c, s, t, j);
      d := Delta(Shift(j.id, Loc(Admitted, t, j)), SameStore, Supplant(j.name, j.id));
    }
  }

  lemma CancelHeapEffect(c: Config, s: State, t: nat, id: Id, ret: Return, entry: Option<Job>) returns (d: Delta)
    requires TokenInv(s) && Free(s, t) && s.threads[t].pc == CancelHeap(id, ret) && IsVictim(s.heap, id, entry)
    ensures Effect(c, s, DoRemoveFromHeap(s, t, id, ret, entry), t, d)
  {
    if entry.None? {
      CancelHeapMissEffect(c, s, t, id, ret, entry);
      return Staying();
    }
    HeapKeeps(s, entry.value);
    hide Ledger, Course, DoRemoveFromHeap, TokenInv;
    CancelHeapHitLedger(c, s, t, id, ret, entry);
    CancelHeapHitCourse(c, s, t, id, ret, entry);
    d := Moving(entry.value, Loc(Removed, 0, entry.value));
  }

  lemma CancelReadyEffect(c: Config, s: State, t: nat, id: Id, ret: Return) returns (d: Delta)
    requires TokenInv(s) && Free(s, t) && s.threads[t].pc == CancelReady(id, ret)
    ensures Effect(c, s, DoRemoveFromReady(s, t, id, ret), t, d)
  {
    var k := Find(s.ready.items, id);
    if k == -1 {
      CancelReadyMissEffect(c, s, t, id, ret);
      return Staying();
    }
    ReadyKeeps(s, k);
    hide Ledger, Course, DoRemoveFromReady, TokenInv;
    CancelReadyHitLedger(c, s, t, id, ret, k);
    CancelReadyHitCourse(c, s, t, id, ret, k);
    d := Moving(s.ready.items[k], Loc(Removed, 0, s.ready.items[k]));
  }

  lemma PersistEffect(c: Config, s: State, t: nat, j: Job, delayed: bool, ok: bool, wrote: bool) returns (d: Delta)
    requires TokenInv(s) && Free(s, t) && s.threads[t].pc == Persisting(j, delayed) && (c.reliable && wrote ==> ok)
    ensures Effect(c, s, DoPersist(c, s, t, j, delayed, ok, wrote), t, d)
  {
    hide Ledger, Course, DoPersist, TokenInv;
    HandHolds(s, t, Admitted, j);
    hide Hand;
    if !c.hasStore {
      PersistNoneLedger(c, s, t, j, delayed, ok, wrote);
      PersistNoneCourse(c, s, t, j, delayed, ok, wrote);
      return Moving(j, Loc(Saved, t, j));
    }
    if ok {
      PersistSavedLedger(c, s, t, j, delayed, ok, wrote);
      PersistSavedCourse(c, s, t, j, delayed, ok, wrote);
      return Delta(Shift(j.id, Loc(Saved, t, j)), Write(j), SameFlight);
    }
    PersistFailedLedger(c, s, t, j, delayed, ok, wrote);
    PersistFailedCourse(c, s, t, j, delayed, ok, wrote);
    d := Delta(Shift(j.id, Loc(Rejected, 0, j)), if wrote then Write(j) else SameStore, SameFlight);
  }

  lemma EnqueueEffect(c: Config, s: State, t: nat, j: Job) returns (d: Delta)
    requires TokenInv(s) && Free(s, t) && s.threads[t].pc == Enqueueing(j)
    ensures Effect(c, s, DoEnqueue(c, s, t, j), t, d)
  {
    hide Ledger, Course, DoEnqueue, TokenInv, PushVerdict;
    HandHolds(s, t, Saved, j);
    hide Hand;
    match PushVerdict(s.ready, c.drop)
    case Pushed =>
      EnqueueDoneLedger(c, s, t, j);
      EnqueueDoneCourse(c, s, t, j);
      d := Moving(j, Loc(InReady, 0, j));
    case MustWait =>
      EnqueueWaitEffect(c, s, t, j);
      d := Staying();
    case _ =>
      EnqueueFailedLedger(c, s, t, j);
      EnqueueFailedCourse(c, s, t, j);
      d := Moving(j, Loc(Rejected, 0, j));
  }

  lemma ClientEffect(c: Config, s: State, t: nat, op: ClientOp) returns (d: Delta)
    requires Core(s) && Free(s, t) && ClientEnabled(c, s, s.threads[t].pc, op)
    ensures Effect(c, s, DoClient(c, s, t, s.threads[t].pc, op), t, d)
  {
    hide Ledger, Course, TokenInv, PcInv, ChoreInv, DoSubmit, DoAdmit, DoNextReplaced, DoAllReplaced, DoBeginCancel,
      DoRemoveFromHeap, DoRemoveFromReady, DoEntomb, DoRecordName, DoCheckRunning, DoPersist, DoEnqueue, DoRetryPush,
      DoAbortPush, DoPushDelayed, DoBeginShutdown, DoStopLoop, DoCloseQueue, IsVictim;
    var pc := s.threads[t].pc;
    d := Staying();
    match op
    case Submit(j) =>
      SubmitLedger(c, s, t, j);
      SubmitCourse(c, s, t, j);
      d := Delta(Create(j), SameStore, SameFlight);
    case Admit => d := AdmitEffect(c, s, t, pc.job);
    case NextReplaced(id) => NextReplacedEffect(c, s, t, pc.job, pc.pending, id);
    case AllReplaced => AllReplacedEffect(c, s, t, pc.job);
    case BeginCancel(id) => BeginCancelEffect(c, s, t, id);
    case RemoveFromHeap(entry) => d := CancelHeapEffect(c, s, t, pc.id, pc.ret, entry);
    case RemoveFromReady => d := CancelReadyEffect(c, s, t, pc.id, pc.ret);
    case Entomb =>
      if pc.ret.ToCaller? {
        EntombEndEffect(c, s, t, pc.id, pc.ret);
      } else {
        EntombOnEffect(c, s, t, pc.id, pc.ret);
      }
    case RecordName => RecordNameEffect(c, s, t, pc.job);
    case CheckRunning =>
      HandHolds(s, t, Admitted, pc.job);
      if s.running {
        CheckRunningPassEffect(c, s, t, pc.job);
      } else {
        CheckRunningFailLedger(c, s, t, pc.job);
        CheckRunningFailCourse(c, s, t, pc.job);
        d := Moving(pc.job, Loc(Rejected, 0, pc.job));
      }
    case Persist(ok, wrote) => d := PersistEffect(c, s, t, pc.job, pc.delayed, ok, wrote);
    case Enqueue => d := EnqueueEffect(c, s, t, pc.job);
    case RetryPush => RetryPushEffect(c, s, t, pc.job);
    case AbortPush =>
      HandHolds(s, t, Saved, pc.job);
      AbortPushLedger(c, s, t, pc.job);
      AbortPushCourse(c, s, t, pc.job);
      d := Moving(pc.job, Loc(Rejected, 0, pc.job));
    case PushDelayed =>
      HandHolds(s, t, Saved, pc.job);
      PushDelayedLedger(c, s, t, pc.job);
      PushDelayedCourse(c, s, t, pc.job);
      d := Moving(pc.job, Loc(InHeap, 0, pc.job));
    case BeginShutdown => BeginShutdownEffect(c, s, t);
    case StopLoop => StopLoopEffect(c, s, t);
    case CloseQueue => CloseQueueEffect(c, s, t);
  }

  lemma TakeReadyEffect(c: Config, s: State, t: nat) returns (d: Delta)
    requires TokenInv(s) && Free(s, t) && s.threads[t].pc.WorkerPop? && !PopVerdict(s.ready).Sleep?
    ensures Effect(c, s, DoTakeReady(s, t), t, d)
  {
    if s.ready.items == [] {
      TakeReadyNoneEffect(c, s, t);
      return Staying();
    }
    ReadyKeeps(s, 0);
    hide Ledger, Course, DoTakeReady, TokenInv;
    TakeReadyOneLedger(c, s, t);
    TakeReadyOneCourse(c, s, t);
    d := Moving(s.ready.items[0], Loc(AtWorker, t, s.ready.items[0]));
  }

  lemma SecondCheckEffect(c: Config, s: State, t: nat, j: Job, ok: bool) returns (d: Delta)
    requires TokenInv(s) && Free(s, t) && s.threads[t].pc == Handled(j, ok)
    ensures Effect(c, s, DoSecondCheck(s, t, j, ok), t, d)
  {
    hide Ledger, Course, DoSecondCheck, TokenInv, Retries, NextAttempt;
    HandHolds(s, t, Ran, j);
    hide Hand;
    if j.id in s.cancelled {
      SecondCheckCancelledLedger(c, s, t, j, ok);
      SecondCheckCancelledCourse(c, s, t, j, ok);
      d := Moving(j, Loc(Discarded, 0, j));
    } else if !ok && Retries(j) {
      SecondCheckRetryLedger(c, s, t, j, ok);
      SecondCheckRetryCourse(c, s, t, j, ok);
      d := Moving(j, Loc(AtWorker, t, NextAttempt(j, s.now)));
    } else {
      SecondCheckEndLedger(c, s, t, j, ok);
      SecondCheckEndCourse(c, s, t, j, ok);
      d := Moving(j, Loc(Finished, 0, j));
    }
  }

  lemma WorkEffect(c: Config, s: State, t: nat, op: WorkerOp) returns (d: Delta)
    requires Core(s) && Free(s, t) && WorkerEnabled(s, s.threads[t].pc, op)
    ensures Effect(c, s, DoWork(c, s, t, s.threads[t].pc, op), t, d)
  {
    hide Ledger, Course, TokenInv, KeysInv, ChoreInv, DoTakeReady, DoFirstCheck, DoStartHandler, DoHandlerReturns,
      DoSecondCheck, DoSaveRetry, DoRequeue, PopVerdict;
    var pc := s.threads[t].pc;
    d := Staying();
    match op
    case TakeReady => d := TakeReadyEffect(c, s, t);
    case FirstCheck =>
      HandHolds(s, t, AtWorker, pc.job);
      if pc.job.id in s.cancelled {
        FirstCheckFailEffect(c, s, t, pc.job);
        d := Moving(pc.job, Loc(Discarded, 0, pc.job));
      } else {
        FirstCheckPassEffect(c, s, t, pc.job);
      }
    case StartHandler =>
      HandHolds(s, t, AtWorker, pc.job);
      if pc.job.name in c.handlers {
        StartHandlerRunLedger(c, s, t, pc.job);
        StartHandlerRunCourse(c, s, t, pc.job);
        d := Moving(pc.job, Loc(Ran, t, pc.job));
      } else {
        StartHandlerNoneLedger(c, s, t, pc.job);
        StartHandlerNoneCourse(c, s, t, pc.job);
        d := Moving(pc.job, Loc(Finished, 0, pc.job));
      }
    case HandlerReturns(ok) => HandlerReturnsEffect(c, s, t, pc.job, ok);
    case SecondCheck => d := SecondCheckEffect(c, s, t, pc.job, pc.ok);
    case SaveRetry(wrote) =>
      HandHolds(s, t, AtWorker, pc.job);
      if c.hasStore && wrote {
        SaveRetryWriteLedger(c, s, t, pc.job, wrote);
        SaveRetryWriteCourse(c, s, t, pc.job, wrote);
        d := Delta(Stay, Write(pc.job), SameFlight);
      } else {
        SaveRetrySkipLedger(c, s, t, pc.job, wrote);
        SaveRetrySkipCourse(c, s, t, pc.job, wrote);
      }
    case Requeue =>
      HandHolds(s, t, AtWorker, pc.job);
      RequeueLedger(c, s, t, pc.job);
      RequeueCourse(c, s, t, pc.job);
      d := Moving(pc.job, Loc(InHeap, 0, pc.job));
  }

  lemma TakeDueEffect(c: Config, s: State, t: nat, at: int, root: Option<Job>) returns (d: Delta)
    requires TokenInv(s) && Free(s, t) && s.threads[t].pc == PopDue(at) && IsRootOf(s.heap, root)
    ensures Effect(c, s, DoTakeDue(s, t, at, root), t, d)
  {
    if root.None? || root.value.runAt > at {
      TakeDueNoneEffect(c, s, t, at, root);
      return Staying();
    }
    HeapKeeps(s, root.value);
    hide Ledger, Course, DoTakeDue, TokenInv;
    TakeDueOneLedger(c, s, t, at, root);
    TakeDueOneCourse(c, s, t, at, root);
    d := Moving(root.value, Loc(AtLoop, t, root.value));
  }

  lemma DueEnqueueEffect(c: Config, s: State, t: nat, j: Job, at: int) returns (d: Delta)
    requires TokenInv(s) && Free(s, t) && s.threads[t].pc == DuePush(j, at)
    ensures Effect(c, s, DoDueEnqueue(s, t, j, at), t, d)
  {
    hide Ledger, Course, DoDueEnqueue, TokenInv, PushVerdict;
    HandHolds(s, t, AtLoop, j);
    hide Hand;
    match PushVerdict(s.ready, false)
    case Pushed =>
      DueEnqueueDoneLedger(c, s, t, j, at);
      DueEnqueueDoneCourse(c, s, t, j, at);
      d := Moving(j, Loc(InReady, 0, j));
    case MustWait =>
      DueEnqueueWaitEffect(c, s, t, j, at);
      d := Staying();
    case _ =>
      DueEnqueueLostLedger(c, s, t, j, at);
      DueEnqueueLostCourse(c, s, t, j, at);
      d := Moving(j, Loc(Lost, 0, j));
  }

  lemma DrainEffect(c: Config, s: State, t: nat, root: Option<Job>) returns (d: Delta)
    requires TokenInv(s) && Free(s, t) && s.threads[t].pc == Draining && s.stopping && IsRootOf(s.heap, root)
    ensures Effect(c, s, DoDrain(s, t, root), t, d)
  {
    if root.None? {
      DrainEndEffect(c, s, t, root);
      return Staying();
    }
    HeapKeeps(s, root.value);
    hide Ledger, Course, DoDrain, TokenInv;
    DrainOneLedger(c, s, t, root);
    DrainOneCourse(c, s, t, root);
    d := Moving(root.value, Loc(Drained, 0, root.value));
  }

  lemma LoopEffect(c: Config, s: State, t: nat, op: LoopOp) returns (d: Delta)
    requires Core(s) && Free(s, t) && LoopEnabled(s, s.threads[t].pc, op)
    ensures Effect(c, s, DoLoop(s, t, s.threads[t].pc, op), t, d)
  {
    hide Ledger, Course, TokenInv, KeysInv, ChoreInv, DoLook, DoSignalled, DoTimerFires, DoStopped, DoTakeDue,
      DoDueCheck, DoDueEnqueue, DoDueRetry, DoDrain, IsRootOf;
    var pc := s.threads[t].pc;
    d := Staying();
    match op
    case Look(root) =>
      LookLedger(c, s, t, root);
      LookCourse(c, s, t, root);
    case Signalled => SignalledEffect(c, s, t);
    case TimerFires => TimerFiresEffect(c, s, t);
    case Stopped => StoppedEffect(c, s, t);
    case TakeDue(root) => d := TakeDueEffect(c, s, t, pc.at, root);
    case DueCheck =>
      HandHolds(s, t, AtLoop, pc.job);
      if pc.job.id in s.cancelled {
        DueCheckFailEffect(c, s, t, pc.job, pc.at);
        d := Moving(pc.job, Loc(Discarded, 0, pc.job));
      } else {
        DueCheckPassEffect(c, s, t, pc.job, pc.at);
      }
    case DueEnqueue => d := DueEnqueueEffect(c, s, t, pc.job, pc.at);
    case DueRetry => DueRetryEffect(c, s, t, pc.job, pc.at);
    case Drain(root) => d := DrainEffect(c, s, t, root);
  }

  lemma ChoreEffect(c: Config, s: State, t: nat, wrote: bool) returns (d: Delta)
    requires Core(s) && t in s.threads && s.threads[t].todo != [] && (c.reliable ==> wrote)
    ensures Effect(c, s, DoChoreOf(c, s, t, wrote), t, d)
  {
    hide Effect, TokenInv, KeysInv, PcInv, DoChoreOf;
    var todo := s.threads[t].todo;
    assert todo == [todo[0]] + todo[1..] && ChoreOk(s, todo[0]);
    d := Staying();
    match todo[0]
    case ReleaseName(n, id) =>
      if c.policy.Allow? {
        ReleaseNameAnyEffect(c, s, t, n, id, wrote);
      } else {
        ReleaseNameEffect(c, s, t, n, id, wrote);
        d := Delta(Stay, SameStore, Unlist(n, id));
      }
    case ForgetName(id) => ForgetNameEffect(c, s, t, id, wrote);
    case LookUpName(id) =>
      if id in s.names {
        LookUpNameHitEffect(c, s, t, id, wrote);
      } else {
        LookUpNameMissEffect(c, s, t, id, wrote);
      }
    case DeleteRecord(id) =>
      if c.hasStore && wrote {
        DeleteRecordEffect(c, s, t, id, wrote);
        d := Delta(Stay, Erase(id), SameFlight);
      } else {
        DeleteRecordMissEffect(c, s, t, id, wrote);
      }
    case SignalLoop => SignalLoopEffect(c, s, t, wrote);
  }

  function ThreadOf(a: Action): nat
    requires !a.Tick?
  {
    match a
    case DoChore(t, _) => t
    case Client(t, _) => t
    case Work(t, _) => t
    case Loop(t, _) => t
  }

  lemma StepEffect(c: Config, s: State, a: Action) returns (d: Delta)
    requires Core(s) && Enabled(c, s, a) && !a.Tick?
    ensures Effect(c, s, Do(c, s, a), ThreadOf(a), d)
  {
    hide Effect, Core, DoClient, DoWork, DoLoop, DoChoreOf, ClientEnabled, WorkerEnabled, LoopEnabled;
    match a
    case DoChore(t, wrote) => d := ChoreEffect(c, s, t, wrote);
    case Client(t, op) => d := ClientEffect(c, s, t, op);
    case Work(t, op) => d := WorkEffect(c, s, t, op);
    case Loop(t, op) => d := LoopEffect(c, s, t, op);
  }

  // ---- Every step keeps the books ----

  lemma KeysKept(c: Config, s: State, s': State, t: nat, mv: Move)
    requires KeysInv(s) && MoveOk(c, s, s', t, mv)
    ensures KeysInv(s')
  {
    hide Follows, RetryOf, Activates, NewJob;
  }

  lemma PcsKept(s: State, s': State, t: nat)
    requires PcInv(s) && PcOk(s, s', t) && s'.threads == s.threads[t := s'.threads[t]] && (s.stopping ==> s'.stopping)
    ensures PcInv(s')
  {
    hide TombDue;
  }

  /** A job that may be released or deleted stays so. */
  lemma ReasonsKept(c: Config, s: State, s': State, t: nat, mv: Move, id: Id)
    requires KeysInv(s) && MoveOk(c, s, s', t, mv) && s.cancelled <= s'.cancelled
    ensures Releasable(s, id) ==> Releasable(s', id)
    ensures Deletable(s, id) ==> Deletable(s', id)
  {
    hide Activates;
  }

  lemma ChoresKept(c: Config, s: State, s': State, t: nat, mv: Move)
    requires KeysInv(s) && ChoreInv(s) && MoveOk(c, s, s', t, mv) && TodoOk(s, s', t)
    ensures ChoreInv(s')
  {
    forall u, ch | u in s'.threads && ch in s'.threads[u].todo ensures ChoreOk(s', ch) {
      if u != t || ch in s.threads[t].todo {
        assert ch in s.threads[u].todo && ChoreOk(s, ch);
        if ch.ReleaseName? || ch.DeleteRecord? {
          ReasonsKept(c, s, s', t, mv, ch.id);
        }
      }
    }
  }

  lemma ChoresTick(s: State, time: int)
    requires ChoreInv(s)
    ensures ChoreInv(s.(now := time))
  {
    var s' := s.(now := time);
    forall u, ch | u in s'.threads && ch in s'.threads[u].todo ensures ChoreOk(s', ch) {
      assert ch in s.threads[u].todo && ChoreOk(s, ch);
    }
  }

  lemma CoreKept(c: Config, s: State, a: Action)
    requires Core(s) && Enabled(c, s, a)
    ensures Core(Do(c, s, a))
  {
    StepTokens(c, s, a);
    if a.Tick? {
      ChoresTick(s, a.time);
      return;
    }
    var d := StepEffect(c, s, a);
    var s', t := Do(c, s, a), ThreadOf(a);
    hide TokenInv, Do, Enabled, KeysInv, PcInv, ChoreInv, MoveOk, StoreOk, FlightOk, PcOk, WakeOk, DueOk, OweOk, Owed;
    KeysKept(c, s, s', t, d.mv);
    PcsKept(s, s', t);
    ChoresKept(c, s, s', t, d.mv);
  }

  lemma CoreStart(c: Config, s: State)
    requires IsStart(c, s)
    ensures Core(s)
  {
    StartTokens(c, s);
    hide TokenInv;
  }
}

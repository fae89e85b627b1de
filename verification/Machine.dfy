/** internal/core/dispatcher.go and worker.go: the dispatcher as a step machine.

    Each lock region and each map, store or channel operation is one step of an arbitrary interleaving of
    client threads (Submit, Cancel, Shutdown), workers and the delay loop, which is thread 0.  A thread is
    at a program counter, after some chores it still has to do.  `where`, `submitted`, `seen` and `used`
    record history and do not influence the steps. */
module Machine {
  import opened Wrappers
  import opened Jobs
  import opened ReadyQueues
  import Backoff

  datatype Policy = Skip | Replace | Allow

  /** retryLimit bounds the MaxRetries callers ask for; the source allows up to 100.  A reliable store never fails
      to delete, and has no record that it has failed to save. */
  datatype Config = Config(policy: Policy, drop: bool, hasStore: bool, reliable: bool, cap: nat, retryLimit: nat,
                           handlers: set<Name>)

  /** Clean-up operations that name a job but no longer carry it. */
  datatype Chore =
    | ReleaseName(name: Name, id: Id)
    | ForgetName(id: Id)
    | LookUpName(id: Id)
    | DeleteRecord(id: Id)
    | SignalLoop

  /** Where a cancellation returns to: its caller, or a Replace submission with more to cancel. */
  datatype Return = ToCaller | ToReplace(job: Job, pending: set<Id>)

  datatype Pc =
    | Idle
    | Admitting(job: Job)
    | Replacing(job: Job, pending: set<Id>)
    | CancelHeap(id: Id, ret: Return)
    | CancelReady(id: Id, ret: Return)
    | CancelTomb(id: Id, ret: Return)
    | Naming(job: Job)
    | CheckingRunning(job: Job)
    | Persisting(job: Job, delayed: bool)
    | Enqueueing(job: Job)
    | AwaitingRoom(job: Job)
    | Delaying(job: Job)
    | ShutStop
    | ShutClose
    | WorkerPop
    | WorkerHas(job: Job)
    | LookingUp(job: Job)
    | Handling(job: Job)
    | Handled(job: Job, ok: bool)
    | SavingRetry(job: Job)
    | Requeueing(job: Job)
    | WorkerDone
    | LoopCheck
    | LoopWait(target: Option<int>)
    | PopDue(at: int)
    | DueHas(job: Job, at: int)
    | DuePush(job: Job, at: int)
    | DueAwait(job: Job, at: int)
    | Draining
    | LoopDone

  datatype Thread = Thread(todo: seq<Chore>, pc: Pc)

  /** Where a job is, or how it ended.  Lost is a due job whose push into a closed queue failed; Removed is
      one taken out of a container by a cancellation. */
  datatype Role =
    | Fresh | Admitted | Saved | AtLoop | AtWorker | Ran
    | InHeap | InReady
    | Rejected | Removed | Discarded | Finished | Drained | Lost

  /** The one place of a job: thread t for the roles that are hands. */
  datatype Loc = Loc(role: Role, t: nat, job: Job)

  predicate IsHand(r: Role) {
    r.Fresh? || r.Admitted? || r.Saved? || r.AtLoop? || r.AtWorker? || r.Ran?
  }

  predicate IsGone(r: Role) {
    !IsHand(r) && !r.InHeap? && !r.InReady?
  }

  datatype State = State(
    threads: map<nat, Thread>,
    now: int,
    running: bool,
    stopping: bool,
    ready: Queue,
    heap: multiset<Job>,
    flight: map<Name, set<Id>>,
    names: map<Id, Name>,
    cancelled: set<Id>,
    store: map<Id, Job>,
    loopSignal: bool,
    used: set<Id>,
    submitted: map<Id, Job>,
    where: map<Id, Loc>,
    seen: map<Id, seq<nat>>)

  // ---- The in-flight table ----

  function FlightSet(flight: map<Name, set<Id>>, name: Name): set<Id> {
    if name in flight then flight[name] else {}
  }

  function AddFlight(flight: map<Name, set<Id>>, name: Name, id: Id): map<Name, set<Id>> {
    flight[name := FlightSet(flight, name) + {id}]
  }

  function DropFlight(flight: map<Name, set<Id>>, name: Name, id: Id): map<Name, set<Id>> {
    if name !in flight then flight
    else if flight[name] - {id} == {} then flight - {name}
    else flight[name := flight[name] - {id}]
  }

  class InFlightTable {
    var sets: map<Name, set<Id>>

    constructor ()
      ensures sets == map[]
    {
      sets := map[];
    }

    method Add(name: Name, id: Id)
      modifies this
      ensures sets == AddFlight(old(sets), name, id)
    {
      var members := if name in sets then sets[name] else {};
      sets := sets[name := members + {id}];
    }

    method Release(name: Name, id: Id)
      modifies this
      ensures sets == DropFlight(old(sets), name, id)
    {
      if name !in sets {
        return;
      }
      var members := sets[name] - {id};
      if |members| == 0 {
        sets := sets - {name};
      } else {
        sets := sets[name := members];
      }
    }

    /** The lock region of applyConflict. */
    method Admit(policy: Policy, name: Name, id: Id) returns (admitted: bool, replaced: set<Id>)
      modifies this
      ensures admitted == (policy.Skip? ==> FlightSet(old(sets), name) == {})
      ensures replaced == if policy.Replace? then FlightSet(old(sets), name) else {}
      ensures sets == if policy.Allow? || !admitted then old(sets)
                      else AddFlight(if policy.Replace? then old(sets) - {name} else old(sets), name, id)
    {
      admitted, replaced := true, {};
      if policy == Allow {
        return;
      }
      var members := if name in sets then sets[name] else {};
      if policy == Replace {
        if |members| > 0 {
          replaced := members;
          sets := sets - {name};
        } else {
          assert sets - {name} == sets || sets[name] == {};
          sets := sets - {name};
        }
        Add(name, id);
      } else {
        if |members| > 0 {
          return false, {};
        }
        Add(name, id);
      }
    }
  }

  // ---- Helpers for steps ----

  function At(s: State, t: nat, todo: seq<Chore>, pc: Pc): State {
    s.(threads := s.threads[t := Thread(todo, pc)])
  }

  function Place(s: State, id: Id, l: Loc): State {
    s.(where := s.where[id := l])
  }

  /** releaseJob. */
  function Release(j: Job): seq<Chore> {
    [ReleaseName(j.name, j.id), ForgetName(j.id)]
  }

  /** The deferred clean-up of runEntry. */
  function Cleanup(j: Job): seq<Chore> {
    Release(j) + [DeleteRecord(j.id)]
  }

  /** The clean-up of a failed push, and of a drained job. */
  function Undo(j: Job): seq<Chore> {
    [DeleteRecord(j.id)] + Release(j)
  }

  /** The job that replaces j after a failed attempt. */
  function NextAttempt(j: Job, now: int): Job {
    j.(attempt := j.attempt + 1, runAt := now + Backoff.Delay(j.retryDelay, j.attempt))
  }

  ghost predicate IsRoot(heap: multiset<Job>, j: Job) {
    j in heap && forall e :: e in heap ==> j.runAt <= e.runAt
  }

  // ---- Actions ----

  datatype ClientOp =
    | Submit(newJob: Job)
    | Admit
    | NextReplaced(victim: Id)
    | AllReplaced
    | BeginCancel(victim: Id)
    | RemoveFromHeap(entry: Option<Job>)
    | RemoveFromReady
    | Entomb
    | RecordName
    | CheckRunning
    | Persist(ok: bool, wrote: bool)
    | Enqueue
    | RetryPush
    | AbortPush
    | PushDelayed
    | BeginShutdown
    | StopLoop
    | CloseQueue

  datatype WorkerOp =
    | TakeReady
    | FirstCheck
    | StartHandler
    | HandlerReturns(ok: bool)
    | SecondCheck
    | SaveRetry(wrote: bool)
    | Requeue

  datatype LoopOp =
    | Look(root: Option<Job>)
    | Signalled
    | TimerFires
    | Stopped
    | TakeDue(root: Option<Job>)
    | DueCheck
    | DueEnqueue
    | DueRetry
    | Drain(root: Option<Job>)

  /** One step of thread t; a chore of the store kind may fail silently. */
  datatype Action =
    | Tick(time: int)
    | DoChore(t: nat, wrote: bool)
    | Client(t: nat, cop: ClientOp)
    | Work(t: nat, wop: WorkerOp)
    | Loop(t: nat, lop: LoopOp)

  /** Thread t has no chores left and stands at its program counter. */
  predicate Free(s: State, t: nat) {
    t in s.threads && s.threads[t].todo == []
  }

  /** A heap entry with the id, when there is one. */
  ghost predicate IsVictim(heap: multiset<Job>, id: Id, entry: Option<Job>) {
    match entry
    case Some(e) => e in heap && e.id == id
    case None => forall e :: e in heap ==> e.id != id
  }

  ghost predicate IsRootOf(heap: multiset<Job>, root: Option<Job>) {
    match root
    case Some(e) => IsRoot(heap, e)
    case None => heap == multiset{}
  }

  predicate NewJob(c: Config, s: State, j: Job) {
    && j.id !in s.used
    && j.name in c.handlers
    && j.attempt == 0
    && 0 <= j.maxRetries <= c.retryLimit
    && 0 <= j.retryDelay
  }

  predicate NotQueuedYet(r: Role) {
    r.Fresh? || r.Admitted? || r.Saved? || r.Rejected?
  }

  /** A status is recorded only once a job has been queued, or by a cancellation. */
  predicate StatusKnown(s: State, id: Id) {
    id in s.cancelled || (id in s.where && !NotQueuedYet(s.where[id].role))
  }

  ghost predicate ClientEnabled(c: Config, s: State, pc: Pc, op: ClientOp) {
    match op
    case Submit(j) => pc.Idle? && NewJob(c, s, j)
    case Admit => pc.Admitting?
    case NextReplaced(id) => pc.Replacing? && id in pc.pending
    case AllReplaced => pc.Replacing? && pc.pending == {}
    case BeginCancel(id) => pc.Idle? && StatusKnown(s, id)
    case RemoveFromHeap(entry) => pc.CancelHeap? && IsVictim(s.heap, pc.id, entry)
    case RemoveFromReady => pc.CancelReady?
    case Entomb => pc.CancelTomb?
    case RecordName => pc.Naming?
    case CheckRunning => pc.CheckingRunning?
    case Persist(ok, wrote) => pc.Persisting? && (c.reliable && wrote ==> ok)
    case Enqueue => pc.Enqueueing?
    case RetryPush => pc.AwaitingRoom?
    case AbortPush => pc.AwaitingRoom?
    case PushDelayed => pc.Delaying?
    case BeginShutdown => pc.Idle?
    case StopLoop => pc.ShutStop?
    case CloseQueue => pc.ShutClose?
  }

  predicate WorkerEnabled(s: State, pc: Pc, op: WorkerOp) {
    match op
    case TakeReady => pc.WorkerPop? && !PopVerdict(s.ready).Sleep?
    case FirstCheck => pc.WorkerHas?
    case StartHandler => pc.LookingUp?
    case HandlerReturns(ok) => pc.Handling?
    case SecondCheck => pc.Handled?
    case SaveRetry(wrote) => pc.SavingRetry?
    case Requeue => pc.Requeueing?
  }

  ghost predicate LoopEnabled(s: State, pc: Pc, op: LoopOp) {
    match op
    case Look(root) => pc.LoopCheck? && IsRootOf(s.heap, root)
    case Signalled => pc.LoopWait? && s.loopSignal
    case TimerFires => pc.LoopWait? && pc.target.Some? && pc.target.value <= s.now
    case Stopped => pc.LoopWait? && s.stopping
    case TakeDue(root) => pc.PopDue? && IsRootOf(s.heap, root)
    case DueCheck => pc.DueHas?
    case DueEnqueue => pc.DuePush?
    case DueRetry => pc.DueAwait?
    case Drain(root) => pc.Draining? && IsRootOf(s.heap, root)
  }

  ghost predicate Enabled(c: Config, s: State, a: Action) {
    match a
    case Tick(time) => s.now <= time
    case DoChore(t, wrote) => t in s.threads && s.threads[t].todo != [] && (c.reliable ==> wrote)
    case Client(t, op) => Free(s, t) && ClientEnabled(c, s, s.threads[t].pc, op)
    case Work(t, op) => Free(s, t) && WorkerEnabled(s, s.threads[t].pc, op)
    case Loop(t, op) => Free(s, t) && LoopEnabled(s, s.threads[t].pc, op)
  }

  /** The operation carries on after its chores at `pc`; the job it held is gone. */
  function Leave(s: State, t: nat, j: Job, end: Role, todo: seq<Chore>, pc: Pc): State {
    At(Place(s, j.id, Loc(end, 0, j)), t, todo, pc)
  }

  function DoSubmit(s: State, t: nat, j: Job): State {
    At(Place(s, j.id, Loc(Fresh, t, j)), t, [], Admitting(j))
      .(used := s.used + {j.id}, submitted := s.submitted[j.id := j], seen := s.seen[j.id := []])
  }

  /** applyConflict, up to the cancellation of the replaced jobs. */
  function DoAdmit(c: Config, s: State, t: nat, j: Job): State {
    var members := FlightSet(s.flight, j.name);
    match c.policy
    case Allow => At(Place(s, j.id, Loc(Admitted, t, j)), t, [], Naming(j))
    case Skip =>
      if members != {} then Leave(s, t, j, Rejected, [], Idle)
      else At(Place(s, j.id, Loc(Admitted, t, j)), t, [], Naming(j)).(flight := AddFlight(s.flight, j.name, j.id))
    case Replace =>
      At(Place(s, j.id, Loc(Admitted, t, j)), t, [], Replacing(j, members))
        .(flight := AddFlight(s.flight - {j.name}, j.name, j.id))
  }

  function Resume(ret: Return): Pc {
    match ret
    case ToCaller => Idle
    case ToReplace(j, pending) => Replacing(j, pending)
  }

  function DoRemoveFromHeap(s: State, t: nat, id: Id, ret: Return, entry: Option<Job>): State {
    match entry
    case Some(e) =>
      At(Place(s, id, Loc(Removed, 0, e)), t, [], CancelReady(id, ret)).(heap := s.heap - multiset{e})
    case None => At(s, t, [], CancelReady(id, ret))
  }

  function DoRemoveFromReady(s: State, t: nat, id: Id, ret: Return): State {
    var k := Find(s.ready.items, id);
    if k == -1 then At(s, t, [], CancelTomb(id, ret))
    else
      At(Place(s, id, Loc(Removed, 0, s.ready.items[k])), t, [], CancelTomb(id, ret))
        .(ready := AfterRemove(s.ready, id))
  }

  function DoEntomb(s: State, t: nat, id: Id, ret: Return): State {
    At(s, t, [LookUpName(id), DeleteRecord(id)], Resume(ret)).(cancelled := s.cancelled + {id})
  }

  function DoCheckRunning(s: State, t: nat, j: Job): State {
    if !s.running then Leave(s, t, j, Rejected, Release(j), Idle)
    else At(s, t, [], Persisting(j, !RunsNow(j, s.now)))
  }

  /** A failed Save may still have written the record. */
  function DoPersist(c: Config, s: State, t: nat, j: Job, delayed: bool, ok: bool, wrote: bool): State {
    var next := if delayed then Delaying(j) else Enqueueing(j);
    if !c.hasStore then At(Place(s, j.id, Loc(Saved, t, j)), t, [], next)
    else if ok then At(Place(s, j.id, Loc(Saved, t, j)), t, [], next).(store := s.store[j.id := j])
    else Leave(s, t, j, Rejected, Release(j), Idle).(store := if wrote then s.store[j.id := j] else s.store)
  }

  function DoEnqueue(c: Config, s: State, t: nat, j: Job): State {
    match PushVerdict(s.ready, c.drop)
    case Pushed => At(Place(s, j.id, Loc(InReady, 0, j)), t, [], Idle).(ready := AfterPush(s.ready, j, c.drop))
    case MustWait => At(s, t, [], AwaitingRoom(j))
    case _ => Leave(s, t, j, Rejected, Undo(j), Idle)
  }

  function DoPushDelayed(s: State, t: nat, j: Job): State {
    At(Place(s, j.id, Loc(InHeap, 0, j)), t, [SignalLoop], Idle).(heap := s.heap + multiset{j})
  }

  function DoTakeReady(s: State, t: nat): State {
    if s.ready.items == [] then At(s, t, [], WorkerDone)
    else
      var j := s.ready.items[0];
      At(Place(s, j.id, Loc(AtWorker, t, j)), t, [], WorkerHas(j)).(ready := AfterPop(s.ready))
  }

  function DoFirstCheck(s: State, t: nat, j: Job): State {
    if j.id in s.cancelled then Leave(s, t, j, Discarded, Release(j), WorkerPop)
    else At(s, t, [], LookingUp(j))
  }

  /** The attempts the handler has seen for the job. */
  function SeenBy(s: State, id: Id): seq<nat> {
    if id in s.seen then s.seen[id] else []
  }

  function DoStartHandler(c: Config, s: State, t: nat, j: Job): State {
    if j.name in c.handlers
    then At(Place(s, j.id, Loc(Ran, t, j)), t, [], Handling(j)).(seen := s.seen[j.id := SeenBy(s, j.id) + [j.attempt]])
    else Leave(s, t, j, Finished, Cleanup(j), WorkerPop)
  }

  predicate Retries(j: Job) {
    j.maxRetries > 0 && j.attempt < j.maxRetries
  }

  function DoSecondCheck(s: State, t: nat, j: Job, ok: bool): State {
    if j.id in s.cancelled then Leave(s, t, j, Discarded, Cleanup(j), WorkerPop)
    else if !ok && Retries(j) then
      var next := NextAttempt(j, s.now);
      At(Place(s, j.id, Loc(AtWorker, t, next)), t, [], SavingRetry(next))
    else Leave(s, t, j, Finished, Cleanup(j), WorkerPop)
  }

  function DoSaveRetry(c: Config, s: State, t: nat, j: Job, wrote: bool): State {
    At(s, t, [], Requeueing(j)).(store := if c.hasStore && wrote then s.store[j.id := j] else s.store)
  }

  /** scheduleRetry pushes the next attempt; the deferred clean-up of runEntry still follows. */
  function DoRequeue(s: State, t: nat, j: Job): State {
    At(Place(s, j.id, Loc(InHeap, 0, j)), t, [SignalLoop] + Cleanup(j), WorkerPop).(heap := s.heap + multiset{j})
  }

  function DoTakeDue(s: State, t: nat, at: int, root: Option<Job>): State {
    if root.None? || root.value.runAt > at then At(s, t, [], LoopCheck)
    else
      var j := root.value;
      At(Place(s, j.id, Loc(AtLoop, t, j)), t, [], DueHas(j, at)).(heap := s.heap - multiset{j})
  }

  function DoDueCheck(s: State, t: nat, j: Job, at: int): State {
    if j.id in s.cancelled then Leave(s, t, j, Discarded, Release(j), PopDue(at))
    else At(s, t, [], DuePush(j, at))
  }

  /** popDue ignores the error of a push into a closed and full queue. */
  function DoDueEnqueue(s: State, t: nat, j: Job, at: int): State {
    match PushVerdict(s.ready, false)
    case Pushed => At(Place(s, j.id, Loc(InReady, 0, j)), t, [], PopDue(at)).(ready := AfterPush(s.ready, j, false))
    case MustWait => At(s, t, [], DueAwait(j, at))
    case _ => Leave(s, t, j, Lost, [], PopDue(at))
  }

  function DoDrain(s: State, t: nat, root: Option<Job>): State {
    match root
    case None => At(s, t, [], LoopDone)
    case Some(j) => Leave(s, t, j, Drained, Undo(j), Draining).(heap := s.heap - multiset{j})
  }

  function DoChoreOf(c: Config, s: State, t: nat, wrote: bool): State
    requires t in s.threads && s.threads[t].todo != []
  {
    var th := s.threads[t];
    var rest := At(s, t, th.todo[1..], th.pc);
    match th.todo[0]
    case ReleaseName(n, id) => if c.policy.Allow? then rest else rest.(flight := DropFlight(s.flight, n, id))
    case ForgetName(id) => rest.(names := s.names - {id})
    case LookUpName(id) =>
      if id in s.names
      then At(s, t, [ReleaseName(s.names[id], id), ForgetName(id)] + th.todo[1..], th.pc)
      else rest
    case DeleteRecord(id) => rest.(store := if c.hasStore && wrote then s.store - {id} else s.store)
    case SignalLoop => rest.(loopSignal := true)
  }

  function DoNextReplaced(s: State, t: nat, j: Job, pending: set<Id>, id: Id): State {
    At(s, t, [], CancelHeap(id, ToReplace(j, pending - {id})))
  }

  function DoAllReplaced(s: State, t: nat, j: Job): State {
    At(s, t, [], Naming(j))
  }

  function DoBeginCancel(s: State, t: nat, id: Id): State {
    At(s, t, [], CancelHeap(id, ToCaller))
  }

  function DoRecordName(s: State, t: nat, j: Job): State {
    At(s, t, [], CheckingRunning(j)).(names := s.names[j.id := j.name])
  }

  function DoRetryPush(s: State, t: nat, j: Job): State {
    At(s, t, [], Enqueueing(j))
  }

  function DoAbortPush(s: State, t: nat, j: Job): State {
    Leave(s, t, j, Rejected, Undo(j), Idle)
  }

  function DoBeginShutdown(s: State, t: nat): State {
    At(s, t, [], ShutStop).(running := false)
  }

  function DoStopLoop(s: State, t: nat): State {
    At(s, t, [], ShutClose).(stopping := true)
  }

  function DoCloseQueue(s: State, t: nat): State {
    At(s, t, [], Idle).(ready := s.ready.(closed := true))
  }

  function DoHandlerReturns(s: State, t: nat, j: Job, ok: bool): State {
    At(s, t, [], Handled(j, ok))
  }

  function DoLook(s: State, t: nat, root: Option<Job>): State {
    At(s, t, [], LoopWait(if root.Some? then Some(root.value.runAt) else None))
  }

  function DoSignalled(s: State, t: nat): State {
    At(s, t, [], LoopCheck).(loopSignal := false)
  }

  function DoTimerFires(s: State, t: nat): State {
    At(s, t, [], PopDue(s.now))
  }

  function DoStopped(s: State, t: nat): State {
    At(s, t, [], Draining)
  }

  function DoDueRetry(s: State, t: nat, j: Job, at: int): State {
    At(s, t, [], DuePush(j, at))
  }

  ghost function DoClient(c: Config, s: State, t: nat, pc: Pc, op: ClientOp): State
    requires ClientEnabled(c, s, pc, op)
  {
    match op
    case Submit(j) => DoSubmit(s, t, j)
    case Admit => DoAdmit(c, s, t, pc.job)
    case NextReplaced(id) => DoNextReplaced(s, t, pc.job, pc.pending, id)
    case AllReplaced => DoAllReplaced(s, t, pc.job)
    case BeginCancel(id) => DoBeginCancel(s, t, id)
    case RemoveFromHeap(entry) => DoRemoveFromHeap(s, t, pc.id, pc.ret, entry)
    case RemoveFromReady => DoRemoveFromReady(s, t, pc.id, pc.ret)
    case Entomb => DoEntomb(s, t, pc.id, pc.ret)
    case RecordName => DoRecordName(s, t, pc.job)
    case CheckRunning => DoCheckRunning(s, t, pc.job)
    case Persist(ok, wrote) => DoPersist(c, s, t, pc.job, pc.delayed, ok, wrote)
    case Enqueue => DoEnqueue(c, s, t, pc.job)
    case RetryPush => DoRetryPush(s, t, pc.job)
    case AbortPush => DoAbortPush(s, t, pc.job)
    case PushDelayed => DoPushDelayed(s, t, pc.job)
    case BeginShutdown => DoBeginShutdown(s, t)
    case StopLoop => DoStopLoop(s, t)
    case CloseQueue => DoCloseQueue(s, t)
  }

  function DoWork(c: Config, s: State, t: nat, pc: Pc, op: WorkerOp): State
    requires WorkerEnabled(s, pc, op)
  {
    match op
    case TakeReady => DoTakeReady(s, t)
    case FirstCheck => DoFirstCheck(s, t, pc.job)
    case StartHandler => DoStartHandler(c, s, t, pc.job)
    case HandlerReturns(ok) => DoHandlerReturns(s, t, pc.job, ok)
    case SecondCheck => DoSecondCheck(s, t, pc.job, pc.ok)
    case SaveRetry(wrote) => DoSaveRetry(c, s, t, pc.job, wrote)
    case Requeue => DoRequeue(s, t, pc.job)
  }

  ghost function DoLoop(s: State, t: nat, pc: Pc, op: LoopOp): State
    requires LoopEnabled(s, pc, op)
  {
    match op
    case Look(root) => DoLook(s, t, root)
    case Signalled => DoSignalled(s, t)
    case TimerFires => DoTimerFires(s, t)
    case Stopped => DoStopped(s, t)
    case TakeDue(root) => DoTakeDue(s, t, pc.at, root)
    case DueCheck => DoDueCheck(s, t, pc.job, pc.at)
    case DueEnqueue => DoDueEnqueue(s, t, pc.job, pc.at)
    case DueRetry => DoDueRetry(s, t, pc.job, pc.at)
    case Drain(root) => DoDrain(s, t, root)
  }

  ghost function Do(c: Config, s: State, a: Action): State
    requires Enabled(c, s, a)
  {
    match a
    case Tick(time) => s.(now := time)
    case DoChore(t, wrote) => DoChoreOf(c, s, t, wrote)
    case Client(t, op) => DoClient(c, s, t, s.threads[t].pc, op)
    case Work(t, op) => DoWork(c, s, t, s.threads[t].pc, op)
    case Loop(t, op) => DoLoop(s, t, s.threads[t].pc, op)
  }

  // ---- Runs ----

  /** Thread 0 is the delay loop; the others are workers or clients. */
  ghost predicate IsStart(c: Config, s: State) {
    && 0 in s.threads && s.threads[0] == Thread([], LoopCheck)
    && (forall t :: t in s.threads && t != 0 ==>
          s.threads[t] == Thread([], Idle) || s.threads[t] == Thread([], WorkerPop))
    && s.running && !s.stopping && !s.loopSignal
    && s.ready == Queue([], c.cap, false)
    && s.heap == multiset{} && s.flight == map[] && s.names == map[] && s.cancelled == {}
    && s.store == map[] && s.used == {} && s.submitted == map[] && s.where == map[] && s.seen == map[]
  }

  ghost predicate Step(c: Config, s: State, s': State) {
    exists a :: Enabled(c, s, a) && s' == Do(c, s, a)
  }

  ghost predicate Linked(c: Config, run: seq<State>, i: nat)
    requires i + 1 < |run|
  {
    Step(c, run[i], run[i + 1])
  }

  ghost predicate IsRun(c: Config, run: seq<State>) {
    && run != [] && IsStart(c, run[0])
    && forall i :: 0 <= i < |run| - 1 ==> Linked(c, run, i)
  }
}

/** What each step of the dispatcher does, in the terms the invariants need. */
module MachineEffects {
  import opened Wrappers
  import opened Jobs
  import opened ReadyQueues
  import opened Machine
  import opened MachineTokens
  import Backoff

  /** What a step does to the one job it is about. */
  datatype Move = Stay | Create(newJob: Job) | Shift(id: Id, to: Loc)

  datatype StoreChange = SameStore | Write(record: Job) | Erase(erased: Id)

  datatype FlightChange =
    | SameFlight
    | Enlist(name: Name, id: Id)
    | Supplant(name: Name, id: Id)
    | Unlist(name: Name, id: Id)

  datatype Delta = Delta(mv: Move, st: StoreChange, fl: FlightChange)

  // ---- The life of a job ----

  /** The roles a job goes through. */
  predicate Follows(from: Role, to: Role) {
    match from
    case Fresh => to.Admitted? || to.Rejected?
    case Admitted => to.Saved? || to.Rejected?
    case Saved => to.InReady? || to.InHeap? || to.Rejected?
    case InHeap => to.AtLoop? || to.Removed? || to.Drained?
    case AtLoop => to.InReady? || to.Discarded? || to.Lost?
    case InReady => to.AtWorker? || to.Removed?
    case AtWorker => to.Ran? || to.InHeap? || to.Discarded? || to.Finished?
    case Ran => to.AtWorker? || to.Discarded? || to.Finished?
    case _ => false
  }

  /** The next attempt of a failed job, due after its backoff delay. */
  predicate RetryOf(j: Job, next: Job, now: int) {
    Retries(j) && next == j.(attempt := j.attempt + 1, runAt := now + Backoff.Delay(j.retryDelay, j.attempt))
  }

  /** The handler is started by a thread past the first check of the job. */
  predicate Activates(threads: map<nat, Thread>, threads': map<nat, Thread>, t: nat, id: Id) {
    && t in threads && t in threads'
    && threads[t].pc.LookingUp? && threads[t].pc.job.id == id && !threads'[t].pc.LookingUp?
  }

  /** A job keeps its entry as it moves, except that an activation is recorded and a retry is a new attempt. */
  predicate ShiftOk(s: State, s': State, t: nat, id: Id, to: Loc) {
    && id in s.where && Follows(s.where[id].role, to.role) && (IsHand(s.where[id].role) ==> s.where[id].t == t)
    && s'.where == s.where[id := to] && (!IsHand(to.role) ==> to.t == 0)
    && s'.submitted == s.submitted && s'.used == s.used
    && var from := s.where[id];
       && (if from.role.Ran? && to.role.AtWorker? then RetryOf(from.job, to.job, s.now) else to.job == from.job)
       && (if to.role.Ran? then s'.seen == s.seen[id := SeenBy(s, id) + [from.job.attempt]] else s'.seen == s.seen)
       && (to.role.Ran? ==> Activates(s.threads, s'.threads, t, id))
  }

  predicate MoveOk(c: Config, s: State, s': State, t: nat, mv: Move) {
    match mv
    case Stay => s'.where == s.where && s'.submitted == s.submitted && s'.used == s.used && s'.seen == s.seen
    case Create(j) =>
      && NewJob(c, s, j)
      && s'.where == s.where[j.id := Loc(Fresh, t, j)]
      && s'.submitted == s.submitted[j.id := j] && s'.used == s.used + {j.id} && s'.seen == s.seen[j.id := []]
    case Shift(id, to) => ShiftOk(s, s', t, id, to)
  }

  /** The job a cancellation has taken out of a container, or is about to look for there. */
  function TombDue(pc: Pc): Option<Id> {
    match pc
    case CancelReady(id, _) => Some(id)
    case CancelTomb(id, _) => Some(id)
    case _ => None
  }

  /** Why thread t could move the job to its role. */
  predicate Reason(c: Config, s: State, s': State, t: nat, id: Id, to: Role) {
    match to
    case Discarded => id in s'.cancelled && t in s.threads && !Retrying(s.threads[t].pc)
    case Removed => t in s'.threads && TombDue(s'.threads[t].pc) == Some(id)
    case Lost => s'.ready.closed
    case Drained => s'.stopping
    case InReady => s.ready.cap > 0
    case AtWorker => id in s.where && (s.where[id].role.Ran? ==> IsRetrying(s', t, id))
    case Saved => t in s.threads && s.threads[t].pc.Persisting? && s.threads[t].pc.job.id == id
    case Finished => id in s.where && (s.where[id].role.Ran? || s.where[id].job.name !in c.handlers)
    case _ => true
  }

  predicate EndOk(c: Config, s: State, s': State, t: nat, mv: Move) {
    && s'.ready.cap == s.ready.cap
    && (s.stopping ==> s'.stopping) && (s.ready.closed ==> s'.ready.closed) && (s'.running ==> s.running)
    && (mv.Shift? ==> Reason(c, s, s', t, mv.id, mv.to.role))
  }

  // ---- Store ----

  /** The job has been accepted, or is about to be, and has not come to its end. */
  predicate NeedsRecord(r: Role) {
    r.Saved? || r.InHeap? || r.AtLoop? || r.InReady? || r.AtWorker? || r.Ran? || r.Lost? || r.Removed?
  }

  function Written(store: map<Id, Job>, st: StoreChange): map<Id, Job> {
    match st
    case SameStore => store
    case Write(j) => store[j.id := j]
    case Erase(id) => store - {id}
  }

  predicate IsRetrying(s: State, t: nat, id: Id) {
    t in s.threads && Retrying(s.threads[t].pc) && s.threads[t].pc.job.id == id
  }

  /** A job is saved as it leaves Persist, or by its retry; a record is erased by a chore of thread t. */
  predicate StoreOk(c: Config, s: State, s': State, t: nat, d: Delta) {
    && s'.store == Written(s.store, d.st)
    && t in s.threads
    && match d.st
       case SameStore => d.mv.Shift? && d.mv.to.role.Saved? ==> !c.hasStore
       case Write(j) =>
         || (d.mv == Shift(j.id, Loc(Saved, t, j)) && j.id in s.where && s.where[j.id].job == j)
         || (d.mv == Shift(j.id, Loc(Rejected, 0, j)) && !c.reliable)
         || (d.mv.Stay? && j.id in s.where && s.where[j.id].job.attempt > 0 && IsRetrying(s', t, j.id))
       case Erase(id) => d.mv.Stay? && DeleteRecord(id) in s.threads[t].todo
  }

  // ---- Chores ----

  predicate Deletable(s: State, id: Id) {
    || id in s.cancelled
    || (id in s.where && (s.where[id].job.attempt > 0 || (IsGone(s.where[id].role) && !NeedsRecord(s.where[id].role))))
  }

  predicate Releasable(s: State, id: Id) {
    || id in s.cancelled
    || (id in s.where && (s.where[id].job.attempt > 0 || IsGone(s.where[id].role)))
  }

  predicate ChoreOk(s: State, ch: Chore) {
    match ch
    case ReleaseName(n, id) => Releasable(s, id)
    case DeleteRecord(id) => Deletable(s, id)
    case LookUpName(id) => id in s.cancelled
    case _ => true
  }

  ghost predicate Owed(s: State, before: seq<Chore>, after: seq<Chore>) {
    forall ch :: ch in after ==> ch in before || ChoreOk(s, ch)
  }

  /** Only thread t moves; its chores after the step are old ones or justified. */
  ghost predicate TodoOk(s: State, s': State, t: nat) {
    && t in s.threads && t in s'.threads
    && s'.threads == s.threads[t := s'.threads[t]]
    && s.cancelled <= s'.cancelled
    && Owed(s', s.threads[t].todo, s'.threads[t].todo)
  }

  // ---- In-flight table ----

  /** The job has passed applyConflict and has not come to its end. */
  predicate Live(r: Role) {
    !r.Fresh? && !IsGone(r)
  }

  function PendingOfReturn(id: Id, ret: Return): set<Id> {
    if ret.ToReplace? then ret.pending + {id} else {}
  }

  /** The replaced jobs a submission still has to cancel. */
  function PendingOf(pc: Pc): set<Id> {
    match pc
    case Replacing(_, pending) => pending
    case CancelHeap(id, ret) => PendingOfReturn(id, ret)
    case CancelReady(id, ret) => PendingOfReturn(id, ret)
    case CancelTomb(id, ret) => PendingOfReturn(id, ret)
    case _ => {}
  }

  function Listed(flight: map<Name, set<Id>>, fl: FlightChange): map<Name, set<Id>> {
    match fl
    case SameFlight => flight
    case Enlist(n, id) => AddFlight(flight, n, id)
    case Supplant(n, id) => AddFlight(flight - {n}, n, id)
    case Unlist(n, id) => DropFlight(flight, n, id)
  }

  predicate Admits(mv: Move, n: Name, id: Id) {
    mv.Shift? && mv.id == id && mv.to.role.Admitted? && mv.to.job.name == n
  }

  /** A job is listed as it is admitted: alone, or in place of jobs that become pending; it is unlisted by a
      chore of thread t; pending jobs stay pending until they are tombstoned. */
  predicate FlightOk(c: Config, s: State, s': State, t: nat, d: Delta) {
    && t in s.threads && t in s'.threads
    && s'.flight == Listed(s.flight, d.fl)
    && PendingOf(s.threads[t].pc) <= PendingOf(s'.threads[t].pc) + s'.cancelled
    && (c.policy.Allow? ==> d.fl.SameFlight?)
    && match d.fl
       case SameFlight => d.mv.Shift? && d.mv.to.role.Admitted? ==> c.policy.Allow?
       case Enlist(n, id) => FlightSet(s.flight, n) == {} && Admits(d.mv, n, id)
       case Supplant(n, id) => FlightSet(s.flight, n) <= PendingOf(s'.threads[t].pc) && Admits(d.mv, n, id)
       case Unlist(n, id) => d.mv.Stay? && ReleaseName(n, id) in s.threads[t].todo
  }

  // ---- Program counters and wake-ups ----

  predicate Retrying(pc: Pc) {
    pc.SavingRetry? || pc.Requeueing?
  }

  predicate InLoop(pc: Pc) {
    || pc.LoopCheck? || pc.LoopWait? || pc.Draining? || pc.LoopDone?
    || pc.PopDue? || pc.DueHas? || pc.DuePush? || pc.DueAwait?
  }

  /** Only a second attempt is on its way back, only a job not tombstoned passes the first check, only the loop
      stays in the loop, a cancellation goes on to its tombstone, a worker ends at a closed and empty queue, and the
      loop at an empty heap. */
  predicate PcOk(s: State, s': State, t: nat) {
    && t in s.threads && t in s'.threads
    && var pc, pc' := s.threads[t].pc, s'.threads[t].pc;
       && (Retrying(pc') ==> pc'.job.attempt > 0 || (Retrying(pc) && pc.job == pc'.job))
       && (pc'.LookingUp? ==> pc'.job.id !in s.cancelled || (pc.LookingUp? && pc.job == pc'.job))
       && (InLoop(pc') ==> InLoop(pc))
       && (pc'.Persisting? ==> s.running || (pc.Persisting? && pc.job == pc'.job))
       && (pc'.Draining? ==> pc.Draining? || s'.stopping)
       && (TombDue(pc).Some? ==> TombDue(pc') == TombDue(pc) || TombDue(pc).value in s'.cancelled)
       && (pc'.WorkerDone? ==> pc.WorkerDone? || (s.ready.closed && s.ready.items == []))
       && (pc'.LoopDone? ==> pc.LoopDone? || (pc.Draining? && s.heap == multiset{}))
  }

  /** A heap insertion leaves its thread owing a signal, a signal owed is not forgotten, the loop takes the
      token only to look again, and it goes to sleep only after looking at the root. */
  ghost predicate WakeOk(s: State, s': State, t: nat) {
    && t in s.threads && t in s'.threads
    && (s'.heap == s.heap || NoneNew(s.heap, s'.heap) || SignalLoop in s'.threads[t].todo)
    && (SignalLoop in s.threads[t].todo ==> SignalLoop in s'.threads[t].todo || s'.loopSignal)
    && (s.loopSignal ==> s'.loopSignal || s'.threads[t].pc.LoopCheck?)
    && (s'.threads[t].pc.LoopWait? ==>
          || s'.threads[t].pc == s.threads[t].pc
          || (s'.heap == s.heap && LooksAhead(s.heap, s'.threads[t].pc.target)))
  }

  ghost predicate NoneNew(heap: multiset<Job>, heap': multiset<Job>) {
    forall e :: e in heap' ==> e in heap
  }

  /** Nothing in the heap is due before the target. */
  ghost predicate LooksAhead(heap: multiset<Job>, target: Option<int>) {
    forall e :: e in heap ==> target.Some? && target.value <= e.runAt
  }

  /** The thread carries a job whose time has come. */
  predicate CarriesDue(pc: Pc) {
    || (pc.Persisting? && !pc.delayed) || pc.Enqueueing? || pc.AwaitingRoom?
    || pc.DueHas? || pc.DuePush? || pc.DueAwait?
    || pc.WorkerHas? || pc.LookingUp? || pc.Handling? || pc.Handled?
  }

  /** The instant popDue has read from the clock. */
  function ClockRead(pc: Pc): Option<int> {
    match pc
    case PopDue(at) => Some(at)
    case DueHas(_, at) => Some(at)
    case DuePush(_, at) => Some(at)
    case DueAwait(_, at) => Some(at)
    case _ => None
  }

  predicate NoneAdded(items: seq<Job>, items': seq<Job>) {
    forall e :: e in items' ==> e in items
  }

  /** A due job is one whose time has come by the clock or by popDue's reading of it, or that waited in the
      ready queue; only a due job enters the ready queue. */
  predicate DueOk(s: State, s': State, t: nat) {
    && t in s.threads && t in s'.threads && s'.now == s.now
    && var pc, pc' := s.threads[t].pc, s'.threads[t].pc;
       && (CarriesDue(pc') ==>
             || (CarriesDue(pc) && pc'.job == pc.job) || RunsNow(pc'.job, s.now) || pc'.job in s.ready.items
             || (ClockRead(pc).Some? && pc'.job.runAt <= ClockRead(pc).value))
       && (ClockRead(pc').Some? ==> ClockRead(pc') == ClockRead(pc) || ClockRead(pc') == Some(s.now))
       && (|| s'.ready.items == s.ready.items || NoneAdded(s.ready.items, s'.ready.items)
           || (CarriesDue(pc) && s'.ready.items == s.ready.items + [pc.job]))
  }

  /** The admitted job the thread carries, while its name is not recorded yet. */
  function Unnamed(pc: Pc): Option<Job> {
    match pc
    case Replacing(j, _) => Some(j)
    case CancelHeap(_, ret) => UnnamedOf(ret)
    case CancelReady(_, ret) => UnnamedOf(ret)
    case CancelTomb(_, ret) => UnnamedOf(ret)
    case Naming(j) => Some(j)
    case _ => None
  }

  function UnnamedOf(ret: Return): Option<Job> {
    match ret
    case ToCaller => None
    case ToReplace(j, _) => Some(j)
  }

  /** The chores of an operation that is done with the job. */
  predicate Clears(todo: seq<Chore>, j: Job) {
    todo == Release(j) || todo == Cleanup(j) || todo == Undo(j) || todo == [SignalLoop] + Cleanup(j)
  }

  /** The chores of an operation that is done with the job and its record. */
  predicate ClearsRecord(todo: seq<Chore>, j: Job) {
    todo == Cleanup(j) || todo == Undo(j) || todo == [SignalLoop] + Cleanup(j)
  }

  /** The moves of a saved job that take on the deletion of its record. */
  predicate MustErase(from: Role, to: Role) {
    || to.Finished? || to.Drained? || (to.Rejected? && from.Saved?)
    || (to.Discarded? && from.Ran?) || (to.InHeap? && from.AtWorker?)
  }

  /** The job a cancellation is about. */
  function Victim(pc: Pc): Option<Id> {
    match pc
    case CancelHeap(id, _) => Some(id)
    case CancelReady(id, _) => Some(id)
    case CancelTomb(id, _) => Some(id)
    case _ => None
  }

  /** The thread is cancelling the jobs its submission replaces. */
  predicate InReplace(pc: Pc) {
    match pc
    case Replacing(_, _) => true
    case CancelHeap(_, ret) => ret.ToReplace?
    case CancelReady(_, ret) => ret.ToReplace?
    case CancelTomb(_, ret) => ret.ToReplace?
    case _ => false
  }

  predicate Ends(r: Role) {
    r.Rejected? || r.Discarded? || r.Finished? || r.Drained?
  }

  function TombChores(id: Id): seq<Chore> {
    [LookUpName(id), DeleteRecord(id)]
  }

  /** A free thread takes on chores only to clear the job that it moves or that it tombstones, and then it does;
      the name of an admitted job is recorded once. */
  predicate TakesOn(c: Config, s: State, s': State, t: nat, mv: Move) {
    && t in s.threads && t in s'.threads
    && var pc, pc', todo' := s.threads[t].pc, s'.threads[t].pc, s'.threads[t].todo;
       && (|| todo' == [] || todo' == [SignalLoop] || (mv.Shift? && Clears(todo', mv.to.job))
           || (TombDue(pc).Some? && todo' == TombChores(TombDue(pc).value)))
       && (mv.Shift? && Ends(mv.to.role) && mv.id in s.where && !s.where[mv.id].role.Fresh? ==>
             Clears(todo', mv.to.job))
       && (mv.Shift? && mv.id in s.where && MustErase(s.where[mv.id].role, mv.to.role) ==>
             ClearsRecord(todo', mv.to.job))
       && (|| s'.cancelled == s.cancelled
           || (pc.CancelTomb? && s'.cancelled == s.cancelled + {pc.id} && todo' == TombChores(pc.id)))
       && (Victim(pc').Some? ==> Victim(pc') == Victim(pc) || StatusKnown(s, Victim(pc').value) || InReplace(pc))
       && (Victim(pc').Some? ==> Victim(pc') == Victim(pc) || pc.Idle? || Victim(pc').value in PendingOf(pc))
       && PendingOf(pc') <= PendingOf(pc) + (if pc.Admitting? then FlightSet(s.flight, pc.job.name) else {})
       && (InReplace(pc') ==> InReplace(pc) || c.policy.Replace?)
       && (Retrying(pc) ==>
             IsRetrying(s', t, pc.job.id) || (mv.Shift? && mv.id == pc.job.id && mv.to.role.InHeap?))
       && (TombDue(pc).Some? ==> TombDue(pc') == TombDue(pc) || todo' == TombChores(TombDue(pc).value))
       && (mv.Shift? && mv.to.role.Admitted? ==> Unnamed(pc') == Some(mv.to.job))
       && (Unnamed(pc).Some? && Unnamed(pc') != Unnamed(pc) ==>
             s'.names == s.names[Unnamed(pc).value.id := Unnamed(pc).value.name])
       && (Unnamed(pc).None? || Unnamed(pc') == Unnamed(pc) ==> s'.names == s.names)
  }

  /** A thread with chores does the first and nothing else. */
  predicate DoesFirst(c: Config, s: State, s': State, t: nat, mv: Move) {
    && t in s.threads && t in s'.threads && s.threads[t].todo != []
    && var todo := s.threads[t].todo;
       && s'.threads[t].pc == s.threads[t].pc && mv.Stay? && s'.cancelled == s.cancelled
       && (todo[0].DeleteRecord? && c.reliable && c.hasStore ==> todo[0].id !in s'.store)
       && s'.threads[t].todo == AfterFirst(s.names, todo)
       && s'.names == (if todo[0].ForgetName? then s.names - {todo[0].id} else s.names)
       && s'.flight == (if todo[0].ReleaseName? && !c.policy.Allow? then DropFlight(s.flight, todo[0].name, todo[0].id)
                        else s.flight)
  }

  /** The chores a looked-up name turns into. */
  function Expanded(names: map<Id, Name>, ch: Chore): seq<Chore> {
    if ch.LookUpName? && ch.id in names then [ReleaseName(names[ch.id], ch.id), ForgetName(ch.id)] else []
  }

  function AfterFirst(names: map<Id, Name>, todo: seq<Chore>): seq<Chore>
    requires todo != []
  {
    var front := Expanded(names, todo[0]);
    if front == [] then todo[1..] else front + todo[1..]
  }

  predicate OweOk(c: Config, s: State, s': State, t: nat, mv: Move) {
    && t in s.threads
    && if s.threads[t].todo == [] then TakesOn(c, s, s', t, mv) else DoesFirst(c, s, s', t, mv)
  }

  /** What a step does to the job it is about, to the store and to the in-flight table. */
  ghost predicate Ledger(c: Config, s: State, s': State, t: nat, d: Delta) {
    MoveOk(c, s, s', t, d.mv) && EndOk(c, s, s', t, d.mv) && StoreOk(c, s, s', t, d) && FlightOk(c, s, s', t, d)
  }

  /** What a step does to the course of its thread. */
  ghost predicate Course(c: Config, s: State, s': State, t: nat, mv: Move) {
    TodoOk(s, s', t) && PcOk(s, s', t) && WakeOk(s, s', t) && DueOk(s, s', t) && OweOk(c, s, s', t, mv)
  }

  ghost predicate Effect(c: Config, s: State, s': State, t: nat, d: Delta) {
    Ledger(c, s, s', t, d) && Course(c, s, s', t, d.mv)
  }

  /** Free thread t holds job j in role r. */
  predicate Holds(s: State, t: nat, r: Role, j: Job) {
    Free(s, t) && j.id in s.where && s.where[j.id] == Loc(r, t, j)
  }

  /** The container of role r holds job j. */
  predicate Kept(s: State, r: Role, j: Job) {
    j.id in s.where && s.where[j.id] == Loc(r, 0, j)
  }

  lemma ReleaseOwed(s: State, j: Job)
    requires Releasable(s, j.id)
    ensures Owed(s, [], Release(j))
  {
  }

  lemma CleanupOwed(s: State, j: Job)
    requires Releasable(s, j.id) && Deletable(s, j.id)
    ensures Owed(s, [], Cleanup(j)) && Owed(s, [], Undo(j)) && Owed(s, [], [SignalLoop] + Cleanup(j))
  {
  }

  lemma LookUpOwed(s: State, n: Name, id: Id, before: seq<Chore>, rest: seq<Chore>)
    requires Releasable(s, id) && forall ch :: ch in rest ==> ch in before
    ensures Owed(s, before, [ReleaseName(n, id), ForgetName(id)] + rest)
    ensures SignalLoop in rest ==> SignalLoop in [ReleaseName(n, id), ForgetName(id)] + rest
  {
    var both := [ReleaseName(n, id), ForgetName(id)] + rest;
    assert forall k :: 0 <= k < |rest| ==> both[k + 2] == rest[k];
  }

  function Staying(): Delta {
    Delta(Stay, SameStore, SameFlight)
  }

  function Moving(j: Job, to: Loc): Delta {
    Delta(Shift(j.id, to), SameStore, SameFlight)
  }

  // ---- Client steps ----

  lemma SubmitLedger(c: Config, s: State, t: nat, j: Job)
    requires Free(s, t) && s.threads[t].pc.Idle? && NewJob(c, s, j) && s.where.Keys == s.used
    ensures Ledger(c, s, DoSubmit(s, t, j), t, Delta(Create(j), SameStore, SameFlight))
  {
  }

  lemma SubmitCourse(c: Config, s: State, t: nat, j: Job)
    requires Free(s, t) && s.threads[t].pc.Idle? && NewJob(c, s, j) && s.where.Keys == s.used
    ensures Course(c, s, DoSubmit(s, t, j), t, Create(j))
  {
  }

  lemma AdmitAnyEffect(c: Config, s: State, t: nat, j: Job)
    requires Holds(s, t, Fresh, j) && s.threads[t].pc == Admitting(j)
    requires c.policy.Allow?
    ensures Effect(c, s, DoAdmit(c, s, t, j), t, Moving(j, Loc(Admitted, t, j)))
  {
    hide AddFlight;
  }

  lemma AdmitSkippedEffect(c: Config, s: State, t: nat, j: Job)
    requires Holds(s, t, Fresh, j) && s.threads[t].pc == Admitting(j)
    requires !c.policy.Allow? && c.policy.Skip? && FlightSet(s.flight, j.name) != {}
    ensures Effect(c, s, DoAdmit(c, s, t, j), t, Moving(j, Loc(Rejected, 0, j)))
  {
    hide AddFlight;
  }

  lemma AdmitAloneEffect(c: Config, s: State, t: nat, j: Job)
    requires Holds(s, t, Fresh, j) && s.threads[t].pc == Admitting(j)
    requires !c.policy.Allow? && !(c.policy.Skip? && FlightSet(s.flight, j.name) != {}) && c.policy.Skip?
    ensures Effect(c, s, DoAdmit(c, s, t, j), t,
                   Delta(Shift(j.id, Loc(Admitted, t, j)), SameStore, Enlist(j.name, j.id)))
  {
    hide AddFlight;
  }

  lemma AdmitInsteadEffect(c: Config, s: State, t: nat, j: Job)
    requires Holds(s, t, Fresh, j) && s.threads[t].pc == Admitting(j)
    requires !c.policy.Allow? && !(c.policy.Skip? && FlightSet(s.flight, j.name) != {}) && !c.policy.Skip?
    ensures Effect(c, s, DoAdmit(c, s, t, j), t,
                   Delta(Shift(j.id, Loc(Admitted, t, j)), SameStore, Supplant(j.name, j.id)))
  {
    hide AddFlight;
  }

  lemma NextReplacedEffect(c: Config, s: State, t: nat, j: Job, pending: set<Id>, id: Id)
    requires Free(s, t) && s.threads[t].pc == Replacing(j, pending) && id in pending
    ensures Effect(c, s, DoNextReplaced(s, t, j, pending, id), t, Staying())
  {
  }

  lemma AllReplacedEffect(c: Config, s: State, t: nat, j: Job)
    requires Free(s, t) && s.threads[t].pc == Replacing(j, {})
    ensures Effect(c, s, DoAllReplaced(s, t, j), t, Staying())
  {
  }

  lemma BeginCancelEffect(c: Config, s: State, t: nat, id: Id)
    requires Free(s, t) && s.threads[t].pc.Idle? && StatusKnown(s, id)
    ensures Effect(c, s, DoBeginCancel(s, t, id), t, Staying())
  {
  }

  lemma CancelHeapMissEffect(c: Config, s: State, t: nat, id: Id, ret: Return, entry: Option<Job>)
    requires Free(s, t) && s.threads[t].pc == CancelHeap(id, ret) && IsVictim(s.heap, id, entry)
    requires entry.None?
    ensures Effect(c, s, DoRemoveFromHeap(s, t, id, ret, entry), t, Staying())
  {
    hide FlightSet, StatusKnown, RunsNow;
  }

  lemma CancelHeapHitLedger(c: Config, s: State, t: nat, id: Id, ret: Return, entry: Option<Job>)
    requires Free(s, t) && s.threads[t].pc == CancelHeap(id, ret) && IsVictim(s.heap, id, entry)
    requires entry.Some? && Kept(s, InHeap, entry.value)
    ensures Ledger(c, s, DoRemoveFromHeap(s, t, id, ret, entry), t, Moving(entry.value, Loc(Removed, 0, entry.value)))
  {
  }

  lemma CancelHeapHitCourse(c: Config, s: State, t: nat, id: Id, ret: Return, entry: Option<Job>)
    requires Free(s, t) && s.threads[t].pc == CancelHeap(id, ret) && IsVictim(s.heap, id, entry)
    requires entry.Some? && Kept(s, InHeap, entry.value)
    ensures Course(c, s, DoRemoveFromHeap(s, t, id, ret, entry), t, Shift(entry.value.id, Loc(Removed, 0, entry.value)))
  {
  }

  lemma CancelReadyMissEffect(c: Config, s: State, t: nat, id: Id, ret: Return)
    requires Free(s, t) && s.threads[t].pc == CancelReady(id, ret)
    requires Find(s.ready.items, id) == -1
    ensures Effect(c, s, DoRemoveFromReady(s, t, id, ret), t, Staying())
  {
    hide Find;
  }

  lemma CancelReadyHitLedger(c: Config, s: State, t: nat, id: Id, ret: Return, k: nat)
    requires Free(s, t) && s.threads[t].pc == CancelReady(id, ret)
    requires k == Find(s.ready.items, id) && Kept(s, InReady, s.ready.items[k])
    ensures Ledger(c, s, DoRemoveFromReady(s, t, id, ret), t,
                   Moving(s.ready.items[k], Loc(Removed, 0, s.ready.items[k])))
  {
    hide Find;
  }

  lemma CancelReadyHitCourse(c: Config, s: State, t: nat, id: Id, ret: Return, k: nat)
    requires Free(s, t) && s.threads[t].pc == CancelReady(id, ret)
    requires k == Find(s.ready.items, id) && Kept(s, InReady, s.ready.items[k])
    ensures Course(c, s, DoRemoveFromReady(s, t, id, ret), t,
                   Shift(s.ready.items[k].id, Loc(Removed, 0, s.ready.items[k])))
  {
    hide Find;
  }

  lemma EntombEndEffect(c: Config, s: State, t: nat, id: Id, ret: Return)
    requires Free(s, t) && s.threads[t].pc == CancelTomb(id, ret)
    requires ret.ToCaller?
    ensures Effect(c, s, DoEntomb(s, t, id, ret), t, Staying())
  {
  }

  lemma EntombOnEffect(c: Config, s: State, t: nat, id: Id, ret: Return)
    requires Free(s, t) && s.threads[t].pc == CancelTomb(id, ret)
    requires !ret.ToCaller?
    ensures Effect(c, s, DoEntomb(s, t, id, ret), t, Staying())
  {
    hide FlightSet, StatusKnown, RunsNow;
  }

  lemma RecordNameEffect(c: Config, s: State, t: nat, j: Job)
    requires Free(s, t) && s.threads[t].pc == Naming(j)
    ensures Effect(c, s, DoRecordName(s, t, j), t, Staying())
  {
    hide FlightSet, StatusKnown, RunsNow;
  }

  lemma CheckRunningPassEffect(c: Config, s: State, t: nat, j: Job)
    requires Holds(s, t, Admitted, j) && s.threads[t].pc == CheckingRunning(j)
    requires s.running
    ensures Effect(c, s, DoCheckRunning(s, t, j), t, Staying())
  {
    hide Release, RunsNow;
  }

  lemma CheckRunningFailLedger(c: Config, s: State, t: nat, j: Job)
    requires Holds(s, t, Admitted, j) && s.threads[t].pc == CheckingRunning(j)
    requires !s.running
    ensures Ledger(c, s, DoCheckRunning(s, t, j), t, Moving(j, Loc(Rejected, 0, j)))
  {
    hide Release, RunsNow;
  }

  lemma CheckRunningFailCourse(c: Config, s: State, t: nat, j: Job)
    requires Holds(s, t, Admitted, j) && s.threads[t].pc == CheckingRunning(j)
    requires !s.running
    ensures Course(c, s, DoCheckRunning(s, t, j), t, Shift(j.id, Loc(Rejected, 0, j)))
  {
    ReleaseOwed(DoCheckRunning(s, t, j), j);
    hide Release, Owed, RunsNow;
  }

  lemma PersistNoneLedger(c: Config, s: State, t: nat, j: Job, delayed: bool, ok: bool, wrote: bool)
    requires Holds(s, t, Admitted, j) && s.threads[t].pc == Persisting(j, delayed)
    requires !c.hasStore
    ensures Ledger(c, s, DoPersist(c, s, t, j, delayed, ok, wrote), t, Moving(j, Loc(Saved, t, j)))
  {
    hide Release;
  }

  lemma PersistNoneCourse(c: Config, s: State, t: nat, j: Job, delayed: bool, ok: bool, wrote: bool)
    requires Holds(s, t, Admitted, j) && s.threads[t].pc == Persisting(j, delayed)
    requires !c.hasStore
    ensures Course(c, s, DoPersist(c, s, t, j, delayed, ok, wrote), t, Shift(j.id, Loc(Saved, t, j)))
  {
    hide Release;
  }

  lemma PersistSavedLedger(c: Config, s: State, t: nat, j: Job, delayed: bool, ok: bool, wrote: bool)
    requires Holds(s, t, Admitted, j) && s.threads[t].pc == Persisting(j, delayed)
    requires c.hasStore && ok
    ensures Ledger(c, s, DoPersist(c, s, t, j, delayed, ok, wrote), t,
                   Delta(Shift(j.id, Loc(Saved, t, j)), Write(j), SameFlight))
  {
    hide Release;
  }

  lemma PersistSavedCourse(c: Config, s: State, t: nat, j: Job, delayed: bool, ok: bool, wrote: bool)
    requires Holds(s, t, Admitted, j) && s.threads[t].pc == Persisting(j, delayed)
    requires c.hasStore && ok
    ensures Course(c, s, DoPersist(c, s, t, j, delayed, ok, wrote), t, Shift(j.id, Loc(Saved, t, j)))
  {
    hide Release;
  }

  lemma PersistFailedIs(c: Config, s: State, t: nat, j: Job, delayed: bool, ok: bool, wrote: bool)
    requires Holds(s, t, Admitted, j) && s.threads[t].pc == Persisting(j, delayed)
    requires c.hasStore && !ok
    ensures DoPersist(c, s, t, j, delayed, ok, wrote) ==
            Leave(s, t, j, Rejected, Release(j), Idle).(store := if wrote then s.store[j.id := j] else s.store)
  {
  }

  lemma PersistFailedLedger(c: Config, s: State, t: nat, j: Job, delayed: bool, ok: bool, wrote: bool)
    requires Holds(s, t, Admitted, j) && s.threads[t].pc == Persisting(j, delayed)
    requires c.hasStore && !ok && (c.reliable ==> !wrote)
    ensures Ledger(c, s, DoPersist(c, s, t, j, delayed, ok, wrote), t,
                   Delta(Shift(j.id, Loc(Rejected, 0, j)), if wrote then Write(j) else SameStore, SameFlight))
  {
    PersistFailedIs(c, s, t, j, delayed, ok, wrote);
    hide Release, DoPersist;
  }

  lemma PersistFailedCourse(c: Config, s: State, t: nat, j: Job, delayed: bool, ok: bool, wrote: bool)
    requires Holds(s, t, Admitted, j) && s.threads[t].pc == Persisting(j, delayed)
    requires c.hasStore && !ok
    ensures Course(c, s, DoPersist(c, s, t, j, delayed, ok, wrote), t, Shift(j.id, Loc(Rejected, 0, j)))
  {
    PersistFailedIs(c, s, t, j, delayed, ok, wrote);
    ReleaseOwed(DoPersist(c, s, t, j, delayed, ok, wrote), j);
    hide Release, Owed, DoPersist;
  }

  lemma EnqueueDoneLedger(c: Config, s: State, t: nat, j: Job)
    requires Holds(s, t, Saved, j) && s.threads[t].pc == Enqueueing(j)
    requires PushVerdict(s.ready, c.drop).Pushed?
    ensures Ledger(c, s, DoEnqueue(c, s, t, j), t, Moving(j, Loc(InReady, 0, j)))
  {
    hide Undo;
  }

  lemma EnqueueDoneCourse(c: Config, s: State, t: nat, j: Job)
    requires Holds(s, t, Saved, j) && s.threads[t].pc == Enqueueing(j)
    requires PushVerdict(s.ready, c.drop).Pushed?
    ensures Course(c, s, DoEnqueue(c, s, t, j), t, Shift(j.id, Loc(InReady, 0, j)))
  {
    hide Undo;
  }

  lemma EnqueueWaitEffect(c: Config, s: State, t: nat, j: Job)
    requires Holds(s, t, Saved, j) && s.threads[t].pc == Enqueueing(j)
    requires !(PushVerdict(s.ready, c.drop).Pushed?) && PushVerdict(s.ready, c.drop).MustWait?
    ensures Effect(c, s, DoEnqueue(c, s, t, j), t, Staying())
  {
    hide Undo;
  }

  lemma EnqueueFailedIs(c: Config, s: State, t: nat, j: Job)
    requires Holds(s, t, Saved, j) && s.threads[t].pc == Enqueueing(j)
    requires !(PushVerdict(s.ready, c.drop).Pushed?) && !(PushVerdict(s.ready, c.drop).MustWait?)
    ensures DoEnqueue(c, s, t, j) ==
            Leave(s, t, j, Rejected, Undo(j), Idle)
  {
  }

  lemma EnqueueFailedLedger(c: Config, s: State, t: nat, j: Job)
    requires Holds(s, t, Saved, j) && s.threads[t].pc == Enqueueing(j)
    requires !(PushVerdict(s.ready, c.drop).Pushed?) && !(PushVerdict(s.ready, c.drop).MustWait?)
    ensures Ledger(c, s, DoEnqueue(c, s, t, j), t, Moving(j, Loc(Rejected, 0, j)))
  {
    EnqueueFailedIs(c, s, t, j);
    hide Undo, DoEnqueue;
  }

  lemma EnqueueFailedCourse(c: Config, s: State, t: nat, j: Job)
    requires Holds(s, t, Saved, j) && s.threads[t].pc == Enqueueing(j)
    requires !(PushVerdict(s.ready, c.drop).Pushed?) && !(PushVerdict(s.ready, c.drop).MustWait?)
    ensures Course(c, s, DoEnqueue(c, s, t, j), t, Shift(j.id, Loc(Rejected, 0, j)))
  {
    EnqueueFailedIs(c, s, t, j);
    CleanupOwed(DoEnqueue(c, s, t, j), j);
    hide Undo, Owed, DoEnqueue;
  }

  lemma RetryPushEffect(c: Config, s: State, t: nat, j: Job)
    requires Free(s, t) && s.threads[t].pc == AwaitingRoom(j)
    ensures Effect(c, s, DoRetryPush(s, t, j), t, Staying())
  {
  }

  lemma AbortPushLedger(c: Config, s: State, t: nat, j: Job)
    requires Holds(s, t, Saved, j) && s.threads[t].pc == AwaitingRoom(j)
    ensures Ledger(c, s, DoAbortPush(s, t, j), t, Moving(j, Loc(Rejected, 0, j)))
  {
    hide Undo;
  }

  lemma AbortPushCourse(c: Config, s: State, t: nat, j: Job)
    requires Holds(s, t, Saved, j) && s.threads[t].pc == AwaitingRoom(j)
    ensures Course(c, s, DoAbortPush(s, t, j), t, Shift(j.id, Loc(Rejected, 0, j)))
  {
    CleanupOwed(DoAbortPush(s, t, j), j);
    hide Undo, Owed;
  }

  lemma PushDelayedLedger(c: Config, s: State, t: nat, j: Job)
    requires Holds(s, t, Saved, j) && s.threads[t].pc == Delaying(j)
    ensures Ledger(c, s, DoPushDelayed(s, t, j), t, Moving(j, Loc(InHeap, 0, j)))
  {
  }

  lemma PushDelayedCourse(c: Config, s: State, t: nat, j: Job)
    requires Holds(s, t, Saved, j) && s.threads[t].pc == Delaying(j)
    ensures Course(c, s, DoPushDelayed(s, t, j), t, Shift(j.id, Loc(InHeap, 0, j)))
  {
  }

  lemma BeginShutdownEffect(c: Config, s: State, t: nat)
    requires Free(s, t) && s.threads[t].pc.Idle?
    ensures Effect(c, s, DoBeginShutdown(s, t), t, Staying())
  {
  }

  lemma StopLoopEffect(c: Config, s: State, t: nat)
    requires Free(s, t) && s.threads[t].pc.ShutStop?
    ensures Effect(c, s, DoStopLoop(s, t), t, Staying())
  {
  }

  lemma CloseQueueEffect(c: Config, s: State, t: nat)
    requires Free(s, t) && s.threads[t].pc.ShutClose?
    ensures Effect(c, s, DoCloseQueue(s, t), t, Staying())
  {
  }

  // ---- Worker steps ----

  lemma TakeReadyNoneEffect(c: Config, s: State, t: nat)
    requires Free(s, t) && s.threads[t].pc.WorkerPop?
    requires s.ready.items == [] && s.ready.closed
    ensures Effect(c, s, DoTakeReady(s, t), t, Staying())
  {
  }

  lemma TakeReadyOneLedger(c: Config, s: State, t: nat)
    requires Free(s, t) && s.threads[t].pc.WorkerPop?
    requires s.ready.items != [] && Kept(s, InReady, s.ready.items[0])
    ensures Ledger(c, s, DoTakeReady(s, t), t, Moving(s.ready.items[0], Loc(AtWorker, t, s.ready.items[0])))
  {
  }

  lemma TakeReadyOneCourse(c: Config, s: State, t: nat)
    requires Free(s, t) && s.threads[t].pc.WorkerPop?
    requires s.ready.items != [] && Kept(s, InReady, s.ready.items[0])
    ensures Course(c, s, DoTakeReady(s, t), t, Shift(s.ready.items[0].id, Loc(AtWorker, t, s.ready.items[0])))
  {
    hide FlightSet, StatusKnown, RunsNow;
  }

  lemma FirstCheckPassEffect(c: Config, s: State, t: nat, j: Job)
    requires Holds(s, t, AtWorker, j) && s.threads[t].pc == WorkerHas(j)
    requires j.id !in s.cancelled
    ensures Effect(c, s, DoFirstCheck(s, t, j), t, Staying())
  {
    hide Release;
  }

  lemma FirstCheckFailEffect(c: Config, s: State, t: nat, j: Job)
    requires Holds(s, t, AtWorker, j) && s.threads[t].pc == WorkerHas(j)
    requires !(j.id !in s.cancelled)
    ensures Effect(c, s, DoFirstCheck(s, t, j), t, Moving(j, Loc(Discarded, 0, j)))
  {
    ReleaseOwed(DoFirstCheck(s, t, j), j);
    hide Release, Owed;
  }

  lemma StartHandlerRunLedger(c: Config, s: State, t: nat, j: Job)
    requires Holds(s, t, AtWorker, j) && s.threads[t].pc == LookingUp(j)
    requires j.name in c.handlers
    ensures Ledger(c, s, DoStartHandler(c, s, t, j), t, Moving(j, Loc(Ran, t, j)))
  {
    hide Cleanup;
  }

  lemma StartHandlerRunCourse(c: Config, s: State, t: nat, j: Job)
    requires Holds(s, t, AtWorker, j) && s.threads[t].pc == LookingUp(j)
    requires j.name in c.handlers
    ensures Course(c, s, DoStartHandler(c, s, t, j), t, Shift(j.id, Loc(Ran, t, j)))
  {
    hide Cleanup;
  }

  lemma StartHandlerNoneLedger(c: Config, s: State, t: nat, j: Job)
    requires Holds(s, t, AtWorker, j) && s.threads[t].pc == LookingUp(j)
    requires !(j.name in c.handlers)
    ensures Ledger(c, s, DoStartHandler(c, s, t, j), t, Moving(j, Loc(Finished, 0, j)))
  {
    hide Cleanup;
  }

  lemma StartHandlerNoneCourse(c: Config, s: State, t: nat, j: Job)
    requires Holds(s, t, AtWorker, j) && s.threads[t].pc == LookingUp(j)
    requires !(j.name in c.handlers)
    ensures Course(c, s, DoStartHandler(c, s, t, j), t, Shift(j.id, Loc(Finished, 0, j)))
  {
    hide FlightSet, StatusKnown, RunsNow;
    CleanupOwed(DoStartHandler(c, s, t, j), j);
    hide Cleanup, Owed;
  }

  lemma HandlerReturnsEffect(c: Config, s: State, t: nat, j: Job, ok: bool)
    requires Free(s, t) && s.threads[t].pc == Handling(j)
    ensures Effect(c, s, DoHandlerReturns(s, t, j, ok), t, Staying())
  {
  }

  lemma SecondCheckCancelledLedger(c: Config, s: State, t: nat, j: Job, ok: bool)
    requires Holds(s, t, Ran, j) && s.threads[t].pc == Handled(j, ok)
    requires j.id in s.cancelled
    ensures Ledger(c, s, DoSecondCheck(s, t, j, ok), t, Moving(j, Loc(Discarded, 0, j)))
  {
    hide Cleanup, Backoff.Delay, Retries, NextAttempt;
  }

  lemma SecondCheckCancelledCourse(c: Config, s: State, t: nat, j: Job, ok: bool)
    requires Holds(s, t, Ran, j) && s.threads[t].pc == Handled(j, ok)
    requires j.id in s.cancelled
    ensures Course(c, s, DoSecondCheck(s, t, j, ok), t, Shift(j.id, Loc(Discarded, 0, j)))
  {
    CleanupOwed(DoSecondCheck(s, t, j, ok), j);
    hide Cleanup, Owed, Backoff.Delay, Retries, NextAttempt;
  }

  lemma SecondCheckRetryLedger(c: Config, s: State, t: nat, j: Job, ok: bool)
    requires Holds(s, t, Ran, j) && s.threads[t].pc == Handled(j, ok)
    requires !(j.id in s.cancelled) && !ok && Retries(j)
    ensures Ledger(c, s, DoSecondCheck(s, t, j, ok), t, Moving(j, Loc(AtWorker, t, NextAttempt(j, s.now))))
  {
    hide Cleanup, Backoff.Delay;
  }

  lemma SecondCheckRetryCourse(c: Config, s: State, t: nat, j: Job, ok: bool)
    requires Holds(s, t, Ran, j) && s.threads[t].pc == Handled(j, ok)
    requires !(j.id in s.cancelled) && !ok && Retries(j)
    ensures Course(c, s, DoSecondCheck(s, t, j, ok), t, Shift(j.id, Loc(AtWorker, t, NextAttempt(j, s.now))))
  {
    hide Cleanup, Backoff.Delay;
  }

  lemma SecondCheckEndIs(c: Config, s: State, t: nat, j: Job, ok: bool)
    requires Holds(s, t, Ran, j) && s.threads[t].pc == Handled(j, ok)
    requires !(j.id in s.cancelled) && !(!ok && Retries(j))
    ensures DoSecondCheck(s, t, j, ok) ==
            Leave(s, t, j, Finished, Cleanup(j), WorkerPop)
  {
  }

  lemma SecondCheckEndLedger(c: Config, s: State, t: nat, j: Job, ok: bool)
    requires Holds(s, t, Ran, j) && s.threads[t].pc == Handled(j, ok)
    requires !(j.id in s.cancelled) && !(!ok && Retries(j))
    ensures Ledger(c, s, DoSecondCheck(s, t, j, ok), t, Moving(j, Loc(Finished, 0, j)))
  {
    SecondCheckEndIs(c, s, t, j, ok);
    hide Cleanup, Backoff.Delay, Retries, NextAttempt, DoSecondCheck;
  }

  /** A worker is done with its job and goes back to the queue. */
  lemma WorkerLeaves(c: Config, s: State, t: nat, r: Role, j: Job, end: Role)
    requires Holds(s, t, r, j) && (s.threads[t].pc.LookingUp? || s.threads[t].pc.Handled?)
    requires end.Finished? || (end.Discarded? && j.id in s.cancelled)
    ensures Course(c, s, Leave(s, t, j, end, Cleanup(j), WorkerPop), t, Shift(j.id, Loc(end, 0, j)))
  {
    CleanupOwed(Leave(s, t, j, end, Cleanup(j), WorkerPop), j);
    hide Cleanup, Owed;
  }

  lemma SecondCheckEndCourse(c: Config, s: State, t: nat, j: Job, ok: bool)
    requires Holds(s, t, Ran, j) && s.threads[t].pc == Handled(j, ok)
    requires !(j.id in s.cancelled) && !(!ok && Retries(j))
    ensures Course(c, s, DoSecondCheck(s, t, j, ok), t, Shift(j.id, Loc(Finished, 0, j)))
  {
    SecondCheckEndIs(c, s, t, j, ok);
    WorkerLeaves(c, s, t, Ran, j, Finished);
    hide Cleanup, Course, Backoff.Delay, Retries, NextAttempt, DoSecondCheck, Leave;
  }

  lemma SaveRetryWriteLedger(c: Config, s: State, t: nat, j: Job, wrote: bool)
    requires Holds(s, t, AtWorker, j) && s.threads[t].pc == SavingRetry(j)
    requires j.attempt > 0
    requires c.hasStore && wrote
    ensures Ledger(c, s, DoSaveRetry(c, s, t, j, wrote), t, Delta(Stay, Write(j), SameFlight))
  {
  }

  lemma SaveRetryWriteCourse(c: Config, s: State, t: nat, j: Job, wrote: bool)
    requires Holds(s, t, AtWorker, j) && s.threads[t].pc == SavingRetry(j)
    requires j.attempt > 0
    requires c.hasStore && wrote
    ensures Course(c, s, DoSaveRetry(c, s, t, j, wrote), t, Stay)
  {
  }

  lemma SaveRetrySkipLedger(c: Config, s: State, t: nat, j: Job, wrote: bool)
    requires Holds(s, t, AtWorker, j) && s.threads[t].pc == SavingRetry(j)
    requires j.attempt > 0
    requires !c.hasStore || !wrote
    ensures Ledger(c, s, DoSaveRetry(c, s, t, j, wrote), t, Staying())
  {
  }

  lemma SaveRetrySkipCourse(c: Config, s: State, t: nat, j: Job, wrote: bool)
    requires Holds(s, t, AtWorker, j) && s.threads[t].pc == SavingRetry(j)
    requires j.attempt > 0
    requires !c.hasStore || !wrote
    ensures Course(c, s, DoSaveRetry(c, s, t, j, wrote), t, Staying().mv)
  {
  }

  lemma RequeueLedger(c: Config, s: State, t: nat, j: Job)
    requires Holds(s, t, AtWorker, j) && s.threads[t].pc == Requeueing(j)
    requires j.attempt > 0
    ensures Ledger(c, s, DoRequeue(s, t, j), t, Moving(j, Loc(InHeap, 0, j)))
  {
    hide Cleanup;
  }

  lemma RequeueCourse(c: Config, s: State, t: nat, j: Job)
    requires Holds(s, t, AtWorker, j) && s.threads[t].pc == Requeueing(j)
    requires j.attempt > 0
    ensures Course(c, s, DoRequeue(s, t, j), t, Shift(j.id, Loc(InHeap, 0, j)))
  {
    CleanupOwed(DoRequeue(s, t, j), j);
    hide Cleanup, Owed;
  }

  // ---- Delay loop steps ----

  lemma LookLedger(c: Config, s: State, t: nat, root: Option<Job>)
    requires Free(s, t) && s.threads[t].pc.LoopCheck?
    ensures Ledger(c, s, DoLook(s, t, root), t, Staying())
  {
  }

  lemma LookCourse(c: Config, s: State, t: nat, root: Option<Job>)
    requires Free(s, t) && s.threads[t].pc.LoopCheck? && IsRootOf(s.heap, root)
    ensures Course(c, s, DoLook(s, t, root), t, Stay)
  {
  }

  lemma SignalledEffect(c: Config, s: State, t: nat)
    requires Free(s, t) && s.threads[t].pc.LoopWait?
    ensures Effect(c, s, DoSignalled(s, t), t, Staying())
  {
  }

  lemma TimerFiresEffect(c: Config, s: State, t: nat)
    requires Free(s, t) && s.threads[t].pc.LoopWait?
    ensures Effect(c, s, DoTimerFires(s, t), t, Staying())
  {
  }

  lemma StoppedEffect(c: Config, s: State, t: nat)
    requires Free(s, t) && s.threads[t].pc.LoopWait? && s.stopping
    ensures Effect(c, s, DoStopped(s, t), t, Staying())
  {
  }

  lemma TakeDueNoneEffect(c: Config, s: State, t: nat, at: int, root: Option<Job>)
    requires Free(s, t) && s.threads[t].pc == PopDue(at)
    requires root.None? || root.value.runAt > at
    ensures Effect(c, s, DoTakeDue(s, t, at, root), t, Staying())
  {
  }

  lemma TakeDueOneIs(c: Config, s: State, t: nat, at: int, root: Option<Job>)
    requires Free(s, t) && s.threads[t].pc == PopDue(at)
    requires root.Some? && root.value.runAt <= at && Kept(s, InHeap, root.value)
    ensures DoTakeDue(s, t, at, root) ==
            At(Place(s, root.value.id, Loc(AtLoop, t, root.value)), t, [], DueHas(root.value, at))
              .(heap := s.heap - multiset{root.value})
  {
  }

  lemma TakeDueOneLedger(c: Config, s: State, t: nat, at: int, root: Option<Job>)
    requires Free(s, t) && s.threads[t].pc == PopDue(at)
    requires root.Some? && root.value.runAt <= at && Kept(s, InHeap, root.value)
    ensures Ledger(c, s, DoTakeDue(s, t, at, root), t, Moving(root.value, Loc(AtLoop, t, root.value)))
  {
    TakeDueOneIs(c, s, t, at, root);
    hide DoTakeDue;
  }

  lemma TakeDueOneCourse(c: Config, s: State, t: nat, at: int, root: Option<Job>)
    requires Free(s, t) && s.threads[t].pc == PopDue(at)
    requires root.Some? && root.value.runAt <= at && Kept(s, InHeap, root.value)
    ensures Course(c, s, DoTakeDue(s, t, at, root), t, Shift(root.value.id, Loc(AtLoop, t, root.value)))
  {
    TakeDueOneIs(c, s, t, at, root);
    hide DoTakeDue;
  }

  lemma DueCheckPassEffect(c: Config, s: State, t: nat, j: Job, at: int)
    requires Holds(s, t, AtLoop, j) && s.threads[t].pc == DueHas(j, at)
    requires j.id !in s.cancelled
    ensures Effect(c, s, DoDueCheck(s, t, j, at), t, Staying())
  {
    hide Release;
  }

  lemma DueCheckFailEffect(c: Config, s: State, t: nat, j: Job, at: int)
    requires Holds(s, t, AtLoop, j) && s.threads[t].pc == DueHas(j, at)
    requires !(j.id !in s.cancelled)
    ensures Effect(c, s, DoDueCheck(s, t, j, at), t, Moving(j, Loc(Discarded, 0, j)))
  {
    hide FlightSet, StatusKnown, RunsNow;
    ReleaseOwed(DoDueCheck(s, t, j, at), j);
    hide Release, Owed;
  }

  lemma DueEnqueueDoneLedger(c: Config, s: State, t: nat, j: Job, at: int)
    requires Holds(s, t, AtLoop, j) && s.threads[t].pc == DuePush(j, at)
    requires PushVerdict(s.ready, false).Pushed?
    ensures Ledger(c, s, DoDueEnqueue(s, t, j, at), t, Moving(j, Loc(InReady, 0, j)))
  {
  }

  lemma DueEnqueueDoneCourse(c: Config, s: State, t: nat, j: Job, at: int)
    requires Holds(s, t, AtLoop, j) && s.threads[t].pc == DuePush(j, at)
    requires PushVerdict(s.ready, false).Pushed?
    ensures Course(c, s, DoDueEnqueue(s, t, j, at), t, Shift(j.id, Loc(InReady, 0, j)))
  {
    hide FlightSet, StatusKnown, RunsNow;
  }

  lemma DueEnqueueWaitEffect(c: Config, s: State, t: nat, j: Job, at: int)
    requires Holds(s, t, AtLoop, j) && s.threads[t].pc == DuePush(j, at)
    requires !(PushVerdict(s.ready, false).Pushed?) && PushVerdict(s.ready, false).MustWait?
    ensures Effect(c, s, DoDueEnqueue(s, t, j, at), t, Staying())
  {
    hide FlightSet, StatusKnown, RunsNow;
  }

  lemma DueEnqueueLostLedger(c: Config, s: State, t: nat, j: Job, at: int)
    requires Holds(s, t, AtLoop, j) && s.threads[t].pc == DuePush(j, at)
    requires !(PushVerdict(s.ready, false).Pushed?) && !(PushVerdict(s.ready, false).MustWait?)
    ensures Ledger(c, s, DoDueEnqueue(s, t, j, at), t, Moving(j, Loc(Lost, 0, j)))
  {
  }

  lemma DueEnqueueLostCourse(c: Config, s: State, t: nat, j: Job, at: int)
    requires Holds(s, t, AtLoop, j) && s.threads[t].pc == DuePush(j, at)
    requires !(PushVerdict(s.ready, false).Pushed?) && !(PushVerdict(s.ready, false).MustWait?)
    ensures Course(c, s, DoDueEnqueue(s, t, j, at), t, Shift(j.id, Loc(Lost, 0, j)))
  {
    hide FlightSet, StatusKnown, RunsNow;
  }

  lemma DueRetryEffect(c: Config, s: State, t: nat, j: Job, at: int)
    requires Free(s, t) && s.threads[t].pc == DueAwait(j, at)
    ensures Effect(c, s, DoDueRetry(s, t, j, at), t, Staying())
  {
  }

  lemma DrainEndEffect(c: Config, s: State, t: nat, root: Option<Job>)
    requires Free(s, t) && s.threads[t].pc == Draining && s.stopping
    requires root.None? && s.heap == multiset{}
    ensures Effect(c, s, DoDrain(s, t, root), t, Staying())
  {
    hide Undo;
  }

  lemma DrainOneLedger(c: Config, s: State, t: nat, root: Option<Job>)
    requires Free(s, t) && s.threads[t].pc == Draining && s.stopping
    requires root.Some? && Kept(s, InHeap, root.value)
    ensures Ledger(c, s, DoDrain(s, t, root), t, Moving(root.value, Loc(Drained, 0, root.value)))
  {
    hide Undo;
  }

  lemma DrainOneCourse(c: Config, s: State, t: nat, root: Option<Job>)
    requires Free(s, t) && s.threads[t].pc == Draining && s.stopping
    requires root.Some? && Kept(s, InHeap, root.value)
    ensures Course(c, s, DoDrain(s, t, root), t, Shift(root.value.id, Loc(Drained, 0, root.value)))
  {
    CleanupOwed(DoDrain(s, t, root), root.value);
    hide Undo, Owed;
  }

  // ---- Chores ----

  /** The next chore of thread t. */
  predicate Owes(s: State, t: nat, ch: Chore) {
    && t in s.threads && s.threads[t].todo != [] && s.threads[t].todo[0] == ch
    && s.threads[t].todo == [ch] + s.threads[t].todo[1..]
  }

  lemma ReleaseNameAnyEffect(c: Config, s: State, t: nat, n: Name, id: Id, wrote: bool)
    requires Owes(s, t, ReleaseName(n, id))
    requires c.policy.Allow?
    ensures Effect(c, s, DoChoreOf(c, s, t, wrote), t, Staying())
  {
    hide DropFlight;
  }

  lemma ReleaseNameEffect(c: Config, s: State, t: nat, n: Name, id: Id, wrote: bool)
    requires Owes(s, t, ReleaseName(n, id))
    requires !c.policy.Allow?
    ensures Effect(c, s, DoChoreOf(c, s, t, wrote), t, Delta(Stay, SameStore, Unlist(n, id)))
  {
    hide DropFlight;
  }

  lemma ForgetNameEffect(c: Config, s: State, t: nat, id: Id, wrote: bool)
    requires Owes(s, t, ForgetName(id))
    ensures Effect(c, s, DoChoreOf(c, s, t, wrote), t, Staying())
  {
    hide DropFlight;
  }

  lemma LookUpNameMissEffect(c: Config, s: State, t: nat, id: Id, wrote: bool)
    requires Owes(s, t, LookUpName(id))
    requires id !in s.names
    ensures Effect(c, s, DoChoreOf(c, s, t, wrote), t, Staying())
  {
    hide DropFlight;
  }

  lemma LookUpNameHitEffect(c: Config, s: State, t: nat, id: Id, wrote: bool)
    requires Owes(s, t, LookUpName(id))
    requires id in s.names && id in s.cancelled
    ensures Effect(c, s, DoChoreOf(c, s, t, wrote), t, Staying())
  {
    var todo := s.threads[t].todo;
    LookUpOwed(DoChoreOf(c, s, t, wrote), s.names[id], id, todo, todo[1..]);
    hide Owed;
    hide DropFlight;
  }

  lemma DeleteRecordEffect(c: Config, s: State, t: nat, id: Id, wrote: bool)
    requires Owes(s, t, DeleteRecord(id))
    requires c.hasStore && wrote
    ensures Effect(c, s, DoChoreOf(c, s, t, wrote), t, Delta(Stay, Erase(id), SameFlight))
  {
    hide DropFlight;
  }

  lemma DeleteRecordMissEffect(c: Config, s: State, t: nat, id: Id, wrote: bool)
    requires Owes(s, t, DeleteRecord(id))
    requires (!c.hasStore || !wrote) && (c.reliable ==> wrote)
    ensures Effect(c, s, DoChoreOf(c, s, t, wrote), t, Staying())
  {
    hide DropFlight;
  }

  lemma SignalLoopEffect(c: Config, s: State, t: nat, wrote: bool)
    requires Owes(s, t, SignalLoop)
    ensures Effect(c, s, DoChoreOf(c, s, t, wrote), t, Staying())
  {
    hide DropFlight;
  }

}

/** internal/core/ready_queue.go: who wakes whom.  Every lock region, signal and wake-up is one step of an
    arbitrary interleaving of threads; poppers and waiting pushers share the one-place token. */
module QueueWakeup {
  import opened Jobs
  import opened ReadyQueues

  /** What a thread is about to do. */
  datatype Pc =
    | Idle
    | TryingPush(e: Job, drop: bool)
    | PushAsleep(e: Job)
    | TryingPop
    | PopAsleep
    | OwesSignal

  datatype State = State(q: Queue, token: bool, pc: map<nat, Pc>)

  datatype Action =
    | BeginPush(t: nat, e: Job, drop: bool)
    | BeginPop(t: nat)
    | BeginClose(t: nat)
    | PushRegion(t: nat)
    | PopRegion(t: nat)
    | SendSignal(t: nat)
    | WakeByToken(t: nat)
    | WakeByClose(t: nat)
    | Abort(t: nat)
    | RemoveId(id: Id)

  function At(s: State, t: nat): Pc {
    if t in s.pc then s.pc[t] else Idle
  }

  predicate Asleep(p: Pc) {
    p.PopAsleep? || p.PushAsleep?
  }

  /** Whether pushes may wait for room, as under QueueFullBlock, and whether jobs are ever cancelled. */
  datatype Setup = Setup(blocking: bool, removes: bool, cap: nat, threads: nat)

  predicate Enabled(u: Setup, s: State, a: Action) {
    match a
    case BeginPush(t, e, drop) => t in s.pc && At(s, t).Idle? && (drop || u.blocking)
    case BeginPop(t) => t in s.pc && At(s, t).Idle?
    case BeginClose(t) => t in s.pc && At(s, t).Idle?
    case PushRegion(t) => t in s.pc && At(s, t).TryingPush?
    case PopRegion(t) => t in s.pc && At(s, t).TryingPop?
    case SendSignal(t) => t in s.pc && At(s, t).OwesSignal?
    case WakeByToken(t) => t in s.pc && Asleep(At(s, t)) && s.token
    case WakeByClose(t) => t in s.pc && Asleep(At(s, t)) && s.q.closed
    case Abort(t) => t in s.pc && At(s, t).PushAsleep?
    case RemoveId(id) => u.removes
  }

  function Move(s: State, t: nat, p: Pc): State {
    s.(pc := s.pc[t := p])
  }

  function Woken(p: Pc): Pc {
    if p.PushAsleep? then TryingPush(p.e, false) else TryingPop
  }

  function Do(u: Setup, s: State, a: Action): State
    requires Enabled(u, s, a)
  {
    match a
    case BeginPush(t, e, drop) => Move(s, t, TryingPush(e, drop))
    case BeginPop(t) => Move(s, t, TryingPop)
    case BeginClose(t) => Move(s.(q := s.q.(closed := true)), t, OwesSignal)
    case PushRegion(t) =>
      var p := At(s, t);
      (match PushVerdict(s.q, p.drop)
       case Pushed => Move(s.(q := AfterPush(s.q, p.e, p.drop)), t, OwesSignal)
       case Full => Move(s, t, Idle)
       case ShuttingDown => Move(s, t, Idle)
       case MustWait => Move(s, t, PushAsleep(p.e)))
    case PopRegion(t) =>
      (match PopVerdict(s.q)
       case Popped(_) => Move(s.(q := AfterPop(s.q)), t, OwesSignal)
       case Exit => Move(s, t, Idle)
       case Sleep => Move(s, t, PopAsleep))
    case SendSignal(t) => Move(s.(token := true), t, Idle)
    case WakeByToken(t) => Move(s.(token := false), t, Woken(At(s, t)))
    case WakeByClose(t) => Move(s, t, Woken(At(s, t)))
    case Abort(t) => Move(s, t, Idle)
    case RemoveId(id) => s.(q := AfterRemove(s.q, id))
  }

  function AllIdle(threads: nat): (pc: map<nat, Pc>)
    ensures forall t: nat :: t in pc <==> t < threads
    ensures forall t :: t in pc ==> pc[t].Idle?
  {
    if threads == 0 then map[] else AllIdle(threads - 1)[threads - 1 := Idle]
  }

  function Start(u: Setup): State {
    State(Queue([], u.cap, false), false, AllIdle(u.threads))
  }

  ghost predicate Step(u: Setup, s: State, s': State) {
    exists a :: Enabled(u, s, a) && s' == Do(u, s, a)
  }

  ghost predicate IsRun(u: Setup, run: seq<State>) {
    && run != [] && run[0] == Start(u)
    && forall i :: 0 <= i < |run| - 1 ==> Linked(u, run, i)
  }

  ghost predicate Linked(u: Setup, run: seq<State>, i: nat)
    requires i + 1 < |run|
  {
    Step(u, run[i], run[i + 1])
  }

  /** Items are waiting, a consumer sleeps, and nothing is on its way to wake one: no token, no thread that
      still owes a signal, no consumer about to look again. */
  ghost predicate ConsumerForgotten(s: State) {
    && s.q.items != []
    && (exists t :: t in s.pc && s.pc[t].PopAsleep?)
    && !s.token
    && (forall t :: t in s.pc ==> !s.pc[t].OwesSignal? && !s.pc[t].TryingPop?)
  }

  /** The same for a producer and room in the queue. */
  ghost predicate ProducerForgotten(s: State) {
    && |s.q.items| < s.q.cap
    && (exists t :: t in s.pc && s.pc[t].PushAsleep?)
    && !s.token
    && (forall t :: t in s.pc ==> !s.pc[t].OwesSignal? && !s.pc[t].TryingPush? && !s.pc[t].TryingPop?)
  }

  ghost predicate ConsumersSafe(u: Setup) {
    forall run, i :: IsRun(u, run) && 0 <= i < |run| ==> !ConsumerForgotten(run[i])
  }

  ghost predicate ProducersSafe(u: Setup) {
    forall run, i :: IsRun(u, run) && 0 <= i < |run| ==> !ProducerForgotten(run[i])
  }

  // ---- Dropping pushes only: no consumer is ever forgotten ----

  /** When no push waits, only consumers sleep. */
  ghost predicate NoWaitingPush(s: State) {
    forall t :: t in s.pc ==> !s.pc[t].PushAsleep? && (s.pc[t].TryingPush? ==> s.pc[t].drop)
  }

  lemma DropStep(u: Setup, s: State, a: Action)
    requires !u.blocking && NoWaitingPush(s) && !ConsumerForgotten(s) && Enabled(u, s, a)
    ensures NoWaitingPush(Do(u, s, a)) && !ConsumerForgotten(Do(u, s, a))
  {
    var s' := Do(u, s, a);
    if ConsumerForgotten(s') {
      var t :| t in s'.pc && s'.pc[t].PopAsleep?;
      assert forall v :: v in s.pc ==> v in s'.pc;
    }
  }

  lemma {:induction false} DropRun(u: Setup, run: seq<State>, i: nat)
    requires !u.blocking && IsRun(u, run) && i < |run|
    ensures NoWaitingPush(run[i]) && !ConsumerForgotten(run[i])
  {
    if i > 0 {
      DropRun(u, run, i - 1);
      assert Linked(u, run, i - 1);
      var a :| Enabled(u, run[i - 1], a) && run[i] == Do(u, run[i - 1], a);
      DropStep(u, run[i - 1], a);
    }
  }

  // ---- A queue without room, or a thread on its own ----

  ghost predicate Bounded(u: Setup, s: State) {
    && s.q.cap == u.cap && |s.q.items| <= u.cap
    && (forall t :: t in s.pc ==> t < u.threads)
  }

  /** The only thread sleeps only beside an empty or a full queue. */
  predicate SleepsWell(u: Setup, q: Queue, p: Pc) {
    && (p.PopAsleep? ==> q.items == [])
    && (p.PushAsleep? && !u.removes ==> |q.items| >= u.cap)
  }

  ghost predicate Alone(u: Setup, s: State) {
    Bounded(u, s) && (u.threads == 1 ==> SleepsWell(u, s.q, At(s, 0)))
  }

  lemma BoundedStep(u: Setup, s: State, a: Action)
    requires Bounded(u, s) && Enabled(u, s, a)
    ensures Bounded(u, Do(u, s, a))
  {
    hide Find;
  }

  lemma SleepsWellStep(u: Setup, s: State, a: Action)
    requires Bounded(u, s) && u.threads == 1 && SleepsWell(u, s.q, At(s, 0)) && Enabled(u, s, a)
    ensures SleepsWell(u, Do(u, s, a).q, At(Do(u, s, a), 0))
  {
    if !a.RemoveId? {
      assert a.t == 0;
      hide Bounded;
    }
  }

  lemma {:induction false} AloneRun(u: Setup, run: seq<State>, i: nat)
    requires IsRun(u, run) && i < |run|
    ensures Alone(u, run[i])
  {
    if i > 0 {
      AloneRun(u, run, i - 1);
      assert Linked(u, run, i - 1);
      var a :| Enabled(u, run[i - 1], a) && run[i] == Do(u, run[i - 1], a);
      hide Bounded, SleepsWell, Enabled, Do;
      BoundedStep(u, run[i - 1], a);
      if u.threads == 1 {
        SleepsWellStep(u, run[i - 1], a);
      }
    }
  }

  // ---- Waiting pushes: pushers and poppers take each other's tokens ----

  lemma Extend(u: Setup, run: seq<State>, a: Action) returns (longer: seq<State>)
    requires IsRun(u, run) && Enabled(u, run[|run| - 1], a)
    ensures IsRun(u, longer)
    ensures longer == run + [Do(u, run[|run| - 1], a)]
  {
    longer := run + [Do(u, run[|run| - 1], a)];
    assert Step(u, run[|run| - 1], longer[|run|]);
    forall i | 0 <= i < |longer| - 1 ensures Linked(u, longer, i) {
      if i < |run| - 1 {
        assert Linked(u, run, i);
      }
    }
  }

  function Copies(e: Job, n: nat): seq<Job> {
    seq(n, i => e)
  }

  /** Thread p pushes n items into the empty queue, and leaves a token. */
  lemma {:induction false} FillQueue(u: Setup, start: seq<State>, e: Job, p: nat, n: nat) returns (run: seq<State>)
    requires u.blocking && IsRun(u, start) && n <= u.cap
    requires var s := start[|start| - 1];
             s.q == Queue([], u.cap, false) && !s.token && p in s.pc && s.pc[p].Idle?
    ensures IsRun(u, run) && run[|run| - 1] == State(Queue(Copies(e, n), u.cap, false), n > 0, start[|start| - 1].pc)
    decreases n
  {
    run := start;
    if n > 0 {
      run := FillQueue(u, start, e, p, n - 1);
      ghost var pc := run[|run| - 1].pc;
      run := Extend(u, run, BeginPush(p, e, false));
      run := Extend(u, run, PushRegion(p));
      run := Extend(u, run, SendSignal(p));
      assert run[|run| - 1].pc == pc;
      assert Copies(e, n - 1) + [e] == Copies(e, n);
    }
  }

  /** At the full queue it takes the token it left, finds no room, and sleeps on. */
  lemma SleepBesideFull(u: Setup, start: seq<State>, e: Job, p: nat) returns (run: seq<State>)
    requires u.blocking && IsRun(u, start)
    requires var s := start[|start| - 1];
             s.q == Queue(Copies(e, u.cap), u.cap, false) && s.token && p in s.pc && s.pc[p].Idle?
    ensures IsRun(u, run)
    ensures run[|run| - 1] ==
            State(Queue(Copies(e, u.cap), u.cap, false), false, start[|start| - 1].pc[p := PushAsleep(e)])
  {
    ghost var pc := start[|start| - 1].pc;
    run := Extend(u, start, BeginPush(p, e, false));
    run := Extend(u, run, PushRegion(p));
    run := Extend(u, run, WakeByToken(p));
    run := Extend(u, run, PushRegion(p));
    assert run[|run| - 1].pc == pc[p := PushAsleep(e)];
  }

  /** With waiting pushes one consumer and one producer suffice to put the consumer to sleep next to a full queue:
      the producer finds no room and takes the token meant for the consumer, and both sleep on. */
  lemma StealToken(u: Setup, e: Job) returns (run: seq<State>)
    requires u.blocking && u.threads >= 2 && u.cap >= 1
    ensures IsRun(u, run)
    ensures run[|run| - 1] ==
            State(Queue(Copies(e, u.cap), u.cap, false), false, Start(u).pc[0 := PopAsleep][1 := PushAsleep(e)])
  {
    run := [Start(u)];
    run := Extend(u, run, BeginPop(0));
    run := Extend(u, run, PopRegion(0));
    assert run[|run| - 1].pc == Start(u).pc[0 := PopAsleep];
    run := FillQueue(u, run, e, 1, u.cap);
    run := SleepBesideFull(u, run, e, 1);
  }

  /** Consumers are never forgotten if and only if no push waits, or nothing can be left lying. */
  lemma SafeExactlyWhenDropping(u: Setup, e: Job)
    ensures ConsumersSafe(u) <==> !u.blocking || u.cap == 0 || u.threads <= 1
  {
    if u.blocking && u.cap >= 1 && u.threads >= 2 {
      var run := StealToken(u, e);
      var s := run[|run| - 1];
      assert s.pc[0].PopAsleep?;
      assert ConsumerForgotten(s);
    } else {
      forall run, i | IsRun(u, run) && 0 <= i < |run| ensures !ConsumerForgotten(run[i]) {
        if !u.blocking {
          DropRun(u, run, i);
        }
        AloneRun(u, run, i);
      }
    }
  }

  /** Thread 0 pops the n items, and leaves a token. */
  lemma {:induction false} EmptyQueue(u: Setup, start: seq<State>, e: Job, n: nat) returns (run: seq<State>)
    requires IsRun(u, start)
    requires var s := start[|start| - 1];
             s.q == Queue(Copies(e, n), u.cap, false) && 0 in s.pc && s.pc[0].Idle? && (n == 0 ==> s.token)
    ensures IsRun(u, run) && run[|run| - 1] == State(Queue([], u.cap, false), true, start[|start| - 1].pc)
    decreases n
  {
    run := start;
    if n > 0 {
      run := Extend(u, run, BeginPop(0));
      run := Extend(u, run, PopRegion(0));
      run := Extend(u, run, SendSignal(0));
      assert Copies(e, n)[1..] == Copies(e, n - 1);
      assert run[|run| - 1].pc == start[|start| - 1].pc;
      run := EmptyQueue(u, run, e, n - 1);
    }
  }

  /** A consumer that goes on popping takes the token it left for the waiting pusher, finds the queue empty, and both
      sleep on: no job has to be cancelled for it. */
  lemma PopperForgetsProducer(u: Setup, e: Job) returns (run: seq<State>)
    requires u.blocking && u.threads >= 2 && u.cap >= 1
    ensures IsRun(u, run)
    ensures run[|run| - 1] == State(Queue([], u.cap, false), false, Start(u).pc[1 := PushAsleep(e)][0 := PopAsleep])
  {
    run := FillQueue(u, [Start(u)], e, 1, u.cap);
    run := SleepBesideFull(u, run, e, 1);
    run := EmptyQueue(u, run, e, u.cap);
    ghost var pc := run[|run| - 1].pc;
    run := Extend(u, run, BeginPop(0));
    run := Extend(u, run, PopRegion(0));
    run := Extend(u, run, WakeByToken(0));
    run := Extend(u, run, PopRegion(0));
    assert run[|run| - 1].pc == pc[0 := PopAsleep];
  }

  /** remove makes room without a signal, so even a pusher on its own can sleep beside a free slot. */
  lemma RemoveForgetsProducer(u: Setup, e: Job) returns (run: seq<State>)
    requires u.blocking && u.removes && u.threads >= 1 && u.cap >= 1
    ensures IsRun(u, run)
    ensures run[|run| - 1] ==
            State(Queue(Copies(e, u.cap - 1), u.cap, false), false, Start(u).pc[0 := PushAsleep(e)])
  {
    run := FillQueue(u, [Start(u)], e, 0, u.cap);
    run := SleepBesideFull(u, run, e, 0);
    assert Copies(e, u.cap)[0].id == e.id;
    assert Without(Copies(e, u.cap), 0) == Copies(e, u.cap - 1);
    run := Extend(u, run, RemoveId(e.id));
  }

  /** Producers are never forgotten if and only if none waits, no room can appear, or a waiting one has nobody to make
      room. */
  lemma ProducersSafeExactly(u: Setup, e: Job)
    ensures ProducersSafe(u) <==>
            !u.blocking || u.cap == 0 || u.threads == 0 || (u.threads == 1 && !u.removes)
  {
    if u.blocking && u.cap >= 1 && (u.threads >= 2 || (u.threads == 1 && u.removes)) {
      var run;
      if u.threads >= 2 {
        run := PopperForgetsProducer(u, e);
        assert run[|run| - 1].pc[1].PushAsleep?;
      } else {
        run := RemoveForgetsProducer(u, e);
        assert run[|run| - 1].pc[0].PushAsleep?;
      }
      assert ProducerForgotten(run[|run| - 1]);
    } else {
      forall run, i | IsRun(u, run) && 0 <= i < |run| ensures !ProducerForgotten(run[i]) {
        if !u.blocking {
          DropRun(u, run, i);
        }
        AloneRun(u, run, i);
      }
    }
  }
}

/** internal/core/ready_queue.go: the bounded FIFO, one lock region at a time.

    The retry loops of push and pop repeat these regions after a wake-up; how they are woken is the
    subject of module QueueWakeup. */
module ReadyQueues {
  import opened Wrappers
  import opened Jobs

  datatype Queue = Queue(items: seq<Job>, cap: nat, closed: bool)

  datatype PushResult = Pushed | Full | ShuttingDown | MustWait

  datatype PopResult = Popped(job: Job) | Exit | Sleep

  /** The verdict of one pass of push. */
  function PushVerdict(q: Queue, drop: bool): PushResult {
    if |q.items| < q.cap then Pushed
    else if drop then Full
    else if q.closed then ShuttingDown
    else MustWait
  }

  function AfterPush(q: Queue, e: Job, drop: bool): Queue {
    if PushVerdict(q, drop).Pushed? then q.(items := q.items + [e]) else q
  }

  function PopVerdict(q: Queue): PopResult {
    if q.items != [] then Popped(q.items[0])
    else if q.closed then Exit
    else Sleep
  }

  function AfterPop(q: Queue): Queue {
    if q.items != [] then q.(items := q.items[1..]) else q
  }

  /** The position of the first item with the id, or -1. */
  function Find(items: seq<Job>, id: Id): (k: int)
    ensures -1 <= k < |items|
    ensures k >= 0 ==> items[k].id == id
    ensures forall i :: 0 <= i < (if k == -1 then |items| else k) ==> items[i].id != id
  {
    if items == [] then -1
    else if items[0].id == id then 0
    else
      var k := Find(items[1..], id);
      if k == -1 then -1 else k + 1
  }

  function Without(items: seq<Job>, k: int): seq<Job>
    requires 0 <= k < |items|
  {
    items[..k] + items[k + 1..]
  }

  function AfterRemove(q: Queue, id: Id): Queue {
    var k := Find(q.items, id);
    if k == -1 then q else q.(items := Without(q.items, k))
  }

  class ReadyQueue {
    var items: seq<Job>
    const cap: nat
    var closed: bool
    var closedCh: bool
    var notify: bool

    function State(): Queue
      reads this
    {
      Queue(items, cap, closed)
    }

    /** The closed channel and the closed flag change together. */
    predicate Valid()
      reads this
    {
      |items| <= cap && closedCh == closed
    }

    constructor (cap: nat)
      ensures Valid() && State() == Queue([], cap, false) && !notify
    {
      this.cap := cap;
      items := [];
      closed := false;
      closedCh := false;
      notify := false;
    }

    /** Put the wake-up token in its one-place buffer. */
    method Signal()
      modifies this`notify
      ensures notify
    {
      notify := true;
    }

    /** One pass of push: append and signal, or say why not. */
    method TryPush(entry: Job, drop: bool) returns (r: PushResult)
      requires Valid()
      modifies this`items, this`notify
      ensures Valid() && State() == AfterPush(old(State()), entry, drop)
      ensures r == PushVerdict(old(State()), drop)
      ensures notify == (old(notify) || r.Pushed?)
    {
      if |items| < cap {
        items := items + [entry];
        Signal();
        return Pushed;
      }
      if drop {
        return Full;
      }
      if closed {
        return ShuttingDown;
      }
      return MustWait;
    }

    /** One pass of pop: take the head and signal, or leave. */
    method TryPop() returns (r: PopResult)
      requires Valid()
      modifies this`items, this`notify
      ensures Valid() && State() == AfterPop(old(State()))
      ensures r == PopVerdict(old(State()))
      ensures notify == (old(notify) || r.Popped?)
    {
      if |items| > 0 {
        var entry := items[0];
        items := items[1..];
        Signal();
        return Popped(entry);
      }
      if closed {
        return Exit;
      }
      return Sleep;
    }

    method Remove(id: Id) returns (found: bool)
      requires Valid()
      modifies this`items
      ensures Valid() && State() == AfterRemove(old(State()), id)
      ensures found <==> exists i :: 0 <= i < |old(items)| && old(items)[i].id == id
    {
      var i := 0;
      while i < |items|
        invariant 0 <= i <= |items|
        invariant forall j :: 0 <= j < i ==> items[j].id != id
        invariant items == old(items)
      {
        if items[i].id == id {
          assert Find(items, id) == i;
          items := items[..i] + items[i + 1..];
          return true;
        }
        i := i + 1;
      }
      return false;
    }

    method Close()
      requires Valid()
      modifies this`closed, this`closedCh, this`notify
      ensures Valid() && State() == old(State()).(closed := true) && notify
    {
      if !closed {
        closed := true;
        closedCh := true;
      }
      Signal();
    }
  }

  // ---- Any sequence of lock regions refines a bounded FIFO ----

  datatype Event = Push(e: Job, drop: bool) | Pop | Remove(id: Id) | Close

  datatype Fate = Waiting | Delivered | Withdrawn

  /** The queue with what has been pushed so far, what became of each, and what has been popped.
      Items before `cut` no longer wait; none from `cut` on has been delivered. */
  datatype History = History(q: Queue, pushed: seq<Job>, fate: seq<Fate>, popped: seq<Job>, cut: nat)

  function FirstWaiting(fate: seq<Fate>): (k: nat)
    ensures k <= |fate|
    ensures k < |fate| ==> fate[k].Waiting?
    ensures forall i :: 0 <= i < k ==> !fate[i].Waiting?
  {
    if fate == [] || fate[0].Waiting? then 0 else 1 + FirstWaiting(fate[1..])
  }

  /** The position of the k-th waiting entry. */
  function NthWaiting(fate: seq<Fate>, k: nat): nat {
    if fate == [] then 0
    else if !fate[0].Waiting? then 1 + NthWaiting(fate[1..], k)
    else if k == 0 then 0
    else 1 + NthWaiting(fate[1..], k - 1)
  }

  function Step(h: History, ev: Event): History {
    match ev
    case Push(e, drop) =>
      if PushVerdict(h.q, drop).Pushed?
      then h.(q := AfterPush(h.q, e, drop), pushed := h.pushed + [e], fate := h.fate + [Waiting])
      else h
    case Pop =>
      var k := FirstWaiting(h.fate);
      if PopVerdict(h.q).Popped? && k < |h.fate|
      then h.(q := AfterPop(h.q), fate := h.fate[k := Delivered], popped := h.popped + [h.q.items[0]], cut := k + 1)
      else h
    case Remove(id) =>
      var i := Find(h.q.items, id);
      if i == -1 then h
      else
        var k := NthWaiting(h.fate, i);
        if k < |h.fate| then h.(q := AfterRemove(h.q, id), fate := h.fate[k := Withdrawn]) else h
    case Close => h.(q := h.q.(closed := true))
  }

  function Run(cap: nat, events: seq<Event>): History {
    if events == [] then History(Queue([], cap, false), [], [], [], 0)
    else Step(Run(cap, events[..|events| - 1]), events[|events| - 1])
  }

  /** The pushed entries with the given fate, in push order. */
  function Select(pushed: seq<Job>, fate: seq<Fate>, f: Fate): seq<Job>
    requires |pushed| == |fate|
  {
    if pushed == [] then []
    else (if fate[0] == f then [pushed[0]] else []) + Select(pushed[1..], fate[1..], f)
  }

  ghost predicate Refines(h: History) {
    && |h.pushed| == |h.fate| && h.cut <= |h.fate|
    && |h.q.items| <= h.q.cap
    && h.q.items == Select(h.pushed, h.fate, Waiting)
    && h.popped == Select(h.pushed, h.fate, Delivered)
    && (forall i :: 0 <= i < h.cut ==> !h.fate[i].Waiting?)
    && (forall i :: h.cut <= i < |h.fate| ==> !h.fate[i].Delivered?)
  }

  lemma {:induction false} SelectAppend(pushed: seq<Job>, fate: seq<Fate>, f: Fate, e: Job, g: Fate)
    requires |pushed| == |fate|
    ensures Select(pushed + [e], fate + [g], f) == Select(pushed, fate, f) + if f == g then [e] else []
  {
    if pushed != [] {
      assert (pushed + [e])[1..] == pushed[1..] + [e] && (fate + [g])[1..] == fate[1..] + [g];
      SelectAppend(pushed[1..], fate[1..], f, e, g);
    } else {
      assert (pushed + [e])[1..] == [] && (fate + [g])[1..] == [];
    }
  }

  /** The i-th waiting entry is the i-th item, and withdrawing it takes out just that item. */
  lemma {:induction false} WithdrawNth(pushed: seq<Job>, fate: seq<Fate>, i: nat)
    requires |pushed| == |fate| && i < |Select(pushed, fate, Waiting)|
    ensures var k := NthWaiting(fate, i);
            && k < |fate| && fate[k].Waiting? && pushed[k] == Select(pushed, fate, Waiting)[i]
            && Select(pushed, fate[k := Withdrawn], Waiting) == Without(Select(pushed, fate, Waiting), i)
            && Select(pushed, fate[k := Withdrawn], Delivered) == Select(pushed, fate, Delivered)
    decreases fate
  {
    var k := NthWaiting(fate, i);
    var rest := Select(pushed[1..], fate[1..], Waiting);
    if fate[0].Waiting? && i == 0 {
      assert fate[k := Withdrawn][1..] == fate[1..];
      assert Without([pushed[0]] + rest, 0) == rest;
    } else {
      var j := if fate[0].Waiting? then i - 1 else i;
      WithdrawNth(pushed[1..], fate[1..], j);
      assert fate[k := Withdrawn][1..] == fate[1..][k - 1 := Withdrawn];
      if fate[0].Waiting? {
        assert Without([pushed[0]] + rest, i) == [pushed[0]] + Without(rest, j);
      }
    }
  }

  /** Delivering the first waiting entry moves the head item to the end of the delivered ones. */
  lemma {:induction false} DeliverFirst(pushed: seq<Job>, fate: seq<Fate>)
    requires |pushed| == |fate|
    requires forall i :: FirstWaiting(fate) <= i < |fate| ==> !fate[i].Delivered?
    requires Select(pushed, fate, Waiting) != []
    ensures var k := FirstWaiting(fate);
            && k < |fate|
            && Select(pushed, fate[k := Delivered], Waiting) == Select(pushed, fate, Waiting)[1..]
            && Select(pushed, fate[k := Delivered], Delivered) ==
               Select(pushed, fate, Delivered) + [Select(pushed, fate, Waiting)[0]]
    decreases fate
  {
    var k := FirstWaiting(fate);
    if fate[0].Waiting? {
      assert fate[0 := Delivered][1..] == fate[1..];
      NoneDelivered(pushed[1..], fate[1..]);
    } else {
      forall i | FirstWaiting(fate[1..]) <= i < |fate[1..]| ensures !fate[1..][i].Delivered? {
        assert fate[1..][i] == fate[i + 1];
      }
      DeliverFirst(pushed[1..], fate[1..]);
      assert fate[k := Delivered][1..] == fate[1..][k - 1 := Delivered];
    }
  }

  lemma {:induction false} NoneDelivered(pushed: seq<Job>, fate: seq<Fate>)
    requires |pushed| == |fate| && forall i :: 0 <= i < |fate| ==> !fate[i].Delivered?
    ensures Select(pushed, fate, Delivered) == []
    decreases fate
  {
    if pushed != [] {
      NoneDelivered(pushed[1..], fate[1..]);
    }
  }

  lemma {:induction false} SomeWaiting(pushed: seq<Job>, fate: seq<Fate>, i: nat)
    requires |pushed| == |fate| && i < |fate| && fate[i].Waiting?
    ensures Select(pushed, fate, Waiting) != []
    decreases fate
  {
    if i > 0 {
      SomeWaiting(pushed[1..], fate[1..], i - 1);
    }
  }

  lemma StepRefines(h: History, ev: Event)
    requires Refines(h)
    ensures Refines(Step(h, ev))
    ensures ev.Pop? ==> Step(h, ev).q == AfterPop(h.q)
    ensures ev.Remove? ==> Step(h, ev).q == AfterRemove(h.q, ev.id)
  {
    hide Select;
    match ev
    case Push(e, drop) =>
      SelectAppend(h.pushed, h.fate, Waiting, e, Waiting);
      SelectAppend(h.pushed, h.fate, Delivered, e, Waiting);
    case Pop =>
      if h.q.items != [] {
        DeliverFirst(h.pushed, h.fate);
      }
    case Remove(id) =>
      var i := Find(h.q.items, id);
      if i >= 0 {
        WithdrawNth(h.pushed, h.fate, i);
      }
    case Close =>
  }

  /** Over any sequence of events the length stays within cap, the items are the waiting entries and the
      popped entries are the delivered ones, both in push order: each pushed entry has one fate. */
  lemma {:induction false} QueueIsFifo(cap: nat, events: seq<Event>)
    ensures Refines(Run(cap, events))
  {
    hide Refines;
    if events == [] {
      StartRefines(cap);
    } else {
      QueueIsFifo(cap, events[..|events| - 1]);
      StepRefines(Run(cap, events[..|events| - 1]), events[|events| - 1]);
    }
  }

  lemma StartRefines(cap: nat)
    ensures Refines(History(Queue([], cap, false), [], [], [], 0))
  {
  }

  /** A worker is told to exit only when the queue is closed and every entry ever accepted, before or
      after closing, has been delivered or withdrawn. */
  lemma ExitMeansDone(cap: nat, events: seq<Event>, i: nat)
    requires PopVerdict(Run(cap, events).q).Exit?
    requires i < |Run(cap, events).fate|
    ensures Run(cap, events).q.closed && !Run(cap, events).fate[i].Waiting?
  {
    hide Run;
    QueueIsFifo(cap, events);
    var h := Run(cap, events);
    if h.fate[i].Waiting? {
      SomeWaiting(h.pushed, h.fate, i);
    }
  }
}

/** Each job is in one place: the exact bookkeeping of hands, heap and ready queue. */
module MachineTokens {
  import opened Wrappers
  import opened Jobs
  import opened ReadyQueues
  import opened Machine

  /** What the thread holds, and in which role. */
  function Hand(t: nat, pc: Pc): (h: Option<Loc>)
    ensures h.Some? ==> InHand(h.value) && h.value.t == t
  {
    match pc
    case Admitting(j) => Some(Loc(Fresh, t, j))
    case Replacing(j, _) => Some(Loc(Admitted, t, j))
    case CancelHeap(_, ret) => HandOfReturn(t, ret)
    case CancelReady(_, ret) => HandOfReturn(t, ret)
    case CancelTomb(_, ret) => HandOfReturn(t, ret)
    case Naming(j) => Some(Loc(Admitted, t, j))
    case CheckingRunning(j) => Some(Loc(Admitted, t, j))
    case Persisting(j, _) => Some(Loc(Admitted, t, j))
    case Enqueueing(j) => Some(Loc(Saved, t, j))
    case AwaitingRoom(j) => Some(Loc(Saved, t, j))
    case Delaying(j) => Some(Loc(Saved, t, j))
    case WorkerHas(j) => Some(Loc(AtWorker, t, j))
    case LookingUp(j) => Some(Loc(AtWorker, t, j))
    case Handling(j) => Some(Loc(Ran, t, j))
    case Handled(j, _) => Some(Loc(Ran, t, j))
    case SavingRetry(j) => Some(Loc(AtWorker, t, j))
    case Requeueing(j) => Some(Loc(AtWorker, t, j))
    case DueHas(j, _) => Some(Loc(AtLoop, t, j))
    case DuePush(j, _) => Some(Loc(AtLoop, t, j))
    case DueAwait(j, _) => Some(Loc(AtLoop, t, j))
    case _ => None
  }

  function HandOfReturn(t: nat, ret: Return): (h: Option<Loc>)
    ensures h.Some? ==> InHand(h.value) && h.value.t == t
  {
    match ret
    case ToCaller => None
    case ToReplace(j, _) => Some(Loc(Admitted, t, j))
  }

  predicate InHand(l: Loc) {
    IsHand(l.role)
  }

  function Count(b: bool): nat {
    if b then 1 else 0
  }

  function WhereIs(where: map<Id, Loc>, id: Id): Option<Loc> {
    if id in where then Some(where[id]) else None
  }

  ghost predicate HeapExact(where: map<Id, Loc>, heap: multiset<Job>) {
    forall e :: heap[e] == Count(WhereIs(where, e.id) == Some(Loc(InHeap, 0, e)))
  }

  ghost predicate ReadyExact(where: map<Id, Loc>, items: seq<Job>) {
    forall e :: multiset(items)[e] == Count(WhereIs(where, e.id) == Some(Loc(InReady, 0, e)))
  }

  ghost predicate HandsRecorded(threads: map<nat, Thread>, where: map<Id, Loc>) {
    forall t :: t in threads && Hand(t, threads[t].pc).Some? ==>
      WhereIs(where, Hand(t, threads[t].pc).value.job.id) == Hand(t, threads[t].pc)
  }

  ghost predicate RecordsHeld(threads: map<nat, Thread>, where: map<Id, Loc>) {
    forall id :: id in where ==>
      && where[id].job.id == id
      && (InHand(where[id]) ==>
            where[id].t in threads && Hand(where[id].t, threads[where[id].t].pc) == Some(where[id]))
  }

  ghost predicate Tokens(threads: map<nat, Thread>, where: map<Id, Loc>, heap: multiset<Job>, items: seq<Job>) {
    && HeapExact(where, heap)
    && ReadyExact(where, items)
    && HandsRecorded(threads, where)
    && RecordsHeld(threads, where)
  }

  ghost predicate TokenInv(s: State) {
    Tokens(s.threads, s.where, s.heap, s.ready.items)
  }

  // ---- Moving one job ----

  /** What the containers hold changes at one id only. */
  ghost predicate SameElsewhere(m: multiset<Job>, m': multiset<Job>, id: Id) {
    forall e: Job :: e.id != id ==> m'[e] == m[e]
  }

  ghost predicate HeapHas(m: multiset<Job>, id: Id, l: Loc) {
    forall e: Job :: e.id == id ==> m[e] == Count(l == Loc(InHeap, 0, e))
  }

  ghost predicate ReadyHas(m: multiset<Job>, id: Id, l: Loc) {
    forall e: Job :: e.id == id ==> m[e] == Count(l == Loc(InReady, 0, e))
  }

  lemma ContainersExact(where: map<Id, Loc>, heap: multiset<Job>, items: seq<Job>,
                        id: Id, l: Loc, heap': multiset<Job>, items': seq<Job>)
    requires HeapExact(where, heap) && ReadyExact(where, items)
    requires SameElsewhere(heap, heap', id) && SameElsewhere(multiset(items), multiset(items'), id)
    requires HeapHas(heap', id, l) && ReadyHas(multiset(items'), id, l)
    ensures HeapExact(where[id := l], heap') && ReadyExact(where[id := l], items')
  {
    hide Count;
    var where' := where[id := l];
    forall e: Job ensures heap'[e] == Count(WhereIs(where', e.id) == Some(Loc(InHeap, 0, e))) {
      assert heap[e] == Count(WhereIs(where, e.id) == Some(Loc(InHeap, 0, e)));
    }
    forall e: Job ensures multiset(items')[e] == Count(WhereIs(where', e.id) == Some(Loc(InReady, 0, e))) {
      assert multiset(items)[e] == Count(WhereIs(where, e.id) == Some(Loc(InReady, 0, e)));
    }
  }

  /** A record that is in no hand but perhaps thread t's changes, and thread t's hand with it. */
  lemma HandsExact(threads: map<nat, Thread>, where: map<Id, Loc>, t: nat, next: Thread, id: Id, l: Loc)
    requires HandsRecorded(threads, where) && RecordsHeld(threads, where) && t in threads
    requires Hand(t, threads[t].pc).Some? ==> Hand(t, threads[t].pc).value.job.id == id
    requires id in where && InHand(where[id]) ==> where[id].t == t
    requires l.job.id == id
    requires if InHand(l) then Hand(t, next.pc) == Some(l) && l.t == t else Hand(t, next.pc) == None
    ensures HandsRecorded(threads[t := next], where[id := l]) && RecordsHeld(threads[t := next], where[id := l])
  {
    hide Hand;
    forall u | u in threads && u != t && Hand(u, threads[u].pc).Some?
      ensures Hand(u, threads[u].pc).value.job.id != id
    {
    }
  }

  /** A job in no hand is gone; thread t keeps its hand. */
  lemma HandsKept(threads: map<nat, Thread>, where: map<Id, Loc>, t: nat, next: Thread, id: Id, l: Loc)
    requires HandsRecorded(threads, where) && RecordsHeld(threads, where) && t in threads
    requires Hand(t, next.pc) == Hand(t, threads[t].pc)
    requires id in where && !InHand(where[id]) && !InHand(l) && l.job.id == id
    ensures HandsRecorded(threads[t := next], where[id := l])
    ensures RecordsHeld(threads[t := next], where[id := l])
  {
    hide Hand;
    forall u | u in threads && Hand(u, threads[u].pc).Some?
      ensures Hand(u, threads[u].pc).value.job.id != id
    {
    }
  }

  /** Job `id` goes to l: the containers change at that id only, and thread t is the only one whose hand
      changes. */
  lemma Relocate(threads: map<nat, Thread>, where: map<Id, Loc>, heap: multiset<Job>, items: seq<Job>,
                 t: nat, next: Thread, id: Id, l: Loc, heap': multiset<Job>, items': seq<Job>)
    requires Tokens(threads, where, heap, items) && t in threads
    requires Hand(t, threads[t].pc).Some? ==> Hand(t, threads[t].pc).value.job.id == id
    requires id in where && InHand(where[id]) ==> where[id].t == t
    requires l.job.id == id
    requires if InHand(l) then Hand(t, next.pc) == Some(l) && l.t == t else Hand(t, next.pc) == None
    requires SameElsewhere(heap, heap', id) && SameElsewhere(multiset(items), multiset(items'), id)
    requires HeapHas(heap', id, l) && ReadyHas(multiset(items'), id, l)
    ensures Tokens(threads[t := next], where[id := l], heap', items')
  {
    hide Hand, HeapExact, ReadyExact, HandsRecorded, RecordsHeld, SameElsewhere, HeapHas, ReadyHas;
    ContainersExact(where, heap, items, id, l, heap', items');
    HandsExact(threads, where, t, next, id, l);
  }

  /** Thread t carries on with the same hand. */
  lemma Carry(threads: map<nat, Thread>, where: map<Id, Loc>, heap: multiset<Job>, items: seq<Job>,
              t: nat, next: Thread)
    requires Tokens(threads, where, heap, items) && t in threads
    requires Hand(t, next.pc) == Hand(t, threads[t].pc)
    ensures Tokens(threads[t := next], where, heap, items)
  {
    hide Hand, Count, WhereIs, HeapExact, ReadyExact;
  }

  /** A job taken out of a container is gone; thread t keeps its hand. */
  lemma TakeOut(threads: map<nat, Thread>, where: map<Id, Loc>, heap: multiset<Job>, items: seq<Job>,
                t: nat, next: Thread, id: Id, l: Loc, heap': multiset<Job>, items': seq<Job>)
    requires Tokens(threads, where, heap, items) && t in threads
    requires Hand(t, next.pc) == Hand(t, threads[t].pc)
    requires id in where && !InHand(where[id]) && IsGone(l.role) && l.job.id == id
    requires SameElsewhere(heap, heap', id) && SameElsewhere(multiset(items), multiset(items'), id)
    requires HeapHas(heap', id, l) && ReadyHas(multiset(items'), id, l)
    ensures Tokens(threads[t := next], where[id := l], heap', items')
  {
    hide Hand, HeapExact, ReadyExact, HandsRecorded, RecordsHeld, SameElsewhere, HeapHas, ReadyHas;
    ContainersExact(where, heap, items, id, l, heap', items');
    HandsKept(threads, where, t, next, id, l);
  }

  lemma HeadOf(items: seq<Job>)
    requires items != []
    ensures multiset(items) == multiset{items[0]} + multiset(items[1..])
  {
    assert items == [items[0]] + items[1..];
  }

  lemma MiddleOf(items: seq<Job>, k: nat)
    requires k < |items|
    ensures multiset(items) == multiset{items[k]} + multiset(Without(items, k))
  {
    assert items == items[..k] + [items[k]] + items[k + 1..];
  }

  predicate HasRole(where: map<Id, Loc>, id: Id, r: Role) {
    id in where && where[id].role == r
  }

  lemma HeapUntouched(where: map<Id, Loc>, heap: multiset<Job>, id: Id, l: Loc)
    requires HeapExact(where, heap) && !HasRole(where, id, InHeap) && !l.role.InHeap?
    ensures SameElsewhere(heap, heap, id) && HeapHas(heap, id, l)
  {
    forall e: Job | e.id == id ensures heap[e] == Count(l == Loc(InHeap, 0, e)) {
      assert heap[e] == Count(WhereIs(where, e.id) == Some(Loc(InHeap, 0, e)));
    }
  }

  lemma HeapAdded(where: map<Id, Loc>, heap: multiset<Job>, j: Job)
    requires HeapExact(where, heap) && !HasRole(where, j.id, InHeap)
    ensures SameElsewhere(heap, heap + multiset{j}, j.id) && HeapHas(heap + multiset{j}, j.id, Loc(InHeap, 0, j))
  {
    forall e: Job | e.id == j.id ensures heap[e] == 0 {
      assert heap[e] == Count(WhereIs(where, e.id) == Some(Loc(InHeap, 0, e)));
    }
  }

  lemma HeapTaken(where: map<Id, Loc>, heap: multiset<Job>, j: Job, l: Loc)
    requires HeapExact(where, heap) && j in heap && !l.role.InHeap?
    ensures WhereIs(where, j.id) == Some(Loc(InHeap, 0, j))
    ensures SameElsewhere(heap, heap - multiset{j}, j.id) && HeapHas(heap - multiset{j}, j.id, l)
  {
    assert heap[j] == Count(WhereIs(where, j.id) == Some(Loc(InHeap, 0, j)));
    forall e: Job | e.id == j.id ensures (heap - multiset{j})[e] == 0 {
      assert heap[e] == Count(WhereIs(where, e.id) == Some(Loc(InHeap, 0, e)));
    }
  }

  lemma ReadyUntouched(where: map<Id, Loc>, items: seq<Job>, id: Id, l: Loc)
    requires ReadyExact(where, items) && !HasRole(where, id, InReady) && !l.role.InReady?
    ensures SameElsewhere(multiset(items), multiset(items), id) && ReadyHas(multiset(items), id, l)
  {
    forall e: Job | e.id == id ensures multiset(items)[e] == Count(l == Loc(InReady, 0, e)) {
      assert multiset(items)[e] == Count(WhereIs(where, e.id) == Some(Loc(InReady, 0, e)));
    }
  }

  lemma ReadyAdded(where: map<Id, Loc>, items: seq<Job>, j: Job)
    requires ReadyExact(where, items) && !HasRole(where, j.id, InReady)
    ensures SameElsewhere(multiset(items), multiset(items + [j]), j.id)
    ensures ReadyHas(multiset(items + [j]), j.id, Loc(InReady, 0, j))
  {
    forall e: Job | e.id == j.id ensures multiset(items)[e] == 0 {
      assert multiset(items)[e] == Count(WhereIs(where, e.id) == Some(Loc(InReady, 0, e)));
    }
  }

  lemma ReadyTaken(where: map<Id, Loc>, items: seq<Job>, rest: seq<Job>, j: Job, l: Loc)
    requires ReadyExact(where, items) && multiset(items) == multiset{j} + multiset(rest) && !l.role.InReady?
    ensures WhereIs(where, j.id) == Some(Loc(InReady, 0, j))
    ensures SameElsewhere(multiset(items), multiset(rest), j.id) && ReadyHas(multiset(rest), j.id, l)
  {
    assert multiset(items)[j] == Count(WhereIs(where, j.id) == Some(Loc(InReady, 0, j)));
    forall e: Job | e.id == j.id ensures multiset(rest)[e] == 0 {
      assert multiset(items)[e] == Count(WhereIs(where, e.id) == Some(Loc(InReady, 0, e)));
    }
  }

  /** What thread t holds is recorded as in its hand. */
  lemma HandRecorded(threads: map<nat, Thread>, where: map<Id, Loc>, t: nat)
    requires HandsRecorded(threads, where) && t in threads && Hand(t, threads[t].pc).Some?
    ensures var l := Hand(t, threads[t].pc).value;
            WhereIs(where, l.job.id) == Some(l) && InHand(l) && l.t == t
  {
    hide Hand;
  }

  // ---- Every step keeps the books ----

  lemma MoveHand(s: State, t: nat, todo: seq<Chore>, pc: Pc, id: Id, l: Loc)
    requires TokenInv(s) && t in s.threads
    requires Hand(t, s.threads[t].pc).Some? && Hand(t, s.threads[t].pc).value.job.id == id
    requires l.job.id == id && (InHand(l) ==> Hand(t, pc) == Some(l) && l.t == t)
    requires !InHand(l) ==> IsGone(l.role) && Hand(t, pc) == None
    ensures TokenInv(At(Place(s, id, l), t, todo, pc))
  {
    hide Hand, HeapExact, ReadyExact, HandsRecorded, RecordsHeld, SameElsewhere, HeapHas, ReadyHas;
    HandRecorded(s.threads, s.where, t);
    HeapUntouched(s.where, s.heap, id, l);
    ReadyUntouched(s.where, s.ready.items, id, l);
    Relocate(s.threads, s.where, s.heap, s.ready.items, t, Thread(todo, pc), id, l, s.heap, s.ready.items);
  }

  lemma HandToHeap(s: State, t: nat, todo: seq<Chore>, pc: Pc, j: Job)
    requires TokenInv(s) && t in s.threads
    requires Hand(t, s.threads[t].pc).Some? && Hand(t, s.threads[t].pc).value.job.id == j.id
    requires Hand(t, pc) == None
    ensures TokenInv(At(Place(s, j.id, Loc(InHeap, 0, j)), t, todo, pc).(heap := s.heap + multiset{j}))
  {
    hide Hand, HeapExact, ReadyExact, HandsRecorded, RecordsHeld, SameElsewhere, HeapHas, ReadyHas;
    var l := Loc(InHeap, 0, j);
    HandRecorded(s.threads, s.where, t);
    HeapAdded(s.where, s.heap, j);
    ReadyUntouched(s.where, s.ready.items, j.id, l);
    Relocate(s.threads, s.where, s.heap, s.ready.items, t, Thread(todo, pc), j.id, l,
             s.heap + multiset{j}, s.ready.items);
  }

  lemma HandToReady(s: State, t: nat, todo: seq<Chore>, pc: Pc, j: Job, drop: bool)
    requires TokenInv(s) && t in s.threads && PushVerdict(s.ready, drop).Pushed?
    requires Hand(t, s.threads[t].pc).Some? && Hand(t, s.threads[t].pc).value.job.id == j.id
    requires Hand(t, pc) == None
    ensures TokenInv(At(Place(s, j.id, Loc(InReady, 0, j)), t, todo, pc).(ready := AfterPush(s.ready, j, drop)))
  {
    hide Hand, HeapExact, ReadyExact, HandsRecorded, RecordsHeld, SameElsewhere, HeapHas, ReadyHas;
    var l := Loc(InReady, 0, j);
    HandRecorded(s.threads, s.where, t);
    HeapUntouched(s.where, s.heap, j.id, l);
    ReadyAdded(s.where, s.ready.items, j);
    Relocate(s.threads, s.where, s.heap, s.ready.items, t, Thread(todo, pc), j.id, l, s.heap, s.ready.items + [j]);
  }

  lemma HeapToHand(s: State, t: nat, todo: seq<Chore>, pc: Pc, j: Job, l: Loc)
    requires TokenInv(s) && t in s.threads && j in s.heap
    requires Hand(t, s.threads[t].pc) == None && l.job == j
    requires if InHand(l) then Hand(t, pc) == Some(l) && l.t == t else IsGone(l.role) && Hand(t, pc) == None
    ensures TokenInv(At(Place(s, j.id, l), t, todo, pc).(heap := s.heap - multiset{j}))
  {
    hide Hand, HeapExact, ReadyExact, HandsRecorded, RecordsHeld, SameElsewhere, HeapHas, ReadyHas;
    HeapTaken(s.where, s.heap, j, l);
    ReadyUntouched(s.where, s.ready.items, j.id, l);
    Relocate(s.threads, s.where, s.heap, s.ready.items, t, Thread(todo, pc), j.id, l,
             s.heap - multiset{j}, s.ready.items);
  }

  lemma ReadyToHand(s: State, t: nat, todo: seq<Chore>, pc: Pc)
    requires TokenInv(s) && t in s.threads && s.ready.items != []
    requires Hand(t, s.threads[t].pc) == None && Hand(t, pc) == Some(Loc(AtWorker, t, s.ready.items[0]))
    ensures var j := s.ready.items[0];
            TokenInv(At(Place(s, j.id, Loc(AtWorker, t, j)), t, todo, pc).(ready := AfterPop(s.ready)))
  {
    hide Hand, HeapExact, ReadyExact, HandsRecorded, RecordsHeld, SameElsewhere, HeapHas, ReadyHas;
    var j := s.ready.items[0];
    var l := Loc(AtWorker, t, j);
    HeadOf(s.ready.items);
    ReadyTaken(s.where, s.ready.items, s.ready.items[1..], j, l);
    HeapUntouched(s.where, s.heap, j.id, l);
    Relocate(s.threads, s.where, s.heap, s.ready.items, t, Thread(todo, pc), j.id, l, s.heap, s.ready.items[1..]);
  }

  lemma HeapRemoval(s: State, t: nat, todo: seq<Chore>, pc: Pc, j: Job)
    requires TokenInv(s) && t in s.threads && j in s.heap
    requires Hand(t, pc) == Hand(t, s.threads[t].pc)
    ensures TokenInv(At(Place(s, j.id, Loc(Removed, 0, j)), t, todo, pc).(heap := s.heap - multiset{j}))
  {
    hide Hand, HeapExact, ReadyExact, HandsRecorded, RecordsHeld, SameElsewhere, HeapHas, ReadyHas;
    var l := Loc(Removed, 0, j);
    HeapTaken(s.where, s.heap, j, l);
    ReadyUntouched(s.where, s.ready.items, j.id, l);
    TakeOut(s.threads, s.where, s.heap, s.ready.items, t, Thread(todo, pc), j.id, l,
            s.heap - multiset{j}, s.ready.items);
  }

  lemma ReadyRemoval(s: State, t: nat, todo: seq<Chore>, pc: Pc, id: Id)
    requires TokenInv(s) && t in s.threads && Find(s.ready.items, id) >= 0
    requires Hand(t, pc) == Hand(t, s.threads[t].pc)
    ensures TokenInv(At(Place(s, id, Loc(Removed, 0, s.ready.items[Find(s.ready.items, id)])), t, todo, pc)
                     .(ready := AfterRemove(s.ready, id)))
  {
    hide Hand, HeapExact, ReadyExact, HandsRecorded, RecordsHeld, SameElsewhere, HeapHas, ReadyHas;
    var k := Find(s.ready.items, id);
    hide Find;
    var j := s.ready.items[k];
    var l := Loc(Removed, 0, j);
    MiddleOf(s.ready.items, k);
    ReadyTaken(s.where, s.ready.items, Without(s.ready.items, k), j, l);
    HeapUntouched(s.where, s.heap, id, l);
    TakeOut(s.threads, s.where, s.heap, s.ready.items, t, Thread(todo, pc), id, l,
            s.heap, Without(s.ready.items, k));
  }

  lemma NewHand(s: State, t: nat, todo: seq<Chore>, pc: Pc, j: Job)
    requires TokenInv(s) && t in s.threads && j.id !in s.where
    requires Hand(t, s.threads[t].pc) == None && Hand(t, pc) == Some(Loc(Fresh, t, j))
    ensures TokenInv(At(Place(s, j.id, Loc(Fresh, t, j)), t, todo, pc))
  {
    hide Hand, HeapExact, ReadyExact, HandsRecorded, RecordsHeld, SameElsewhere, HeapHas, ReadyHas;
    var l := Loc(Fresh, t, j);
    HeapUntouched(s.where, s.heap, j.id, l);
    ReadyUntouched(s.where, s.ready.items, j.id, l);
    Relocate(s.threads, s.where, s.heap, s.ready.items, t, Thread(todo, pc), j.id, l, s.heap, s.ready.items);
  }

  lemma CarryOn(s: State, t: nat, todo: seq<Chore>, pc: Pc)
    requires TokenInv(s) && t in s.threads && Hand(t, pc) == Hand(t, s.threads[t].pc)
    ensures TokenInv(At(s, t, todo, pc))
  {
    Carry(s.threads, s.where, s.heap, s.ready.items, t, Thread(todo, pc));
  }

  lemma SubmitTokens(s: State, t: nat, j: Job)
    requires TokenInv(s) && t in s.threads && s.threads[t].pc.Idle? && j.id !in s.where
    ensures TokenInv(DoSubmit(s, t, j))
  {
    hide Tokens;
    NewHand(s, t, [], Admitting(j), j);
  }

  lemma AdmitTokens(c: Config, s: State, t: nat, j: Job)
    requires TokenInv(s) && t in s.threads && s.threads[t].pc == Admitting(j)
    ensures TokenInv(DoAdmit(c, s, t, j))
  {
    hide Tokens;
    if c.policy.Skip? && FlightSet(s.flight, j.name) != {} {
      MoveHand(s, t, [], Idle, j.id, Loc(Rejected, 0, j));
    } else if c.policy.Replace? {
      MoveHand(s, t, [], Replacing(j, FlightSet(s.flight, j.name)), j.id, Loc(Admitted, t, j));
    } else {
      MoveHand(s, t, [], Naming(j), j.id, Loc(Admitted, t, j));
    }
  }

  lemma CancelHeapTokens(s: State, t: nat, id: Id, ret: Return, entry: Option<Job>)
    requires TokenInv(s) && t in s.threads && s.threads[t].pc == CancelHeap(id, ret) && IsVictim(s.heap, id, entry)
    ensures TokenInv(DoRemoveFromHeap(s, t, id, ret, entry))
  {
    hide Tokens;
    if entry.Some? {
      HeapRemoval(s, t, [], CancelReady(id, ret), entry.value);
    } else {
      CarryOn(s, t, [], CancelReady(id, ret));
    }
  }

  lemma CancelReadyTokens(s: State, t: nat, id: Id, ret: Return)
    requires TokenInv(s) && t in s.threads && s.threads[t].pc == CancelReady(id, ret)
    ensures TokenInv(DoRemoveFromReady(s, t, id, ret))
  {
    hide Tokens, AfterRemove;
    if Find(s.ready.items, id) == -1 {
      CarryOn(s, t, [], CancelTomb(id, ret));
    } else {
      ReadyRemoval(s, t, [], CancelTomb(id, ret), id);
    }
  }

  lemma CheckRunningTokens(s: State, t: nat, j: Job)
    requires TokenInv(s) && t in s.threads && s.threads[t].pc == CheckingRunning(j)
    ensures TokenInv(DoCheckRunning(s, t, j))
  {
    hide Tokens;
    if s.running {
      CarryOn(s, t, [], Persisting(j, !RunsNow(j, s.now)));
    } else {
      MoveHand(s, t, Release(j), Idle, j.id, Loc(Rejected, 0, j));
    }
  }

  lemma PersistTokens(c: Config, s: State, t: nat, j: Job, delayed: bool, ok: bool, wrote: bool)
    requires TokenInv(s) && t in s.threads && s.threads[t].pc == Persisting(j, delayed)
    ensures TokenInv(DoPersist(c, s, t, j, delayed, ok, wrote))
  {
    hide Tokens;
    if c.hasStore && !ok {
      MoveHand(s, t, Release(j), Idle, j.id, Loc(Rejected, 0, j));
    } else {
      MoveHand(s, t, [], if delayed then Delaying(j) else Enqueueing(j), j.id, Loc(Saved, t, j));
    }
  }

  lemma EnqueueTokens(c: Config, s: State, t: nat, j: Job)
    requires TokenInv(s) && t in s.threads && s.threads[t].pc == Enqueueing(j)
    ensures TokenInv(DoEnqueue(c, s, t, j))
  {
    hide Tokens, AfterPush;
    if PushVerdict(s.ready, c.drop).Pushed? {
      HandToReady(s, t, [], Idle, j, c.drop);
    } else if PushVerdict(s.ready, c.drop).MustWait? {
      CarryOn(s, t, [], AwaitingRoom(j));
    } else {
      MoveHand(s, t, Undo(j), Idle, j.id, Loc(Rejected, 0, j));
    }
  }

  lemma PushDelayedTokens(s: State, t: nat, j: Job)
    requires TokenInv(s) && t in s.threads && s.threads[t].pc == Delaying(j)
    ensures TokenInv(DoPushDelayed(s, t, j))
  {
    hide Tokens;
    HandToHeap(s, t, [SignalLoop], Idle, j);
  }

  lemma AbortPushTokens(s: State, t: nat, j: Job)
    requires TokenInv(s) && t in s.threads && s.threads[t].pc == AwaitingRoom(j)
    ensures TokenInv(DoAbortPush(s, t, j))
  {
    hide Tokens;
    MoveHand(s, t, Undo(j), Idle, j.id, Loc(Rejected, 0, j));
  }

  lemma ClientTokens(c: Config, s: State, t: nat, op: ClientOp)
    requires TokenInv(s) && s.where.Keys <= s.used
    requires Free(s, t) && ClientEnabled(c, s, s.threads[t].pc, op)
    ensures TokenInv(DoClient(c, s, t, s.threads[t].pc, op))
  {
    hide Tokens, DoSubmit, DoAdmit, DoRemoveFromHeap, DoRemoveFromReady, DoCheckRunning, DoPersist, DoEnqueue,
      DoAbortPush, DoPushDelayed, IsVictim;
    var pc := s.threads[t].pc;
    match op
    case Submit(j) => SubmitTokens(s, t, j);
    case Admit => AdmitTokens(c, s, t, pc.job);
    case NextReplaced(id) => CarryOn(s, t, [], CancelHeap(id, ToReplace(pc.job, pc.pending - {id})));
    case AllReplaced => CarryOn(s, t, [], Naming(pc.job));
    case BeginCancel(id) => CarryOn(s, t, [], CancelHeap(id, ToCaller));
    case RemoveFromHeap(entry) => CancelHeapTokens(s, t, pc.id, pc.ret, entry);
    case RemoveFromReady => CancelReadyTokens(s, t, pc.id, pc.ret);
    case Entomb => CarryOn(s, t, [LookUpName(pc.id), DeleteRecord(pc.id)], Resume(pc.ret));
    case RecordName => CarryOn(s, t, [], CheckingRunning(pc.job));
    case CheckRunning => CheckRunningTokens(s, t, pc.job);
    case Persist(ok, wrote) => PersistTokens(c, s, t, pc.job, pc.delayed, ok, wrote);
    case Enqueue => EnqueueTokens(c, s, t, pc.job);
    case RetryPush => CarryOn(s, t, [], Enqueueing(pc.job));
    case AbortPush => AbortPushTokens(s, t, pc.job);
    case PushDelayed => PushDelayedTokens(s, t, pc.job);
    case BeginShutdown => CarryOn(s, t, [], ShutStop);
    case StopLoop => CarryOn(s, t, [], ShutClose);
    case CloseQueue => CarryOn(s, t, [], Idle);
  }

  lemma TakeReadyTokens(s: State, t: nat)
    requires TokenInv(s) && t in s.threads && s.threads[t].pc.WorkerPop?
    ensures TokenInv(DoTakeReady(s, t))
  {
    hide Tokens, AfterPop;
    if s.ready.items == [] {
      CarryOn(s, t, [], WorkerDone);
    } else {
      ReadyToHand(s, t, [], WorkerHas(s.ready.items[0]));
    }
  }

  lemma FirstCheckTokens(s: State, t: nat, j: Job)
    requires TokenInv(s) && t in s.threads && s.threads[t].pc == WorkerHas(j)
    ensures TokenInv(DoFirstCheck(s, t, j))
  {
    hide Tokens;
    if j.id in s.cancelled {
      MoveHand(s, t, Release(j), WorkerPop, j.id, Loc(Discarded, 0, j));
    } else {
      CarryOn(s, t, [], LookingUp(j));
    }
  }

  lemma StartHandlerTokens(c: Config, s: State, t: nat, j: Job)
    requires TokenInv(s) && t in s.threads && s.threads[t].pc == LookingUp(j)
    ensures TokenInv(DoStartHandler(c, s, t, j))
  {
    hide Tokens;
    if j.name in c.handlers {
      MoveHand(s, t, [], Handling(j), j.id, Loc(Ran, t, j));
    } else {
      MoveHand(s, t, Cleanup(j), WorkerPop, j.id, Loc(Finished, 0, j));
    }
  }

  lemma SecondCheckTokens(s: State, t: nat, j: Job, ok: bool)
    requires TokenInv(s) && t in s.threads && s.threads[t].pc == Handled(j, ok)
    ensures TokenInv(DoSecondCheck(s, t, j, ok))
  {
    hide Tokens, NextAttempt;
    if j.id in s.cancelled {
      MoveHand(s, t, Cleanup(j), WorkerPop, j.id, Loc(Discarded, 0, j));
    } else if !ok && Retries(j) {
      var next := NextAttempt(j, s.now);
      NextKeepsId(j, s.now);
      MoveHand(s, t, [], SavingRetry(next), j.id, Loc(AtWorker, t, next));
    } else {
      MoveHand(s, t, Cleanup(j), WorkerPop, j.id, Loc(Finished, 0, j));
    }
  }

  lemma NextKeepsId(j: Job, now: int)
    ensures NextAttempt(j, now).id == j.id
  {
  }

  lemma RequeueTokens(s: State, t: nat, j: Job)
    requires TokenInv(s) && t in s.threads && s.threads[t].pc == Requeueing(j)
    ensures TokenInv(DoRequeue(s, t, j))
  {
    hide Tokens;
    HandToHeap(s, t, [SignalLoop] + Cleanup(j), WorkerPop, j);
  }

  lemma WorkerTokens(c: Config, s: State, t: nat, op: WorkerOp)
    requires TokenInv(s) && Free(s, t) && WorkerEnabled(s, s.threads[t].pc, op)
    ensures TokenInv(DoWork(c, s, t, s.threads[t].pc, op))
  {
    hide Tokens, DoTakeReady, DoFirstCheck, DoStartHandler, DoSecondCheck, DoRequeue;
    var pc := s.threads[t].pc;
    match op
    case TakeReady => TakeReadyTokens(s, t);
    case FirstCheck => FirstCheckTokens(s, t, pc.job);
    case StartHandler => StartHandlerTokens(c, s, t, pc.job);
    case HandlerReturns(ok) => CarryOn(s, t, [], Handled(pc.job, ok));
    case SecondCheck => SecondCheckTokens(s, t, pc.job, pc.ok);
    case SaveRetry(wrote) => CarryOn(s, t, [], Requeueing(pc.job));
    case Requeue => RequeueTokens(s, t, pc.job);
  }

  lemma TakeDueTokens(s: State, t: nat, at: int, root: Option<Job>)
    requires TokenInv(s) && t in s.threads && s.threads[t].pc == PopDue(at) && IsRootOf(s.heap, root)
    ensures TokenInv(DoTakeDue(s, t, at, root))
  {
    hide Tokens;
    if root.None? || root.value.runAt > at {
      CarryOn(s, t, [], LoopCheck);
    } else {
      HeapToHand(s, t, [], DueHas(root.value, at), root.value, Loc(AtLoop, t, root.value));
    }
  }

  lemma DueCheckTokens(s: State, t: nat, j: Job, at: int)
    requires TokenInv(s) && t in s.threads && s.threads[t].pc == DueHas(j, at)
    ensures TokenInv(DoDueCheck(s, t, j, at))
  {
    hide Tokens;
    if j.id in s.cancelled {
      MoveHand(s, t, Release(j), PopDue(at), j.id, Loc(Discarded, 0, j));
    } else {
      CarryOn(s, t, [], DuePush(j, at));
    }
  }

  lemma DueEnqueueTokens(s: State, t: nat, j: Job, at: int)
    requires TokenInv(s) && t in s.threads && s.threads[t].pc == DuePush(j, at)
    ensures TokenInv(DoDueEnqueue(s, t, j, at))
  {
    hide Tokens, AfterPush;
    if PushVerdict(s.ready, false).Pushed? {
      HandToReady(s, t, [], PopDue(at), j, false);
    } else if PushVerdict(s.ready, false).MustWait? {
      CarryOn(s, t, [], DueAwait(j, at));
    } else {
      MoveHand(s, t, [], PopDue(at), j.id, Loc(Lost, 0, j));
    }
  }

  lemma DrainTokens(s: State, t: nat, root: Option<Job>)
    requires TokenInv(s) && t in s.threads && s.threads[t].pc == Draining && IsRootOf(s.heap, root)
    ensures TokenInv(DoDrain(s, t, root))
  {
    hide Tokens;
    if root.Some? {
      HeapToHand(s, t, Undo(root.value), Draining, root.value, Loc(Drained, 0, root.value));
    } else {
      CarryOn(s, t, [], LoopDone);
    }
  }

  lemma LoopTokens(s: State, t: nat, op: LoopOp)
    requires TokenInv(s) && Free(s, t) && LoopEnabled(s, s.threads[t].pc, op)
    ensures TokenInv(DoLoop(s, t, s.threads[t].pc, op))
  {
    hide Tokens, DoTakeDue, DoDueCheck, DoDueEnqueue, DoDrain, IsRootOf;
    var pc := s.threads[t].pc;
    match op
    case Look(root) => CarryOn(s, t, [], LoopWait(if root.Some? then Some(root.value.runAt) else None));
    case Signalled => CarryOn(s, t, [], LoopCheck);
    case TimerFires => CarryOn(s, t, [], PopDue(s.now));
    case Stopped => CarryOn(s, t, [], Draining);
    case TakeDue(root) => TakeDueTokens(s, t, pc.at, root);
    case DueCheck => DueCheckTokens(s, t, pc.job, pc.at);
    case DueEnqueue => DueEnqueueTokens(s, t, pc.job, pc.at);
    case DueRetry => CarryOn(s, t, [], DuePush(pc.job, pc.at));
    case Drain(root) => DrainTokens(s, t, root);
  }

  lemma ChoreTokens(c: Config, s: State, t: nat, wrote: bool)
    requires TokenInv(s) && t in s.threads && s.threads[t].todo != []
    ensures TokenInv(DoChoreOf(c, s, t, wrote))
  {
    hide Tokens, At, DropFlight;
    var th := s.threads[t];
    CarryOn(s, t, th.todo[1..], th.pc);
    if th.todo[0].LookUpName? && th.todo[0].id in s.names {
      var id := th.todo[0].id;
      CarryOn(s, t, [ReleaseName(s.names[id], id), ForgetName(id)] + th.todo[1..], th.pc);
    }
  }

  lemma StepTokens(c: Config, s: State, a: Action)
    requires TokenInv(s) && s.where.Keys <= s.used && Enabled(c, s, a)
    ensures TokenInv(Do(c, s, a))
  {
    hide TokenInv, DoClient, DoWork, DoLoop, DoChoreOf;
    match a
    case Tick(time) => TickTokens(s, time);
    case DoChore(t, wrote) => ChoreTokens(c, s, t, wrote);
    case Client(t, op) => ClientTokens(c, s, t, op);
    case Work(t, op) => WorkerTokens(c, s, t, op);
    case Loop(t, op) => LoopTokens(s, t, op);
  }

  lemma TickTokens(s: State, time: int)
    requires TokenInv(s)
    ensures TokenInv(s.(now := time))
  {
  }

  lemma StartTokens(c: Config, s: State)
    requires IsStart(c, s)
    ensures TokenInv(s)
  {
  }
}

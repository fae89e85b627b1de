/** internal/core/dispatcher.go and worker.go: the operations of the dispatcher that loop over its own state,
    run by one thread with the dispatcher to itself.  Module Machine interleaves them step by step. */
module Dispatchers {
  import opened Wrappers
  import opened Jobs
  import opened StatusTables
  import opened ReadyQueues
  import opened DelayHeaps
  import opened Machine
  import Backoff

  /** The maps that record jobs by name or id. */
  datatype Books = Books(table: Table, flight: map<Name, set<Id>>, names: map<Id, Name>, store: map<Id, Job>)

  // ---- What the operations do to the books ----

  function Marked(b: Books, id: Id, s: Status): Books {
    b.(table := Mark(b.table, id, s))
  }

  function Released(b: Books, policy: Policy, name: Name, id: Id): Books {
    b.(flight := if policy.Allow? then b.flight else DropFlight(b.flight, name, id), names := b.names - {id})
  }

  function Forgotten(b: Books, hasStore: bool, id: Id): Books {
    b.(store := if hasStore then b.store - {id} else b.store)
  }

  /** After popDue has moved an entry. */
  function AfterMove(b: Books, policy: Policy, cancelled: set<Id>, j: Job): Books {
    if j.id in cancelled then Released(Marked(b, j.id, Cancelled), policy, j.name, j.id) else Marked(b, j.id, Queued)
  }

  function AfterDue(b: Books, policy: Policy, cancelled: set<Id>, moved: seq<Job>): Books {
    if moved == [] then b
    else AfterMove(AfterDue(b, policy, cancelled, moved[..|moved| - 1]), policy, cancelled, moved[|moved| - 1])
  }

  /** A tombstoned entry is dropped instead of pushed. */
  function MovedInto(q: Queue, cancelled: set<Id>, j: Job): Queue {
    if j.id in cancelled then q else AfterPush(q, j, false)
  }

  /** After drainDelayed has dropped an entry. */
  function AfterDrop(b: Books, policy: Policy, hasStore: bool, j: Job): Books {
    Released(Marked(Forgotten(b, hasStore, j.id), j.id, Cancelled), policy, j.name, j.id)
  }

  function AfterDrain(b: Books, policy: Policy, hasStore: bool, dropped: seq<Job>): Books {
    if dropped == [] then b
    else AfterDrop(AfterDrain(b, policy, hasStore, dropped[..|dropped| - 1]), policy, hasStore, dropped[|dropped| - 1])
  }

  function AfterCancel(b: Books, policy: Policy, hasStore: bool, id: Id): Books {
    var b' := if id in b.names then Released(b, policy, b.names[id], id) else b;
    Marked(Forgotten(b', hasStore, id), id, Cancelled)
  }

  function Recorded(b: Books, hasStore: bool, j: Job): Books {
    b.(store := if hasStore then b.store[j.id := j] else b.store)
  }

  /** The status a job has after its handler has returned. */
  function AfterHandler(j: Job, cancelled: bool, succeeds: bool): Status {
    if cancelled then Cancelled
    else if succeeds then Succeeded
    else if Retries(j) then Delayed
    else Failed
  }

  /** The status a job has after runEntry. */
  function Outcome(j: Job, handlers: set<Name>, cancelled: set<Id>, succeeds: bool, cancels: bool): Status {
    if j.id in cancelled then Cancelled
    else if j.name !in handlers then Failed
    else AfterHandler(j, cancels, succeeds)
  }

  /** What runEntry delays: the next attempt of a job it leaves delayed. */
  function Again(j: Job, now: int, s: Status): seq<Job> {
    if s.Delayed? then [NextAttempt(j, now)] else []
  }

  lemma NotAgain(j: Job, now: int, s: Status)
    requires !s.Delayed?
    ensures multiset(Again(j, now, s)) == multiset{}
  {
  }

  function Enrolled(b: Books, policy: Policy, j: Job): Books {
    b.(names := b.names[j.id := j.name],
       flight := if policy.Allow? then b.flight else AddFlight(b.flight, j.name, j.id))
  }

  /** The jobs that are kept, in order. */
  function Untombed(jobs: seq<Job>, cancelled: set<Id>): seq<Job> {
    if jobs == [] then []
    else
      var last := jobs[|jobs| - 1];
      Untombed(jobs[..|jobs| - 1], cancelled) + if last.id in cancelled then [] else [last]
  }

  /** The jobs whose time has come, in order. */
  function Due(jobs: seq<Job>, now: int): seq<Job> {
    if jobs == [] then []
    else
      var last := jobs[|jobs| - 1];
      Due(jobs[..|jobs| - 1], now) + if last.runAt > now then [] else [last]
  }

  /** The entries popDue pushes: those that are due and not tombstoned. */
  function Wanted(jobs: seq<Job>, now: int, cancelled: set<Id>): seq<Job> {
    Untombed(Due(jobs, now), cancelled)
  }

  lemma LastOf(jobs: seq<Job>)
    requires jobs != []
    ensures multiset(jobs) == multiset(jobs[..|jobs| - 1]) + multiset{jobs[|jobs| - 1]}
  {
    assert jobs == jobs[..|jobs| - 1] + [jobs[|jobs| - 1]];
  }

  lemma {:induction false} UntombedCounts(jobs: seq<Job>, cancelled: set<Id>, e: Job)
    ensures multiset(Untombed(jobs, cancelled))[e] == if e.id in cancelled then 0 else multiset(jobs)[e]
  {
    if jobs != [] {
      var front, last := jobs[..|jobs| - 1], jobs[|jobs| - 1];
      UntombedCounts(front, cancelled, e);
      LastOf(jobs);
      assert Untombed(jobs, cancelled) == Untombed(front, cancelled) + if last.id in cancelled then [] else [last];
      hide Untombed;
    }
  }

  lemma {:induction false} DueCounts(jobs: seq<Job>, now: int, e: Job)
    ensures multiset(Due(jobs, now))[e] == if e.runAt > now then 0 else multiset(jobs)[e]
  {
    if jobs != [] {
      var front, last := jobs[..|jobs| - 1], jobs[|jobs| - 1];
      DueCounts(front, now, e);
      LastOf(jobs);
      assert Due(jobs, now) == Due(front, now) + if last.runAt > now then [] else [last];
      hide Due;
    }
  }

  /** Taking an entry out of the heap, in whatever order the others then are, makes one less wanted at most. */
  lemma WantedLess(before: seq<Job>, after: seq<Job>, e: Job, now: int, cancelled: set<Id>)
    requires multiset(before) == multiset(after) + multiset{e}
    ensures |Wanted(before, now, cancelled)| ==
            |Wanted(after, now, cancelled)| + if e.runAt <= now && e.id !in cancelled then 1 else 0
  {
    hide Untombed, Due;
    var one := if e.runAt <= now && e.id !in cancelled then multiset{e} else multiset{};
    var b, a := multiset(Wanted(before, now, cancelled)), multiset(Wanted(after, now, cancelled));
    forall f ensures b[f] == a[f] + one[f] {
      UntombedCounts(Due(before, now), cancelled, f);
      UntombedCounts(Due(after, now), cancelled, f);
      DueCounts(before, now, f);
      DueCounts(after, now, f);
    }
    assert b == a + one;
  }

  /** The queue after pushing the jobs one by one; a push that fails is ignored. */
  function Filled(q: Queue, jobs: seq<Job>): Queue {
    if jobs == [] then q else AfterPush(Filled(q, jobs[..|jobs| - 1]), jobs[|jobs| - 1], false)
  }

  /** Pushing takes the jobs in order until the queue is full. */
  lemma {:induction false} FilledTakesFirst(q: Queue, jobs: seq<Job>)
    requires |q.items| <= q.cap
    ensures var room := q.cap - |q.items|;
            Filled(q, jobs) == q.(items := q.items + if |jobs| <= room then jobs else jobs[..room])
  {
    if jobs != [] {
      var n := |jobs| - 1;
      FilledTakesFirst(q, jobs[..n]);
      assert jobs == jobs[..n] + [jobs[n]];
      assert q.cap - |q.items| <= n ==> jobs[..n][..q.cap - |q.items|] == jobs[..q.cap - |q.items|];
    }
  }

  ghost predicate Sorted(jobs: seq<Job>) {
    forall i, k :: 0 <= i < k < |jobs| ==> jobs[i].runAt <= jobs[k].runAt
  }

  /** The taken entries come first in time order, and no entry that is left runs before them. */
  ghost predicate TakenFirst(taken: seq<Job>, left: multiset<Job>) {
    && Sorted(taken)
    && forall e, f :: e in taken && f in left ==> e.runAt <= f.runAt
  }

  /** popDue has moved these entries so far, all of them due. */
  ghost predicate MovedSoFar(start: multiset<Job>, moved: seq<Job>, left: multiset<Job>, now: int) {
    && start == multiset(moved) + left && TakenFirst(moved, left)
    && forall e :: e in moved ==> e.runAt <= now
  }

  lemma NoneMoved(start: multiset<Job>, now: int)
    ensures MovedSoFar(start, [], start, now)
  {
  }

  lemma MovedNext(start: multiset<Job>, moved: seq<Job>, left: multiset<Job>, now: int, e: Job, rest: multiset<Job>)
    requires MovedSoFar(start, moved, left, now) && left == rest + multiset{e} && e.runAt <= now
    requires forall f :: f in left ==> e.runAt <= f.runAt
    ensures MovedSoFar(start, moved + [e], rest, now)
  {
    SnocPrefix(moved, e);
  }

  lemma AllMoved(start: multiset<Job>, moved: seq<Job>, left: multiset<Job>, now: int)
    requires MovedSoFar(start, moved, left, now)
    ensures start == multiset(moved) + left && Sorted(moved) && forall e :: e in moved ==> e.runAt <= now
  {
  }

  lemma SnocPrefix(s: seq<Job>, e: Job)
    ensures (s + [e])[..|s + [e]| - 1] == s && (s + [e])[|s + [e]| - 1] == e
    ensures multiset(s + [e]) == multiset(s) + multiset{e}
  {
  }

  /** One entry with the id is gone from the heap, or there was none. */
  ghost predicate TookOut(before: seq<Job>, after: seq<Job>, id: Id) {
    if exists e :: e in before && e.id == id
    then exists e :: e in before && e.id == id && multiset(before) == multiset(after) + multiset{e}
    else after == before
  }

  /** What is left of the queue when the first item with each of the ids is taken out. */
  function Cleared(items: seq<Job>, ids: set<Id>): seq<Job> {
    if items == [] then []
    else if items[0].id in ids then Cleared(items[1..], ids - {items[0].id})
    else [items[0]] + Cleared(items[1..], ids)
  }

  lemma {:induction false} NothingCleared(items: seq<Job>)
    ensures Cleared(items, {}) == items
  {
    if items != [] {
      NothingCleared(items[1..]);
    }
  }

  lemma WithoutCons(items: seq<Job>, k: nat)
    requires 0 < k < |items|
    ensures Without(items, k) == [items[0]] + Without(items[1..], k - 1)
  {
  }

  lemma FindCons(items: seq<Job>, id: Id)
    requires items != [] && items[0].id != id
    ensures Find(items, id) == if Find(items[1..], id) == -1 then -1 else Find(items[1..], id) + 1
  {
  }

  lemma RemoveHead(q: Queue, id: Id)
    requires q.items != [] && q.items[0].id == id
    ensures AfterRemove(q, id).items == q.items[1..]
  {
    assert Find(q.items, id) == 0;
    hide Find;
    assert Without(q.items, 0) == q.items[1..];
  }

  /** remove takes the head out, or works on the rest. */
  lemma RemoveCons(q: Queue, id: Id)
    requires q.items != []
    ensures AfterRemove(q, id).items ==
            if q.items[0].id == id then q.items[1..]
            else [q.items[0]] + AfterRemove(q.(items := q.items[1..]), id).items
  {
    if q.items[0].id == id {
      RemoveHead(q, id);
    } else {
      FindCons(q.items, id);
      hide Find, Without;
      var k := Find(q.items, id);
      if k >= 0 {
        WithoutCons(q.items, k);
      } else {
        assert q.items == [q.items[0]] + q.items[1..];
      }
    }
  }

  /** The ids may be taken out one by one, in any order. */
  lemma {:induction false} ClearedNext(q: Queue, ids: set<Id>, id: Id)
    requires id in ids
    ensures Cleared(AfterRemove(q, id).items, ids - {id}) == Cleared(q.items, ids)
    decreases |q.items|
  {
    if q.items == [] {
      assert AfterRemove(q, id).items == [];
      return;
    }
    RemoveCons(q, id);
    hide AfterRemove, Find;
    if q.items[0].id != id {
      var rest, x := q.(items := q.items[1..]), q.items[0].id;
      assert ids - {id} - {x} == ids - {x} - {id};
      ClearedNext(rest, if x in ids then ids - {x} else ids, id);
      assert AfterRemove(q, id).items[1..] == AfterRemove(rest, id).items;
    }
  }

  /** One of the entries with each of the ids, for every id that has any. */
  ghost predicate OnePerId(taken: multiset<Job>, before: multiset<Job>, ids: set<Id>) {
    && (forall e :: e in taken ==> e.id in ids && taken[e] == 1)
    && (forall e, f :: e in taken && f in taken && e.id == f.id ==> e == f)
    && (forall e :: e in before && e.id in ids ==> exists f :: f in taken && f.id == e.id)
  }

  lemma InMore(taken: multiset<Job>, e: Job, f: Job)
    ensures f in taken + multiset{e} <==> f in taken || f == e
    ensures f != e ==> (taken + multiset{e})[f] == taken[f]
    ensures (taken + multiset{e})[e] == taken[e] + 1
  {
  }

  lemma OneMoreTaken(start: multiset<Job>, taken: multiset<Job>, ids: set<Id>, e: Job)
    requires OnePerId(taken, start, ids) && e.id !in ids
    ensures OnePerId(taken + multiset{e}, start, ids + {e.id})
  {
    var more := taken + multiset{e};
    assert e !in taken;
    forall f ensures f in more <==> f in taken || f == e {
      InMore(taken, e, f);
    }
    forall f | f in more ensures f.id in ids + {e.id} && more[f] == 1 {
      InMore(taken, e, f);
    }
    forall f | f in start && f.id in ids + {e.id} ensures exists g :: g in more && g.id == f.id {
      if f.id in ids {
        var g :| g in taken && g.id == f.id;
        assert g in more;
      } else {
        assert e in more;
      }
    }
  }

  lemma NoMoreTaken(left: multiset<Job>, taken: multiset<Job>, ids: set<Id>, id: Id)
    requires OnePerId(taken, left + taken, ids) && id !in ids && forall e :: e in left ==> e.id != id
    ensures OnePerId(taken, left + taken, ids + {id})
  {
  }

  lemma TookOne(before: seq<Job>, after: seq<Job>, id: Id)
    returns (e: Job)
    requires TookOut(before, after, id) && exists f :: f in before && f.id == id
    ensures e.id == id && multiset(before) == multiset(after) + multiset{e}
  {
    e :| e in before && e.id == id && multiset(before) == multiset(after) + multiset{e};
  }

  lemma TookNone(before: seq<Job>, after: seq<Job>, id: Id)
    requires TookOut(before, after, id) && !exists f :: f in before && f.id == id
    ensures after == before && forall e :: e in multiset(before) ==> e.id != id
  {
    assert forall e :: e in multiset(before) ==> e in before;
  }

  /** What goes when the id is cancelled after `ids`. */
  lemma TakenNext(before: seq<Job>, after: seq<Job>, id: Id, start: multiset<Job>, taken: multiset<Job>, ids: set<Id>)
    returns (more: multiset<Job>)
    requires TookOut(before, after, id) && start == multiset(before) + taken && OnePerId(taken, start, ids)
    requires id !in ids
    ensures start == multiset(after) + more && OnePerId(more, start, ids + {id})
  {
    hide OnePerId, TookOut;
    if exists e :: e in before && e.id == id {
      var e := TookOne(before, after, id);
      more := taken + multiset{e};
      OneMoreTaken(start, taken, ids, e);
      assert multiset(after) + multiset{e} + taken == multiset(after) + more;
    } else {
      more := taken;
      TookNone(before, after, id);
      NoMoreTaken(multiset(before), taken, ids, id);
    }
  }

  lemma NoneTaken(start: multiset<Job>)
    ensures OnePerId(multiset{}, start, {})
  {
  }

  lemma DrainStep(b: Books, policy: Policy, hasStore: bool, dropped: seq<Job>, j: Job)
    ensures AfterDrain(b, policy, hasStore, dropped + [j]) ==
            AfterDrop(AfterDrain(b, policy, hasStore, dropped), policy, hasStore, j)
  {
    SnocPrefix(dropped, j);
    hide AfterDrop;
  }

  lemma CancelErases(b: Books, policy: Policy, hasStore: bool, id: Id)
    ensures AfterCancel(b, policy, hasStore, id).store.Keys == if hasStore then b.store.Keys - {id} else b.store.Keys
  {
    hide Mark, DropFlight;
  }

  /** Cancelling a job leaves the others listed. */
  lemma CancelKeepsListed(b: Books, policy: Policy, hasStore: bool, id: Id, name: Name, other: Id)
    requires other != id && other in FlightSet(b.flight, name)
    ensures other in FlightSet(AfterCancel(b, policy, hasStore, id).flight, name)
  {
    hide Mark;
    assert id in b.names && !policy.Allow? ==>
        b.names[id] in b.flight || DropFlight(b.flight, b.names[id], id) == b.flight;
  }

  lemma DueStep(b: Books, policy: Policy, cancelled: set<Id>, q: Queue, moved: seq<Job>, j: Job)
    ensures AfterDue(b, policy, cancelled, moved + [j]) ==
            AfterMove(AfterDue(b, policy, cancelled, moved), policy, cancelled, j)
    ensures Filled(q, Untombed(moved + [j], cancelled)) ==
            MovedInto(Filled(q, Untombed(moved, cancelled)), cancelled, j)
  {
    SnocPrefix(moved, j);
    SnocPrefix(Untombed(moved, cancelled), j);
    hide AfterMove, AfterPush;
    assert Untombed(moved, cancelled) + [] == Untombed(moved, cancelled);
  }

  /** Books and queue after these entries have been moved. */
  ghost predicate AllRecorded(b: Books, q: Queue, policy: Policy, cancelled: set<Id>, moved: seq<Job>,
                              b': Books, q': Queue) {
    b' == AfterDue(b, policy, cancelled, moved) && q' == Filled(q, Untombed(moved, cancelled))
  }

  lemma NoneRecorded(b: Books, policy: Policy, cancelled: set<Id>, q: Queue)
    ensures AllRecorded(b, q, policy, cancelled, [], b, q)
  {
  }

  lemma RecordedAre(b: Books, q: Queue, policy: Policy, cancelled: set<Id>, moved: seq<Job>, b': Books, q': Queue)
    requires AllRecorded(b, q, policy, cancelled, moved, b', q')
    ensures b' == AfterDue(b, policy, cancelled, moved) && q' == Filled(q, Untombed(moved, cancelled))
  {
  }

  lemma OneRecorded(b: Books, q: Queue, policy: Policy, cancelled: set<Id>, moved: seq<Job>,
                    b': Books, q': Queue, j: Job)
    requires AllRecorded(b, q, policy, cancelled, moved, b', q')
    ensures AllRecorded(b, q, policy, cancelled, moved + [j], AfterMove(b', policy, cancelled, j),
                        MovedInto(q', cancelled, j))
  {
    hide AfterMove, MovedInto, AfterDue, Filled, Untombed;
    DueStep(b, policy, cancelled, q, moved, j);
  }

  // ---- What Restore does with the listed records ----

  /** The records whose handler is registered. */
  function Served(jobs: seq<Job>, handlers: set<Name>): seq<Job> {
    if jobs == [] then []
    else
      var last := jobs[|jobs| - 1];
      Served(jobs[..|jobs| - 1], handlers) + if last.name in handlers then [last] else []
  }

  function Later(jobs: seq<Job>, now: int): seq<Job> {
    if jobs == [] then []
    else
      var last := jobs[|jobs| - 1];
      Later(jobs[..|jobs| - 1], now) + if last.runAt > now then [last] else []
  }

  function Restored(b: Books, policy: Policy, j: Job, now: int): Books {
    Marked(Enrolled(b, policy, j), j.id, if j.runAt > now then Delayed else Queued)
  }

  function AfterRestore(b: Books, policy: Policy, handlers: set<Name>, now: int, jobs: seq<Job>): Books {
    if jobs == [] then b
    else
      var b', j := AfterRestore(b, policy, handlers, now, jobs[..|jobs| - 1]), jobs[|jobs| - 1];
      if j.name !in handlers then b'.(store := b'.store - {j.id})
      else Restored(b', policy, j, now)
  }

  /** The state of a dispatcher, as far as Restore is concerned. */
  datatype Stage = Stage(books: Books, delayed: multiset<Job>, items: seq<Job>)

  /** The stage after the records have been put back. */
  function AfterRecords(g: Stage, policy: Policy, handlers: set<Name>, now: int, jobs: seq<Job>): Stage {
    var served := Served(jobs, handlers);
    Stage(AfterRestore(g.books, policy, handlers, now, jobs), g.delayed + multiset(Later(served, now)),
          g.items + Due(served, now))
  }

  predicate GoesLater(handlers: set<Name>, now: int, j: Job) {
    j.name in handlers && j.runAt > now
  }

  predicate GoesNow(handlers: set<Name>, now: int, j: Job) {
    j.name in handlers && j.runAt <= now
  }

  /** A record without a handler is deleted; any other is delayed or ready. */
  function AfterRecord(g: Stage, policy: Policy, handlers: set<Name>, now: int, j: Job): Stage {
    Stage(if j.name in handlers then Restored(g.books, policy, j, now) else g.books.(store := g.books.store - {j.id}),
          g.delayed + multiset(if GoesLater(handlers, now, j) then [j] else []),
          g.items + if GoesNow(handlers, now, j) then [j] else [])
  }

  lemma NothingRestored(g: Stage, policy: Policy, handlers: set<Name>, now: int)
    ensures AfterRecords(g, policy, handlers, now, []) == g && Served([], handlers) == []
  {
    assert g.items + [] == g.items;
  }

  lemma ServedStep(handlers: set<Name>, now: int, jobs: seq<Job>, j: Job)
    ensures Served(jobs + [j], handlers) == Served(jobs, handlers) + if j.name in handlers then [j] else []
    ensures var before, after := Served(jobs, handlers), Served(jobs + [j], handlers);
            && Due(after, now) == Due(before, now) + (if GoesNow(handlers, now, j) then [j] else [])
            && Later(after, now) == Later(before, now) + (if GoesLater(handlers, now, j) then [j] else [])
  {
    var served := Served(jobs, handlers);
    SnocPrefix(jobs, j);
    SnocPrefix(served, j);
    assert served + [] == served;
    assert Due(served, now) + [] == Due(served, now) && Later(served, now) + [] == Later(served, now);
  }

  lemma RestoreStep(g: Stage, policy: Policy, handlers: set<Name>, now: int, jobs: seq<Job>, j: Job)
    ensures AfterRecords(g, policy, handlers, now, jobs + [j]) ==
            AfterRecord(AfterRecords(g, policy, handlers, now, jobs), policy, handlers, now, j)
  {
    ServedStep(handlers, now, jobs, j);
    SnocPrefix(jobs, j);
    hide Restored, Served, Due, Later, GoesNow, GoesLater;
    var before := AfterRecords(g, policy, handlers, now, jobs);
    var after := AfterRecords(g, policy, handlers, now, jobs + [j]);
    var due := if GoesNow(handlers, now, j) then [j] else [];
    assert g.items + (Due(Served(jobs, handlers), now) + due) == g.items + Due(Served(jobs, handlers), now) + due;
    assert after.items == AfterRecord(before, policy, handlers, now, j).items;
    assert after.delayed == AfterRecord(before, policy, handlers, now, j).delayed;
    assert after.books == AfterRecord(before, policy, handlers, now, j).books;
  }

  lemma ServedNext(g: Stage, policy: Policy, handlers: set<Name>, now: int, jobs: seq<Job>, i: nat)
    requires i < |jobs|
    ensures AfterRecords(g, policy, handlers, now, jobs[..i + 1]) ==
            AfterRecord(AfterRecords(g, policy, handlers, now, jobs[..i]), policy, handlers, now, jobs[i])
    ensures |Served(jobs[..i + 1], handlers)| ==
            |Served(jobs[..i], handlers)| + if jobs[i].name in handlers then 1 else 0
  {
    hide AfterRecords, AfterRecord, Due, Later;
    assert jobs[..i + 1] == jobs[..i] + [jobs[i]];
    RestoreStep(g, policy, handlers, now, jobs[..i], jobs[i]);
    ServedStep(handlers, now, jobs[..i], jobs[i]);
  }

  function AtMost(n: nat, bound: nat): nat {
    if n <= bound then n else bound
  }

  /** The stage with what the workers have taken still counted in. */
  function WithGone(g: Stage, gone: seq<Job>): Stage {
    g.(items := gone + g.items)
  }

  lemma RecordAndGone(g: Stage, gone: seq<Job>, policy: Policy, handlers: set<Name>, now: int, j: Job)
    ensures AfterRecord(WithGone(g, gone), policy, handlers, now, j) ==
            WithGone(AfterRecord(g, policy, handlers, now, j), gone)
    ensures WithGone(g.(books := Enrolled(g.books, policy, j)), gone) ==
            WithGone(g, gone).(books := Enrolled(WithGone(g, gone).books, policy, j))
  {
    hide Restored, Enrolled;
    var due := if GoesNow(handlers, now, j) then [j] else [];
    assert gone + g.items + due == gone + (g.items + due);
  }

  lemma NothingGone(g: Stage)
    ensures WithGone(g, []) == g
  {
    assert [] + g.items == g.items;
  }

  lemma GoneItems(g: Stage, gone: seq<Job>)
    ensures |WithGone(g, gone).items| == |gone| + |g.items|
  {
  }

  lemma ItemsAfter(g: Stage, policy: Policy, handlers: set<Name>, now: int, jobs: seq<Job>)
    ensures |AfterRecords(g, policy, handlers, now, jobs).items| == |g.items| + |Due(Served(jobs, handlers), now)|
  {
    hide AfterRestore;
  }

  lemma GoneTwice(g: Stage, gone: seq<Job>, more: seq<Job>)
    ensures WithGone(WithGone(g, more), gone) == WithGone(g, gone + more)
  {
    assert gone + (more + g.items) == gone + more + g.items;
  }

  /** Restore ended at a record that finds the queue full: those before it are back, and it is listed by name. */
  ghost predicate StoppedShort(g: Stage, g': Stage, cap: nat, policy: Policy, handlers: set<Name>, now: int,
                               jobs: seq<Job>, restored: nat) {
    exists k | 0 <= k < |jobs| ::
      && GoesNow(handlers, now, jobs[k]) && restored == |Served(jobs[..k], handlers)| && |g'.items| >= cap
      && var before := AfterRecords(g, policy, handlers, now, jobs[..k]);
         g' == before.(books := Enrolled(before.books, policy, jobs[k]))
  }

  lemma {:induction false} DueGrows(handlers: set<Name>, now: int, jobs: seq<Job>, k: nat)
    requires k <= |jobs|
    ensures |Due(Served(jobs[..k], handlers), now)| <= |Due(Served(jobs, handlers), now)|
    decreases |jobs| - k
  {
    hide Served, Due, Later;
    if k == |jobs| {
      assert jobs[..k] == jobs;
    } else {
      assert jobs[..k + 1] == jobs[..k] + [jobs[k]];
      ServedStep(handlers, now, jobs[..k], jobs[k]);
      DueGrows(handlers, now, jobs, k + 1);
    }
  }

  lemma Short(g: Stage, before: Stage, g': Stage, cap: nat, policy: Policy, handlers: set<Name>, now: int,
              jobs: seq<Job>, k: nat)
    requires k < |jobs| && GoesNow(handlers, now, jobs[k]) && |before.items| >= cap
    requires before == AfterRecords(g, policy, handlers, now, jobs[..k])
    requires g' == before.(books := Enrolled(before.books, policy, jobs[k]))
    ensures StoppedShort(g, g', cap, policy, handlers, now, jobs, |Served(jobs[..k], handlers)|)
    ensures |g.items| + |Due(Served(jobs, handlers), now)| > cap
  {
    hide Served, Due, Later, Enrolled;
    assert jobs[..k + 1] == jobs[..k] + [jobs[k]];
    ServedStep(handlers, now, jobs[..k], jobs[k]);
    DueGrows(handlers, now, jobs, k + 1);
  }

  class Dispatcher {
    const policy: Policy
    const drop: bool
    const hasStore: bool
    const ready: ReadyQueue
    const delayed: DelayHeap
    const table: StatusTable
    const inFlight: InFlightTable
    const handlers: set<Name>
    var cancelled: set<Id>
    var names: map<Id, Name>
    var store: map<Id, Job>
    var signal: bool
    var running: bool

    ghost predicate Valid()
      reads ready, delayed
    {
      ready.Valid() && delayed.Valid()
    }

    function Records(): Books
      reads `names, `store, table, inFlight
    {
      Books(table.Contents(), inFlight.sets, names, store)
    }

    function StageNow(): Stage
      reads `names, `store, table, inFlight, ready, delayed
    {
      Stage(Records(), multiset(delayed.h), ready.items)
    }

    constructor (policy: Policy, drop: bool, hasStore: bool, cap: nat, handlers: set<Name>, store: map<Id, Job>)
      ensures Valid() && fresh(ready) && fresh(delayed) && fresh(table) && fresh(inFlight)
      ensures ready.State() == Queue([], cap, false) && delayed.h == [] && cancelled == {}
      ensures Records() == Books(EMPTY, map[], map[], store)
      ensures this.policy == policy && this.drop == drop && this.hasStore == hasStore && this.handlers == handlers
      ensures running && !signal
    {
      this.policy := policy;
      this.drop := drop;
      this.hasStore := hasStore;
      this.handlers := handlers;
      this.store := store;
      cancelled := {};
      names := map[];
      signal := false;
      running := true;
      ready := new ReadyQueue(cap);
      delayed := new DelayHeap();
      table := new StatusTable();
      inFlight := new InFlightTable();
    }

    method ReleaseJob(name: Name, id: Id)
      modifies this`names, inFlight
      ensures Records() == Released(old(Records()), policy, name, id)
    {
      if policy != Allow {
        inFlight.Release(name, id);
      }
      names := names - {id};
    }

    method PushDelayed(j: Job)
      requires Valid()
      modifies this`signal, delayed
      ensures Valid() && delayed.Contents() == old(delayed.Contents()) + multiset{j} && signal
    {
      delayed.Push(j);
      signal := true;
    }

    /** Take the first entry when it is due. */
    method TakeDue(now: int) returns (root: Option<Job>)
      requires delayed.Valid()
      modifies delayed
      ensures delayed.Valid()
      ensures root.None? ==> delayed.h == old(delayed.h) && forall e :: e in delayed.h ==> e.runAt > now
      ensures root.Some? ==>
                && root.value.runAt <= now && |old(delayed.h)| == |delayed.h| + 1
                && old(delayed.Contents()) == delayed.Contents() + multiset{root.value}
                && forall e :: e in old(delayed.Contents()) ==> root.value.runAt <= e.runAt
    {
      if |delayed.h| == 0 {
        return None;
      }
      if delayed.h[0].runAt > now {
        forall k | 0 <= k < |delayed.h| ensures delayed.h[0].runAt <= delayed.h[k].runAt {
          RootIsFirst(delayed.h, k);
        }
        return None;
      }
      hide IsHeap;
      ghost var before := delayed.h;
      var entry := delayed.Pop();
      assert |multiset(before)| == |multiset(delayed.h)| + 1;
      forall e: Job | e in multiset(before) ensures entry.runAt <= e.runAt {
        assert e in before;
      }
      return Some(entry);
    }

    /** What popDue does with an entry it has taken. */
    method MoveDue(entry: Job)
      requires ready.Valid() && (entry.id in cancelled || ready.closed || |ready.items| < ready.cap)
      modifies this`names, ready`items, ready`notify, table, inFlight
      ensures ready.Valid() && ready.State() == MovedInto(old(ready.State()), cancelled, entry)
      ensures Records() == AfterMove(old(Records()), policy, cancelled, entry)
      ensures |ready.items| <= |old(ready.items)| + if entry.id in cancelled then 0 else 1
    {
      if entry.id in cancelled {
        table.MarkStatus(entry.id, Cancelled);
        ReleaseJob(entry.name, entry.id);
        return;
      }
      var pushed := ready.TryPush(entry, false);
      table.MarkStatus(entry.id, Queued);
    }

    /** The open queue has room for the entries popDue would push. */
    predicate RoomForDue(now: int)
      reads this`cancelled, ready, delayed
    {
      ready.closed || |ready.items| + |Wanted(delayed.h, now, cancelled)| <= ready.cap
    }

    /** One pass of popDue. */
    method MoveNext(now: int) returns (root: Option<Job>)
      requires Valid() && RoomForDue(now)
      modifies this`names, ready`items, ready`notify, delayed, table, inFlight
      ensures Valid() && RoomForDue(now) && ready.closed == old(ready.closed)
      ensures root.None? ==>
                && delayed.h == old(delayed.h) && (forall e :: e in delayed.h ==> e.runAt > now)
                && ready.State() == old(ready.State()) && Records() == old(Records())
      ensures root.Some? ==>
                && root.value.runAt <= now && |old(delayed.h)| == |delayed.h| + 1
                && old(delayed.Contents()) == delayed.Contents() + multiset{root.value}
                && (forall e :: e in old(delayed.Contents()) ==> root.value.runAt <= e.runAt)
                && ready.State() == MovedInto(old(ready.State()), cancelled, root.value)
                && Records() == AfterMove(old(Records()), policy, cancelled, root.value)
    {
      hide IsHeap, Mark, AfterMove, MovedInto, Wanted;
      ghost var before := delayed.h;
      root := TakeDue(now);
      if root.Some? {
        WantedLess(before, delayed.h, root.value, now, cancelled);
        MoveDue(root.value);
      }
    }

    /** Move the due entries to the ready queue, when it is closed or has room for those that are not tombstoned; a
        push would otherwise wait for a worker.  The moved entries are exactly those not after now, in time order;
        the others stay. */
    method PopDue(now: int) returns (ghost moved: seq<Job>)
      requires Valid() && RoomForDue(now)
      modifies this`names, ready`items, ready`notify, delayed, table, inFlight
      ensures Valid()
      ensures old(delayed.Contents()) == multiset(moved) + delayed.Contents() && Sorted(moved)
      ensures forall e :: e in moved ==> e.runAt <= now
      ensures forall e :: e in delayed.h ==> e.runAt > now
      ensures ready.State() == Filled(old(ready.State()), Untombed(moved, cancelled))
      ensures Records() == AfterDue(old(Records()), policy, cancelled, moved)
    {
      moved := [];
      ghost var start, books, queue, tombs := delayed.Contents(), Records(), ready.State(), cancelled;
      NoneRecorded(books, policy, tombs, queue);
      NoneMoved(start, now);
      hide AfterDue, AfterMove, Untombed, Filled, MovedInto, IsHeap, RoomForDue, MovedSoFar, AllRecorded;
      while true
        invariant Valid() && RoomForDue(now)
        invariant MovedSoFar(start, moved, delayed.Contents(), now)
        invariant AllRecorded(books, queue, policy, tombs, moved, Records(), ready.State())
        decreases |delayed.h|
      {
        ghost var left, books', queue' := delayed.Contents(), Records(), ready.State();
        var root := MoveNext(now);
        if root.None? {
          AllMoved(start, moved, left, now);
          RecordedAre(books, queue, policy, tombs, moved, books', queue');
          return;
        }
        MovedNext(start, moved, left, now, root.value, delayed.Contents());
        OneRecorded(books, queue, policy, tombs, moved, books', queue', root.value);
        moved := moved + [root.value];
      }
    }

    method DropOne(entry: Job)
      modifies this`names, this`store, table, inFlight
      ensures Records() == AfterDrop(old(Records()), policy, hasStore, entry)
    {
      hide Mark;
      if hasStore {
        store := store - {entry.id};
      }
      table.MarkStatus(entry.id, Cancelled);
      ReleaseJob(entry.name, entry.id);
    }

    /** Drop everything that is delayed, on shutdown; a Delete that fails is not modelled here. */
    method DrainDelayed() returns (ghost dropped: seq<Job>)
      requires Valid()
      modifies this`names, this`store, delayed, table, inFlight
      ensures Valid() && delayed.h == []
      ensures old(delayed.Contents()) == multiset(dropped)
      ensures Records() == AfterDrain(old(Records()), policy, hasStore, dropped)
    {
      dropped := [];
      assert AfterDrain(Records(), policy, hasStore, []) == Records();
      hide IsHeap, AfterDrain, AfterDrop;
      while |delayed.h| > 0
        invariant Valid() && old(delayed.Contents()) == multiset(dropped) + delayed.Contents()
        invariant Records() == AfterDrain(old(Records()), policy, hasStore, dropped)
        decreases |delayed.h|
      {
        ghost var before := delayed.h;
        var entry := delayed.Pop();
        assert |multiset(before)| == |multiset(delayed.h)| + 1;
        SnocPrefix(dropped, entry);
        DrainStep(old(Records()), policy, hasStore, dropped, entry);
        dropped := dropped + [entry];
        DropOne(entry);
      }
      assert multiset(delayed.h) == multiset{};
    }

    /** The lock region of cancelByIDLocked on the delay heap. */
    method RemoveDelayed(id: Id)
      requires delayed.Valid()
      modifies delayed
      ensures delayed.Valid()
      ensures TookOut(old(delayed.h), delayed.h, id)
    {
      hide IsHeap;
      var i := 0;
      while i < |delayed.h|
        invariant i <= |delayed.h| && delayed.h == old(delayed.h) && delayed.Valid()
        invariant forall k :: 0 <= k < i ==> delayed.h[k].id != id
      {
        if delayed.h[i].id == id {
          assert delayed.h[i] in old(delayed.h);
          var removed := delayed.RemoveAt(i);
          return;
        }
        i := i + 1;
      }
    }

    /** cancelByIDLocked, apart from the context of a running handler. */
    method CancelById(id: Id)
      requires Valid()
      modifies this`cancelled, this`names, this`store, ready`items, delayed, table, inFlight
      ensures Valid() && cancelled == old(cancelled) + {id} && ready.State() == AfterRemove(old(ready.State()), id)
      ensures TookOut(old(delayed.h), delayed.h, id)
      ensures Records() == AfterCancel(old(Records()), policy, hasStore, id)
    {
      hide IsHeap, TookOut, Mark;
      RemoveDelayed(id);
      var found := ready.Remove(id);
      cancelled := cancelled + {id};
      if id in names {
        ReleaseJob(names[id], id);
      }
      if hasStore {
        store := store - {id};
      }
      table.MarkStatus(id, Cancelled);
    }

    predicate HasStatus(id: Id, s: Status)
      reads table
    {
      id in table.statuses && table.statuses[id] == s
    }

    /** No trace of the job is left by name or in the store. */
    predicate NoTrace(j: Job)
      reads `names, `store, inFlight
    {
      && j.id !in names
      && (!policy.Allow? ==> j.id !in FlightSet(inFlight.sets, j.name))
      && (hasStore ==> j.id !in store)
    }

    /** The jobs a submission of the name replaces. */
    function ToReplace(name: Name): set<Id>
      reads inFlight
    {
      if policy.Replace? then FlightSet(inFlight.sets, name) else {}
    }

    /** applyConflict for a job with a fresh id: Skip refuses it while its name is taken, Replace cancels the
        jobs that have taken it. */
    method ApplyConflict(j: Job) returns (admitted: bool, ghost taken: multiset<Job>)
      requires Valid() && j.id !in FlightSet(inFlight.sets, j.name)
      modifies this`cancelled, this`names, this`store, ready`items, delayed, table, inFlight
      ensures Valid() && admitted == (policy.Skip? ==> FlightSet(old(inFlight.sets), j.name) == {})
      ensures admitted && !policy.Allow? ==> j.id in FlightSet(inFlight.sets, j.name)
      ensures !admitted || policy.Allow? ==> Records() == old(Records())
      ensures ready.items == Cleared(old(ready.items), old(ToReplace(j.name)))
      ensures old(delayed.Contents()) == delayed.Contents() + taken
      ensures OnePerId(taken, old(delayed.Contents()), old(ToReplace(j.name)))
      ensures forall x :: x in cancelled <==> x in old(cancelled) || x in old(ToReplace(j.name))
      ensures forall x :: x in store <==> x in old(store) && !(hasStore && x in old(ToReplace(j.name)))
    {
      hide IsHeap, TookOut, Mark, Cleared;
      var replaced;
      NothingCleared(ready.items);
      taken := multiset{};
      admitted, replaced := inFlight.Admit(policy, j.name, j.id);
      if policy.Replace? {
        hide AddFlight;
        taken := CancelAll(replaced, j);
      }
    }

    /** Queue and heap lose one entry for each id they have one of. */
    method CancelAll(ids: set<Id>, keep: Job) returns (ghost taken: multiset<Job>)
      requires Valid() && keep.id !in ids && keep.id in FlightSet(inFlight.sets, keep.name)
      modifies this`cancelled, this`names, this`store, ready`items, delayed, table, inFlight
      ensures Valid() && keep.id in FlightSet(inFlight.sets, keep.name)
      ensures ready.items == Cleared(old(ready.items), ids)
      ensures old(delayed.Contents()) == delayed.Contents() + taken && OnePerId(taken, old(delayed.Contents()), ids)
      ensures forall x :: x in cancelled <==> x in old(cancelled) || x in ids
      ensures forall x :: x in store <==> x in old(store) && !(hasStore && x in ids)
    {
      hide IsHeap, FlightSet, Cleared, TookOut, OnePerId, AfterRemove;
      var left := ids;
      ghost var tombs, keys, items, start := cancelled, store.Keys, ready.items, delayed.Contents();
      taken := multiset{};
      NoneTaken(start);
      assert ids - left == {};
      while left != {}
        invariant Valid() && left <= ids
        invariant keep.id in FlightSet(inFlight.sets, keep.name)
        invariant Cleared(ready.items, left) == Cleared(items, ids)
        invariant start == delayed.Contents() + taken && OnePerId(taken, start, ids - left)
        invariant forall x :: x in cancelled <==> x in tombs || (x in ids && x !in left)
        invariant forall x :: x in store <==> x in keys && !(hasStore && x in ids && x !in left)
        decreases |left|
      {
        var id :| id in left;
        ghost var heap := delayed.h;
        ClearedNext(ready.State(), left, id);
        CancelOne(id, keep);
        taken := TakenNext(heap, delayed.h, id, start, taken, ids - left);
        assert ids - left + {id} == ids - (left - {id});
        left := left - {id};
      }
      NothingCleared(ready.items);
      assert ids - left == ids;
    }

    method CancelOne(id: Id, keep: Job)
      requires Valid() && keep.id != id && keep.id in FlightSet(inFlight.sets, keep.name)
      modifies this`cancelled, this`names, this`store, ready`items, delayed, table, inFlight
      ensures ready.State() == AfterRemove(old(ready.State()), id) && TookOut(old(delayed.h), delayed.h, id)
      ensures Valid() && keep.id in FlightSet(inFlight.sets, keep.name) && cancelled == old(cancelled) + {id}
      ensures store.Keys == if hasStore then old(store.Keys) - {id} else old(store.Keys)
    {
      hide IsHeap, TookOut, FlightSet, AfterCancel;
      CancelKeepsListed(Records(), policy, hasStore, id, keep.name, keep.id);
      CancelErases(Records(), policy, hasStore, id);
      CancelById(id);
    }

    method SetStatus(id: Id, s: Status)
      modifies table
      ensures Records() == Marked(old(Records()), id, s) && HasStatus(id, s)
    {
      table.MarkStatus(id, s);
    }

    /** Record a restored job under its name. */
    method Enrol(j: Job)
      modifies this`names, inFlight
      ensures Records() == Enrolled(old(Records()), policy, j)
    {
      names := names[j.id := j.name];
      if policy != Allow {
        inFlight.Add(j.name, j.id);
      }
    }

    /** What Restore does with a record whose handler is registered. */
    method RestoreOne(j: Job, now: int) returns (ok: bool)
      requires Valid()
      modifies this`names, this`signal, ready`items, ready`notify, delayed, table, inFlight
      ensures Valid() && ready.closed == old(ready.closed)
      ensures ok == (j.runAt > now || |old(ready.items)| < ready.cap)
      ensures ok && j.name in handlers ==> StageNow() == AfterRecord(old(StageNow()), policy, handlers, now, j)
      ensures !ok ==> StageNow() == old(StageNow()).(books := Enrolled(old(Records()), policy, j))
    {
      hide IsHeap, Marked, Enrolled;
      Enrol(j);
      if j.runAt > now {
        PushDelayed(j);
        SetStatus(j.id, Delayed);
        return true;
      }
      var pushed := ready.TryPush(j, false);
      if !pushed.Pushed? {
        return false;
      }
      SetStatus(j.id, Queued);
      return true;
    }

    /** What Restore does with one record. */
    method RestoreRecord(j: Job, now: int) returns (ok: bool)
      requires Valid()
      modifies this`names, this`store, this`signal, ready`items, ready`notify, delayed, table, inFlight
      ensures Valid() && ok == (GoesNow(handlers, now, j) ==> |old(ready.items)| < ready.cap)
      ensures StageNow() == if ok then AfterRecord(old(StageNow()), policy, handlers, now, j)
                            else old(StageNow()).(books := Enrolled(old(Records()), policy, j))
    {
      if j.name in handlers {
        hide AfterRecord, Records;
        ok := RestoreOne(j, now);
        return;
      }
      store := store - {j.id};
      assert multiset{} + multiset(delayed.h) == multiset(delayed.h);
      return true;
    }

    /** Workers take up to n entries, in order; what they then do with them is RunEntry's. */
    method WorkersTake(n: nat) returns (ghost gone: seq<Job>)
      requires ready.Valid()
      modifies ready`items, ready`notify
      ensures ready.Valid() && old(ready.items) == gone + ready.items
      ensures |gone| == AtMost(n, |old(ready.items)|)
    {
      gone := [];
      var i := 0;
      while i < n && |ready.items| > 0
        invariant ready.Valid() && i <= n && |gone| == i && old(ready.items) == gone + ready.items
      {
        var popped := ready.TryPop();
        gone := gone + [popped.job];
        i := i + 1;
      }
    }

    /** The due records with a handler fit into the queue. */
    predicate Fits(jobs: seq<Job>, now: int)
      reads ready
    {
      |ready.items| + |Due(Served(jobs, handlers), now)| <= ready.cap
    }

    /** Restore: put the listed records back, delayed or ready, while workers take up to takes(i) entries before
        record i is dealt with.  A push that then still finds the queue full waits in vain: it ends with an error
        once the queue is closed or the context has ended, and Restore with it, at a record that is listed under its
        name and neither ready nor delayed. */
    method Restore(jobs: seq<Job>, now: int, takes: nat -> nat)
      returns (restored: nat, ok: bool, ghost gone: seq<Job>)
      requires Valid()
      modifies this`names, this`store, this`signal, ready`items, ready`notify, delayed, table, inFlight
      ensures Valid()
      ensures !hasStore ==> ok && restored == 0 && Records() == old(Records())
      ensures hasStore && old(Fits(jobs, now)) ==> ok
      ensures hasStore && (forall i | 0 <= i < |jobs| :: takes(i) == 0) ==> (ok <==> old(Fits(jobs, now)))
      ensures ready.cap > 0 && (forall i | 0 <= i < |jobs| :: takes(i) > 0) ==> ok
      ensures hasStore && ok ==>
                && restored == |Served(jobs, handlers)|
                && WithGone(StageNow(), gone) == AfterRecords(old(StageNow()), policy, handlers, now, jobs)
      ensures !ok ==>
                && |ready.items| == ready.cap
                && StoppedShort(old(StageNow()), WithGone(StageNow(), gone), ready.cap, policy, handlers, now, jobs,
                                restored)
    {
      restored, ok, gone := 0, true, [];
      if !hasStore {
        return;
      }
      ghost var start, fits := StageNow(), Fits(jobs, now);
      hide IsHeap, AfterRecords, AfterRecord, Served, Due, Later, StageNow, Records, StoppedShort, GoesNow, WithGone;
      StageItems();
      NothingRestored(start, policy, handlers, now);
      NothingGone(start);
      for i := 0 to |jobs|
        invariant Valid()
        invariant restored == |Served(jobs[..i], handlers)|
        invariant WithGone(StageNow(), gone) == AfterRecords(start, policy, handlers, now, jobs[..i])
        invariant (forall m | 0 <= m < i :: takes(m) == 0) ==> gone == []
      {
        ServedNext(start, policy, handlers, now, jobs, i);
        ghost var all := AfterRecords(start, policy, handlers, now, jobs[..i]);
        ghost var more := TakeSome(takes(i), gone);
        gone := gone + more;
        ghost var before := StageNow();
        RecordAndGone(before, gone, policy, handlers, now, jobs[i]);
        StageItems();
        ok := RestoreRecord(jobs[i], now);
        if !ok {
          GoneItems(before, gone);
          Short(start, all, WithGone(StageNow(), gone), ready.cap, policy, handlers, now, jobs, i);
          StageItems();
          return;
        }
        if jobs[i].name in handlers {
          restored := restored + 1;
        }
      }
      assert jobs[..|jobs|] == jobs;
      GoneItems(StageNow(), gone);
      StageItems();
      ItemsAfter(start, policy, handlers, now, jobs);
    }

    /** Workers take entries, which are still counted with those taken before. */
    method TakeSome(n: nat, ghost gone: seq<Job>) returns (ghost more: seq<Job>)
      requires Valid()
      modifies ready`items, ready`notify
      ensures Valid() && (n == 0 ==> more == []) && (n > 0 && ready.cap > 0 ==> |ready.items| < ready.cap)
      ensures WithGone(StageNow(), gone + more) == old(WithGone(StageNow(), gone))
      ensures Records() == old(Records())
    {
      hide IsHeap;
      more := WorkersTake(n);
      GoneTwice(StageNow(), gone, more);
    }

    lemma StageItems()
      ensures StageNow().items == ready.items && StageNow().books == Records()
    {
    }

    /** A submitted job is ready or delayed, recorded, and listed under its name. */
    ghost predicate Accepted(j: Job, now: int)
      reads `store, ready, delayed, inFlight, table
    {
      && (if RunsNow(j, now) then ready.items != [] && ready.items[|ready.items| - 1] == j else j in delayed.Contents())
      && (hasStore ==> j.id in store && store[j.id] == j)
      && (!policy.Allow? ==> j.id in FlightSet(inFlight.sets, j.name))
      && HasStatus(j.id, if RunsNow(j, now) then Queued else Delayed)
    }

    /** Push a job that has been admitted and saved, after workers have taken up to `takes` entries; a queue that is
        then full undoes the submission, at once, or when it is closed or the context of the waiting submission has
        ended. */
    method Deliver(j: Job, now: int, takes: nat) returns (ok: bool, ghost gone: seq<Job>)
      requires Valid() && (hasStore ==> j.id in store && store[j.id] == j)
      requires (!policy.Allow? ==> j.id in FlightSet(inFlight.sets, j.name))
      modifies this`names, this`store, this`signal, ready`items, ready`notify, delayed, table, inFlight
      ensures Valid() && (if ok then Accepted(j, now) else NoTrace(j))
      ensures |gone| == if RunsNow(j, now) then AtMost(takes, |old(ready.items)|) else 0
      ensures ok <==> (RunsNow(j, now) ==> |old(ready.items)| - |gone| < ready.cap)
      ensures old(ready.items) + (if ok && RunsNow(j, now) then [j] else []) == gone + ready.items
      ensures delayed.Contents() == old(delayed.Contents()) + if ok && !RunsNow(j, now) then multiset{j} else multiset{}
    {
      hide IsHeap, FlightSet, NoTrace;
      gone := [];
      if !RunsNow(j, now) {
        PushDelayed(j);
        SetStatus(j.id, Delayed);
        assert old(ready.items) + [] == [] + ready.items;
        return true, gone;
      }
      gone := WorkersTake(takes);
      var pushed := ready.TryPush(j, drop);
      if !pushed.Pushed? {
        CleanUp(j);
        return false, gone;
      }
      SetStatus(j.id, Queued);
      return true, gone;
    }

    /** SubmitWithOptions for a job with a fresh id; Save fails unless `saves`, and workers take up to `takes` entries
        before a push into a queue that is still full fails.  A job is accepted exactly when the dispatcher runs, Save
        succeeds, Skip finds its name free, and a job that is due finds room once the jobs it replaces and the entries
        the workers take are gone.  A refused job leaves no trace, but what it replaced stays cancelled. */
    method Submit(j: Job, now: int, saves: bool, takes: nat)
      returns (ok: bool, ghost taken: multiset<Job>, ghost gone: seq<Job>)
      requires Valid() && NoTrace(j) && j.id !in FlightSet(inFlight.sets, j.name)
      modifies this`cancelled, this`names, this`store, this`signal, ready`items, ready`notify, delayed, table, inFlight
      ensures Valid() && (if ok then Accepted(j, now) else NoTrace(j))
      ensures var left := Cleared(old(ready.items), old(ToReplace(j.name)));
              var goesOn := running && (hasStore ==> saves)
                            && (policy.Skip? ==> FlightSet(old(inFlight.sets), j.name) == {});
              && |gone| == (if goesOn && RunsNow(j, now) then AtMost(takes, |left|) else 0)
              && (ok <==> goesOn && (RunsNow(j, now) ==> |left| - |gone| < ready.cap))
              && left + (if ok && RunsNow(j, now) then [j] else []) == gone + ready.items
      ensures delayed.Contents() + taken ==
              old(delayed.Contents()) + if ok && !RunsNow(j, now) then multiset{j} else multiset{}
      ensures OnePerId(taken, old(delayed.Contents()), old(ToReplace(j.name)))
      ensures forall x :: x in cancelled <==> x in old(cancelled) || x in old(ToReplace(j.name))
    {
      hide IsHeap, Accepted, FlightSet, Cleared, OnePerId;
      gone := [];
      ok, taken := ApplyConflict(j);
      ghost var left := ready.items;
      assert left + [] == [] + left;
      if !ok {
        return;
      }
      names := names[j.id := j.name];
      if !running || (hasStore && !saves) {
        Withdraw(j);
        return false, taken, gone;
      }
      if hasStore {
        store := store[j.id := j];
      }
      ok, gone := Deliver(j, now, takes);
    }

    /** releaseJob for a job that has no record. */
    method Withdraw(j: Job)
      requires hasStore ==> j.id !in store
      modifies this`names, inFlight
      ensures NoTrace(j)
    {
      ReleaseJob(j.name, j.id);
    }

    /** scheduleRetry: save the next attempt and delay it. */
    method ScheduleRetry(j: Job, now: int)
      requires Valid()
      modifies this`store, this`signal, delayed, table
      ensures Valid() && delayed.Contents() == old(delayed.Contents()) + multiset{NextAttempt(j, now)}
      ensures Records() == Marked(Recorded(old(Records()), hasStore, NextAttempt(j, now)), j.id, Delayed)
    {
      hide IsHeap, Backoff.Delay, Marked;
      var next := NextAttempt(j, now);
      if hasStore {
        store := store[next.id := next];
      }
      PushDelayed(next);
      SetStatus(next.id, Delayed);
    }

    /** The deferred clean-up of runEntry. */
    method CleanUp(j: Job)
      modifies this`names, this`store, inFlight
      ensures Records() == Forgotten(Released(old(Records()), policy, j.name, j.id), hasStore, j.id)
      ensures NoTrace(j)
    {
      ReleaseJob(j.name, j.id);
      if hasStore {
        store := store - {j.id};
      }
    }

    /** What runEntry does once the handler has returned. */
    method Conclude(j: Job, now: int, succeeds: bool)
      requires Valid()
      modifies this`store, this`signal, delayed, table
      ensures Valid() && HasStatus(j.id, AfterHandler(j, j.id in cancelled, succeeds))
      ensures delayed.Contents() == old(delayed.Contents()) +
                                    multiset(Again(j, now, AfterHandler(j, j.id in cancelled, succeeds)))
      ensures j.id in cancelled ==> delayed.h == old(delayed.h)
    {
      hide IsHeap, NextAttempt, Retries;
      if j.id in cancelled {
        SetStatus(j.id, Cancelled);
      } else if !succeeds {
        if Retries(j) {
          ScheduleRetry(j, now);
        } else {
          SetStatus(j.id, Failed);
        }
      } else {
        SetStatus(j.id, Succeeded);
      }
    }

    /** runEntry: the handler returns an error unless `succeeds`, and cancels its own job when `cancels`.
        However an attempt ends, no trace of the job is left by name or in the store, not even when its next
        attempt has just been delayed. */
    method RunEntry(j: Job, now: int, succeeds: bool, cancels: bool)
      requires Valid()
      modifies this`cancelled, this`names, this`store, this`signal, ready`items, delayed, table, inFlight
      ensures Valid() && HasStatus(j.id, Outcome(j, handlers, old(cancelled), succeeds, cancels))
      ensures j.id !in old(cancelled) ==> NoTrace(j)
      ensures var gone := cancels && j.id !in old(cancelled) && j.name in handlers;
              && (gone ==> TookOut(old(delayed.h), delayed.h, j.id))
              && (!gone ==>
                    delayed.Contents() ==
                    old(delayed.Contents()) +
                    multiset(Again(j, now, Outcome(j, handlers, old(cancelled), succeeds, cancels))))
              && ready.State() == if gone then AfterRemove(old(ready.State()), j.id) else old(ready.State())
    {
      hide IsHeap, HasStatus, NoTrace, Again, Records, TookOut, AfterRemove;
      if j.id in cancelled {
        SetStatus(j.id, Cancelled);
        ReleaseJob(j.name, j.id);
        NotAgain(j, now, Cancelled);
        return;
      }
      SetStatus(j.id, Running);
      if j.name !in handlers {
        SetStatus(j.id, Failed);
        CleanUp(j);
        NotAgain(j, now, Failed);
        return;
      }
      if cancels {
        CancelById(j.id);
      }
      Conclude(j, now, succeeds);
      CleanUp(j);
      NotAgain(j, now, Cancelled);
    }
  }
}

/** internal/core/dispatcher.go: the status table and its bounded eviction order. */
module StatusTables {
  import opened Wrappers
  import opened Jobs

  const MAX_STATUS_COUNT := 10000

  datatype Table = Table(statuses: map<Id, Status>, order: seq<Id>)

  const EMPTY := Table(map[], [])

  /** The table after markStatus(id, s). */
  function Mark(t: Table, id: Id, s: Status): Table {
    if id in t.statuses then t.(statuses := t.statuses[id := s])
    else
      var order := t.order + [id];
      if |order| > MAX_STATUS_COUNT
      then Table((t.statuses - {order[0]})[id := s], order[1..])
      else Table(t.statuses[id := s], order)
  }

  class StatusTable {
    var statuses: map<Id, Status>
    var order: seq<Id>

    function Contents(): Table
      reads this
    {
      Table(statuses, order)
    }

    constructor ()
      ensures Contents() == EMPTY
    {
      statuses := map[];
      order := [];
    }

    method MarkStatus(id: Id, s: Status)
      modifies this
      ensures Contents() == Mark(old(Contents()), id, s)
    {
      if id !in statuses {
        order := order + [id];
        if |order| > MAX_STATUS_COUNT {
          var oldest := order[0];
          order := order[1..];
          statuses := statuses - {oldest};
        }
      }
      statuses := statuses[id := s];
    }

    method JobStatus(id: Id) returns (r: Option<Status>)
      ensures r == if id in statuses then Some(statuses[id]) else None
    {
      if id in statuses {
        return Some(statuses[id]);
      }
      return None;
    }
  }

  // ---- Any sequence of calls ----

  datatype Call = Call(id: Id, status: Status)

  function Replay(calls: seq<Call>): Table {
    if calls == [] then EMPTY
    else
      var last := calls[|calls| - 1];
      Mark(Replay(calls[..|calls| - 1]), last.id, last.status)
  }

  /** The ids in the order they entered the table; an evicted id that returns appears again. */
  function Entered(calls: seq<Call>): seq<Id> {
    if calls == [] then []
    else
      var before, last := calls[..|calls| - 1], calls[|calls| - 1];
      Entered(before) + if last.id in Replay(before).statuses then [] else [last.id]
  }

  function LastWrite(calls: seq<Call>, id: Id): Option<Status> {
    if calls == [] then None
    else if calls[|calls| - 1].id == id then Some(calls[|calls| - 1].status)
    else LastWrite(calls[..|calls| - 1], id)
  }

  ghost predicate Distinct(s: seq<Id>) {
    forall i, j :: 0 <= i < j < |s| ==> s[i] != s[j]
  }

  /** The order lists each key of the table once. */
  ghost predicate Consistent(t: Table) {
    && Distinct(t.order)
    && (forall id :: id in t.order <==> id in t.statuses)
    && |t.order| <= MAX_STATUS_COUNT
  }

  function Suffix(s: seq<Id>, n: nat): seq<Id> {
    if n <= |s| then s[|s| - n..] else s
  }

  lemma AppendNew(s: seq<Id>, x: Id)
    requires Distinct(s) && x !in s
    ensures Distinct(s + [x]) && forall y :: y in s + [x] <==> y in s || y == x
  {
    forall i, j | 0 <= i < j < |s + [x]| ensures (s + [x])[i] != (s + [x])[j] {
      assert s[i] in s;
    }
  }

  lemma DropOldest(s: seq<Id>)
    requires Distinct(s) && s != []
    ensures Distinct(s[1..]) && forall y :: y in s[1..] <==> y in s && y != s[0]
  {
    forall y ensures y in s[1..] <==> y in s && y != s[0] {
      if y in s[1..] {
        var i :| 0 <= i < |s[1..]| && s[1..][i] == y;
        assert s[i + 1] == y;
      }
      if y in s && y != s[0] {
        var i :| 0 <= i < |s| && s[i] == y;
        assert s[1..][i - 1] == y;
      }
    }
  }

  /** One write keeps the table consistent, keeps the written id, and loses at most the oldest entry. */
  lemma MarkKeeps(t: Table, id: Id, s: Status)
    requires Consistent(t)
    ensures Consistent(Mark(t, id, s))
    ensures id in Mark(t, id, s).statuses && Mark(t, id, s).statuses[id] == s
    ensures forall x :: x in t.statuses && x !in Mark(t, id, s).statuses ==>
              x == t.order[0] && id !in t.statuses && |t.order| == MAX_STATUS_COUNT
    ensures forall x :: x != id && x in Mark(t, id, s).statuses ==>
              x in t.statuses && Mark(t, id, s).statuses[x] == t.statuses[x]
  {
    hide Distinct;
    if id !in t.statuses {
      AppendNew(t.order, id);
      DropOldest(t.order + [id]);
    }
  }

  /** The order after a write is the recent part of the entries, with the written id added if it was absent. */
  lemma OrderStep(t: Table, entered: seq<Id>, id: Id, s: Status)
    requires t.order == Suffix(entered, MAX_STATUS_COUNT)
    ensures Mark(t, id, s).order ==
            Suffix(entered + if id in t.statuses then [] else [id], MAX_STATUS_COUNT)
  {
    if id in t.statuses {
      assert entered + [] == entered;
    }
  }

  /** After any calls: keys and order agree, at most 10000 of them, the order is the most recent entries,
      and each kept id holds the status written to it last. */
  lemma {:induction false} ReplayAgrees(calls: seq<Call>)
    ensures var t := Replay(calls);
            && Consistent(t)
            && t.order == Suffix(Entered(calls), MAX_STATUS_COUNT)
            && forall id :: id in t.statuses ==> LastWrite(calls, id) == Some(t.statuses[id])
  {
    if calls != [] {
      hide Mark, Consistent, Suffix;
      var before, last := calls[..|calls| - 1], calls[|calls| - 1];
      ReplayAgrees(before);
      MarkKeeps(Replay(before), last.id, last.status);
      OrderStep(Replay(before), Entered(before), last.id, last.status);
    }
  }
}

/** internal/core/scheduler.go: who owns a schedule entry, and when it can still fire.

    Callers register, stop and shut down; each entry has a goroutine that fires it.  Each lock region and each
    channel or wait-group operation is one step of an arbitrary interleaving.  A Shutdown that finds another one
    begun is a step, since it returns nil; a Register or Stop that its lock region refuses is none. */
module SchedulerEntries {
  import opened Jobs

  // ---- The entry table, one lock region at a time ----

  /** The ids of the table, and whether Shutdown has begun. */
  datatype Table = Table(ids: set<Id>, stopped: bool)

  function Entered(tab: Table, id: Id): Table {
    if tab.stopped then tab else tab.(ids := tab.ids + {id})
  }

  function TakenOut(tab: Table, id: Id): Table {
    tab.(ids := tab.ids - {id})
  }

  function Emptied(tab: Table): Table {
    if tab.stopped then tab else Table({}, true)
  }

  /** The step machine below moves its table by the same functions. */
  class EntryTable {
    var entries: map<Id, Name>
    var stopped: bool

    function Contents(): Table
      reads this
    {
      Table(entries.Keys, stopped)
    }

    constructor ()
      ensures Contents() == Table({}, false)
    {
      entries := map[];
      stopped := false;
    }

    method Register(id: Id, name: Name) returns (ok: bool)
      modifies this`entries
      ensures ok == !stopped && Contents() == Entered(old(Contents()), id)
      ensures forall x :: x in entries ==> entries[x] == if ok && x == id then name else old(entries)[x]
    {
      if stopped {
        return false;
      }
      entries := entries[id := name];
      return true;
    }

    /** The lock region of Stop: the caller that finds the entry owns its stop channel. */
    method Take(id: Id) returns (found: bool)
      modifies this`entries
      ensures found == (id in old(entries)) && Contents() == TakenOut(old(Contents()), id)
      ensures forall x :: x in entries ==> entries[x] == old(entries)[x]
    {
      if id !in entries {
        return false;
      }
      entries := entries - {id};
      return true;
    }

    /** The lock region of Shutdown: the first caller owns every entry that is left. */
    method TakeAll() returns (first: bool, taken: set<Id>)
      modifies this
      ensures first == !old(stopped) && Contents() == Emptied(old(Contents()))
      ensures taken == if first then old(entries.Keys) else {}
      ensures !first ==> entries == old(entries)
    {
      if stopped {
        return false, {};
      }
      stopped := true;
      taken := entries.Keys;
      entries := map[];
      return true, taken;
    }

    /** The deferred removal of a goroutine that ends; Stop or Shutdown may have been first. */
    method Remove(id: Id)
      modifies this`entries
      ensures Contents() == TakenOut(old(Contents()), id)
      ensures forall x :: x in entries ==> entries[x] == old(entries)[x]
    {
      entries := entries - {id};
    }
  }

  // ---- The step machine ----

  datatype Firer = NotStarted | Waiting | Firing | Removing | ClosingDone | Leaving | Exited

  /** `closes` counts the closes of the stop channel, of which a second one would panic; `fired` counts the
      submissions. */
  datatype Entry = Entry(repeats: bool, inGroup: bool, doneClosed: bool, firer: Firer, closes: nat, fired: nat)

  datatype Caller =
    | Idle
    | Registered(id: Id)
    | Added(id: Id)
    | ClosingOne(id: Id)
    | ClosingAll(ids: set<Id>)
    | AwaitDone(id: Id)
    | AwaitAll

  /** The goroutine of Shutdown that waits for the wait group, and then closes the done channel. */
  datatype Waiter = NoWaiter | WaitsForGroup | SawEmpty

  /** halted: the ids whose Stop has returned nil. */
  datatype State = State(table: Table, all: map<Id, Entry>, wg: int, callers: map<nat, Caller>, halted: set<Id>,
                         waiter: Waiter)

  datatype Action =
    | Register(t: nat, id: Id, repeats: bool)
    | AddToGroup(t: nat)
    | Start(t: nat)
    | Take(t: nat, id: Id)
    | CloseOne(t: nat)
    | StopReturns(t: nat)
    | TakeAll(t: nat)
    | CloseNext(t: nat, id: Id)
    | AllClosed(t: nat)
    | SeesEmpty
    | Joined(t: nat)
    | TimedOut(t: nat)
    | ShutdownAgain(t: nat)
    | Ring(id: Id)
    | SeesStop(id: Id)
    | NoNext(id: Id)
    | Fire(id: Id, ok: bool)
    | Remove(id: Id)
    | CloseDone(id: Id)
    | Leave(id: Id)

  predicate CallerIs(s: State, t: nat, pc: Caller) {
    t in s.callers && s.callers[t] == pc
  }

  predicate FirerIs(s: State, id: Id, f: Firer) {
    id in s.all && s.all[id].firer == f
  }

  predicate Enabled(s: State, a: Action) {
    match a
    case Register(t, id, repeats) => CallerIs(s, t, Idle) && !s.table.stopped && id !in s.all
    case AddToGroup(t) => t in s.callers && s.callers[t].Registered? && s.callers[t].id in s.all
    case Start(t) => t in s.callers && s.callers[t].Added? && s.callers[t].id in s.all
    case Take(t, id) => CallerIs(s, t, Idle) && id in s.table.ids
    case CloseOne(t) => t in s.callers && s.callers[t].ClosingOne? && s.callers[t].id in s.all
    case StopReturns(t) =>
      t in s.callers && s.callers[t].AwaitDone? && s.callers[t].id in s.all && s.all[s.callers[t].id].doneClosed
    case TakeAll(t) => CallerIs(s, t, Idle) && !s.table.stopped
    case CloseNext(t, id) => t in s.callers && s.callers[t].ClosingAll? && id in s.callers[t].ids && id in s.all
    case AllClosed(t) => CallerIs(s, t, ClosingAll({}))
    case SeesEmpty => s.waiter.WaitsForGroup? && s.wg == 0
    case Joined(t) => CallerIs(s, t, AwaitAll) && s.waiter.SawEmpty?
    case TimedOut(t) => CallerIs(s, t, AwaitAll)
    case ShutdownAgain(t) => CallerIs(s, t, Idle) && s.table.stopped
    case Ring(id) => FirerIs(s, id, Waiting)
    case SeesStop(id) => FirerIs(s, id, Waiting) && s.all[id].closes > 0
    case NoNext(id) => FirerIs(s, id, Waiting)
    case Fire(id, ok) => FirerIs(s, id, Firing)
    case Remove(id) => FirerIs(s, id, Removing)
    case CloseDone(id) => FirerIs(s, id, ClosingDone)
    case Leave(id) => FirerIs(s, id, Leaving)
  }

  function Calls(s: State, t: nat, pc: Caller): State {
    s.(callers := s.callers[t := pc])
  }

  function Moves(s: State, id: Id, e: Entry): State {
    s.(all := s.all[id := e])
  }

  function Closed(e: Entry): Entry {
    e.(closes := e.closes + 1)
  }

  function Do(s: State, a: Action): State
    requires Enabled(s, a)
  {
    match a
    case Register(t, id, repeats) =>
      Moves(Calls(s, t, Registered(id)), id, Entry(repeats, false, false, NotStarted, 0, 0))
        .(table := Entered(s.table, id))
    case AddToGroup(t) =>
      var id := s.callers[t].id;
      Moves(Calls(s, t, Added(id)), id, s.all[id].(inGroup := true)).(wg := s.wg + 1)
    case Start(t) =>
      var id := s.callers[t].id;
      Moves(Calls(s, t, Idle), id, s.all[id].(firer := Waiting))
    case Take(t, id) => Calls(s, t, ClosingOne(id)).(table := TakenOut(s.table, id))
    case CloseOne(t) =>
      var id := s.callers[t].id;
      Moves(Calls(s, t, AwaitDone(id)), id, Closed(s.all[id]))
    case StopReturns(t) => Calls(s, t, Idle).(halted := s.halted + {s.callers[t].id})
    case TakeAll(t) => Calls(s, t, ClosingAll(s.table.ids)).(table := Emptied(s.table))
    case CloseNext(t, id) => Moves(Calls(s, t, ClosingAll(s.callers[t].ids - {id})), id, Closed(s.all[id]))
    case AllClosed(t) => Calls(s, t, AwaitAll).(waiter := WaitsForGroup)
    case SeesEmpty => s.(waiter := SawEmpty)
    case Joined(t) => Calls(s, t, Idle)
    case TimedOut(t) => Calls(s, t, Idle)
    case ShutdownAgain(t) => s
    case Ring(id) => Moves(s, id, s.all[id].(firer := Firing))
    case SeesStop(id) => Moves(s, id, s.all[id].(firer := Removing))
    case NoNext(id) => Moves(s, id, s.all[id].(firer := Removing))
    case Fire(id, ok) =>
      var e := s.all[id];
      Moves(s, id, e.(fired := e.fired + 1, firer := if ok && e.repeats then Waiting else Removing))
    case Remove(id) => Moves(s, id, s.all[id].(firer := ClosingDone)).(table := TakenOut(s.table, id))
    case CloseDone(id) => Moves(s, id, s.all[id].(firer := Leaving, doneClosed := true))
    case Leave(id) => Moves(s, id, s.all[id].(firer := Exited, inGroup := false)).(wg := s.wg - 1)
  }

  predicate IsStart(s: State) {
    && s.table == Table({}, false) && s.all == map[] && s.wg == 0 && s.halted == {} && s.waiter.NoWaiter?
    && forall t :: t in s.callers ==> s.callers[t].Idle?
  }

  ghost predicate Linked(run: seq<State>, i: nat)
    requires i + 1 < |run|
  {
    exists a :: Enabled(run[i], a) && run[i + 1] == Do(run[i], a)
  }

  ghost predicate IsRun(run: seq<State>) {
    run != [] && IsStart(run[0]) && forall i :: 0 <= i < |run| - 1 ==> Linked(run, i)
  }

  // ---- Ownership ----

  /** The caller has taken the right to close the entry's stop channel. */
  predicate Holds(pc: Caller, id: Id) {
    match pc
    case ClosingOne(x) => x == id
    case ClosingAll(ids) => id in ids
    case _ => false
  }

  /** The caller is about to start the entry's goroutine. */
  predicate Starts(pc: Caller, id: Id) {
    (pc.Registered? || pc.Added?) && pc.id == id
  }

  predicate EntryOk(s: State, id: Id) {
    && id in s.all
    && var e := s.all[id];
       && e.closes <= 1 && (id in s.table.ids ==> e.closes == 0)
       && (e.doneClosed <==> e.firer.Leaving? || e.firer.Exited?)
       && (e.inGroup ==> !e.firer.Exited?) && (!e.inGroup ==> e.firer.NotStarted? || e.firer.Exited?)
  }

  /** What the caller relies on about one entry. */
  predicate ReliesOn(s: State, pc: Caller, id: Id) {
    && (Holds(pc, id) ==> id in s.all && s.all[id].closes == 0 && id !in s.table.ids)
    && (Starts(pc, id) ==> id in s.all && s.all[id].firer.NotStarted? && s.all[id].inGroup == pc.Added?)
  }

  /** Two callers never hold or start the same entry. */
  predicate Apart(p: Caller, q: Caller, id: Id) {
    !(Holds(p, id) && Holds(q, id)) && !(Starts(p, id) && Starts(q, id))
  }

  /** Some caller has registered the entry, and has not yet added its goroutine to the wait group. */
  ghost predicate NotYetAdded(s: State, id: Id) {
    exists t :: CallerIs(s, t, Registered(id))
  }

  /** Some caller has added the entry to the wait group, and has not yet started its goroutine. */
  ghost predicate NotYetStarted(s: State, id: Id) {
    exists t :: CallerIs(s, t, Added(id))
  }

  function Working(all: map<Id, Entry>): set<Id> {
    set id | id in all && all[id].inGroup
  }

  ghost predicate CallersInv(s: State) {
    && (forall t, id :: t in s.callers ==> ReliesOn(s, s.callers[t], id))
    && (forall t, u, id :: t in s.callers && u in s.callers && t != u ==> Apart(s.callers[t], s.callers[u], id))
  }

  ghost predicate EntriesInv(s: State) {
    && s.table.ids <= s.all.Keys
    && (forall id :: id in s.all ==> EntryOk(s, id))
    && (forall id :: id in s.halted ==> id in s.all && s.all[id].doneClosed)
  }

  ghost predicate PendingInv(s: State) {
    forall id :: id in s.all && s.all[id].firer.NotStarted? ==>
      if s.all[id].inGroup then NotYetStarted(s, id) else NotYetAdded(s, id)
  }

  /** Only a Shutdown that has stopped the scheduler closes channels and waits. */
  ghost predicate ShutInv(s: State) {
    && (!s.waiter.NoWaiter? ==> s.table.stopped)
    && (forall t :: t in s.callers && (s.callers[t].ClosingAll? || s.callers[t].AwaitAll?) ==> s.table.stopped)
  }

  ghost predicate GroupInv(s: State) {
    s.wg == |Working(s.all)|
  }

  /** The goroutine of the entry has not yet taken the entry out of the table. */
  predicate Runs(f: Firer) {
    f.NotStarted? || f.Waiting? || f.Firing? || f.Removing?
  }

  ghost predicate IsHeld(s: State, id: Id) {
    exists t :: t in s.callers && Holds(s.callers[t], id)
  }

  ghost predicate TableInv(s: State) {
    forall id :: id in s.all ==>
      if id in s.table.ids then Runs(s.all[id].firer)
      else s.all[id].closes > 0 || !Runs(s.all[id].firer) || IsHeld(s, id)
  }

  ghost predicate Inv(s: State) {
    CallersInv(s) && EntriesInv(s) && PendingInv(s) && GroupInv(s) && TableInv(s) && ShutInv(s)
  }

  // ---- Every step keeps ownership ----

  /** The goroutine of an entry moves. */
  lemma FirerMoves(s: State, s': State, id: Id, e: Entry)
    requires CallersInv(s) && id in s.all && !s.all[id].firer.NotStarted?
    requires s'.callers == s.callers && s'.table.ids <= s.table.ids
    requires s'.all == s.all[id := e] && e.closes == s.all[id].closes
    ensures CallersInv(s')
  {
    forall t, x | t in s'.callers ensures ReliesOn(s', s'.callers[t], x) {
      assert ReliesOn(s, s.callers[t], x);
    }
  }

  lemma CallersSame(s: State, s': State)
    requires CallersInv(s) && s'.callers == s.callers && s'.all == s.all && s'.table == s.table
    ensures CallersInv(s')
  {
    forall t, x | t in s'.callers ensures ReliesOn(s', s'.callers[t], x) {
      assert ReliesOn(s, s.callers[t], x);
    }
  }

  /** A caller moves on to where it holds and starts only what it held before, or took from the table. */
  lemma CallerMoves(s: State, s': State, t: nat, pc: Caller)
    requires CallersInv(s) && EntriesInv(s) && t in s.callers && s'.callers == s.callers[t := pc] && s'.all == s.all
    requires s'.table.ids <= s.table.ids
    requires forall x :: Holds(pc, x) ==> x !in s'.table.ids && (x in s.table.ids || Holds(s.callers[t], x))
    requires forall x :: !Starts(pc, x)
    ensures CallersInv(s')
  {
    forall u, x | u in s'.callers ensures ReliesOn(s', s'.callers[u], x) {
      assert ReliesOn(s, s.callers[u], x) && (x in s.all ==> EntryOk(s, x));
    }
    forall u, v, x | u in s'.callers && v in s'.callers && u != v ensures Apart(s'.callers[u], s'.callers[v], x) {
      assert Apart(s.callers[u], s.callers[v], x) && ReliesOn(s, s.callers[u], x) && ReliesOn(s, s.callers[v], x);
    }
  }

  /** A caller closes a stop channel it holds, and holds it no more. */
  lemma CallerCloses(s: State, s': State, t: nat, pc: Caller, id: Id)
    requires CallersInv(s) && t in s.callers && Holds(s.callers[t], id) && id in s.all
    requires s'.callers == s.callers[t := pc] && s'.all == s.all[id := Closed(s.all[id])] && s'.table.ids == s.table.ids
    requires forall x :: Holds(pc, x) ==> x != id && Holds(s.callers[t], x)
    requires forall x :: !Starts(pc, x)
    ensures CallersInv(s')
  {
    forall u, x | u in s'.callers ensures ReliesOn(s', s'.callers[u], x) {
      assert ReliesOn(s, s.callers[u], x) && (u != t ==> Apart(s.callers[t], s.callers[u], x));
    }
    forall u, v, x | u in s'.callers && v in s'.callers && u != v ensures Apart(s'.callers[u], s'.callers[v], x) {
      assert Apart(s.callers[u], s.callers[v], x);
    }
  }

  /** A caller takes the next step in starting an entry. */
  lemma CallerStarts(s: State, s': State, t: nat, pc: Caller, id: Id, e: Entry)
    requires CallersInv(s) && EntriesInv(s) && t in s.callers
    requires forall x :: !Holds(pc, x) && (Starts(pc, x) ==> x == id)
    requires s'.callers == s.callers[t := pc] && s'.all == s.all[id := e]
    requires Starts(pc, id) ==>
               e.firer == (if id in s.all then s.all[id].firer else NotStarted) && e.inGroup == pc.Added?
    requires if id in s.all then Starts(s.callers[t], id) && e.closes == s.all[id].closes && s'.table.ids == s.table.ids
             else s'.table.ids == s.table.ids + {id}
    ensures CallersInv(s')
  {
    forall u, x | u in s'.callers ensures ReliesOn(s', s'.callers[u], x) {
      assert ReliesOn(s, s.callers[u], x) && (u != t ==> Apart(s.callers[t], s.callers[u], x));
    }
    forall u, v, x | u in s'.callers && v in s'.callers && u != v ensures Apart(s'.callers[u], s'.callers[v], x) {
      assert Apart(s.callers[u], s.callers[v], x) && ReliesOn(s, s.callers[u], x) && ReliesOn(s, s.callers[v], x);
    }
  }

  lemma CallersKept(s: State, a: Action)
    requires CallersInv(s) && EntriesInv(s) && Enabled(s, a)
    ensures CallersInv(Do(s, a))
  {
    hide CallersInv, EntriesInv;
    var s' := Do(s, a);
    match a
    case Register(t, id, repeats) => CallerStarts(s, s', t, Registered(id), id, s'.all[id]);
    case AddToGroup(t) => CallerStarts(s, s', t, Added(s.callers[t].id), s.callers[t].id, s'.all[s.callers[t].id]);
    case Start(t) => CallerStarts(s, s', t, Idle, s.callers[t].id, s'.all[s.callers[t].id]);
    case Take(t, id) => CallerMoves(s, s', t, ClosingOne(id));
    case CloseOne(t) => CallerCloses(s, s', t, AwaitDone(s.callers[t].id), s.callers[t].id);
    case StopReturns(t) => CallerMoves(s, s', t, Idle);
    case TakeAll(t) => CallerMoves(s, s', t, ClosingAll(s.table.ids));
    case CloseNext(t, id) => CallerCloses(s, s', t, ClosingAll(s.callers[t].ids - {id}), id);
    case AllClosed(t) => CallerMoves(s, s', t, AwaitAll);
    case SeesEmpty => CallersSame(s, s');
    case Joined(t) => CallerMoves(s, s', t, Idle);
    case TimedOut(t) => CallerMoves(s, s', t, Idle);
    case ShutdownAgain(t) => CallersSame(s, s');
    case Ring(id) => FirerMoves(s, s', id, s'.all[id]);
    case SeesStop(id) => FirerMoves(s, s', id, s'.all[id]);
    case NoNext(id) => FirerMoves(s, s', id, s'.all[id]);
    case Fire(id, ok) => FirerMoves(s, s', id, s'.all[id]);
    case Remove(id) => FirerMoves(s, s', id, s'.all[id]);
    case CloseDone(id) => FirerMoves(s, s', id, s'.all[id]);
    case Leave(id) => FirerMoves(s, s', id, s'.all[id]);
  }

  // ---- Entries ----

  /** One entry changes, and no other is put into the table. */
  lemma EntryMoves(s: State, s': State, id: Id)
    requires EntriesInv(s) && id in s'.all && s'.all == s.all[id := s'.all[id]] && EntryOk(s', id)
    requires s'.table.ids <= s.table.ids + {id} && (id in s.all && s.all[id].doneClosed ==> s'.all[id].doneClosed)
    requires forall x :: x in s'.halted ==> x in s.halted || (x in s.all && s.all[x].doneClosed)
    ensures EntriesInv(s')
  {
    forall x | x in s'.all ensures EntryOk(s', x) {
      assert x != id ==> EntryOk(s, x);
    }
  }

  lemma EntriesSame(s: State, s': State)
    requires EntriesInv(s) && s'.all == s.all && s'.table.ids <= s.table.ids
    requires forall x :: x in s'.halted ==> x in s.halted || (x in s.all && s.all[x].doneClosed)
    ensures EntriesInv(s')
  {
    forall x | x in s'.all ensures EntryOk(s', x) {
      assert EntryOk(s, x);
    }
  }

  function EntryOf(s: State, a: Action): Id
    requires Enabled(s, a) && Touches(a)
  {
    match a
    case Register(t, id, _) => id
    case AddToGroup(t) => s.callers[t].id
    case Start(t) => s.callers[t].id
    case CloseOne(t) => s.callers[t].id
    case CloseNext(t, id) => id
    case Ring(id) => id
    case SeesStop(id) => id
    case NoNext(id) => id
    case Fire(id, _) => id
    case Remove(id) => id
    case CloseDone(id) => id
    case Leave(id) => id
  }

  /** The step changes an entry. */
  predicate Touches(a: Action) {
    && !a.Take? && !a.StopReturns? && !a.TakeAll? && !a.AllClosed? && !a.SeesEmpty? && !a.Joined? && !a.TimedOut?
    && !a.ShutdownAgain?
  }

  lemma EntryStaysOk(s: State, a: Action)
    requires CallersInv(s) && EntriesInv(s) && Enabled(s, a) && Touches(a)
    ensures EntryOk(Do(s, a), EntryOf(s, a))
  {
    var id := EntryOf(s, a);
    assert id in s.all ==> EntryOk(s, id);
    if a.AddToGroup? || a.Start? || a.CloseOne? || a.CloseNext? {
      assert ReliesOn(s, s.callers[a.t], id);
    }
    hide CallersInv, EntriesInv;
  }

  lemma EntriesKept(s: State, a: Action)
    requires CallersInv(s) && EntriesInv(s) && Enabled(s, a)
    ensures EntriesInv(Do(s, a))
  {
    if Touches(a) {
      EntryStaysOk(s, a);
      hide CallersInv, EntriesInv, EntryOk;
      EntryMoves(s, Do(s, a), EntryOf(s, a));
    } else {
      hide CallersInv, EntriesInv, EntryOk;
      EntriesSame(s, Do(s, a));
    }
  }

  // ---- The wait group ----

  /** An entry whose goroutine has not been started waits for a caller to add it to the wait group or to start it. */
  lemma PendingKept(s: State, a: Action)
    requires PendingInv(s) && Enabled(s, a)
    ensures PendingInv(Do(s, a))
  {
    var s' := Do(s, a);
    forall id | id in s'.all && s'.all[id].firer.NotStarted?
      ensures if s'.all[id].inGroup then NotYetStarted(s', id) else NotYetAdded(s', id)
    {
      if a.Register? && a.id == id {
        assert CallerIs(s', a.t, Registered(id));
      } else if a.AddToGroup? && s.callers[a.t].id == id {
        assert CallerIs(s', a.t, Added(id));
      } else {
        PendingStays(s, a, id);
      }
    }
  }

  lemma PendingStays(s: State, a: Action, id: Id)
    requires PendingInv(s) && Enabled(s, a) && id in Do(s, a).all && Do(s, a).all[id].firer.NotStarted?
    requires !(a.Register? && a.id == id) && !(a.AddToGroup? && s.callers[a.t].id == id)
    ensures if Do(s, a).all[id].inGroup then NotYetStarted(Do(s, a), id) else NotYetAdded(Do(s, a), id)
  {
    var s' := Do(s, a);
    assert id in s.all && s.all[id].firer.NotStarted? && s'.all[id].inGroup == s.all[id].inGroup;
    if s.all[id].inGroup {
      var u :| CallerIs(s, u, Added(id));
      assert CallerIs(s', u, Added(id));
    } else {
      var u :| CallerIs(s, u, Registered(id));
      assert CallerIs(s', u, Registered(id));
    }
  }

  lemma ShutKept(s: State, a: Action)
    requires ShutInv(s) && Enabled(s, a)
    ensures ShutInv(Do(s, a))
  {
    var s' := Do(s, a);
    assert s.table.stopped ==> s'.table.stopped;
    assert a.AllClosed? ==> s.callers[a.t].ClosingAll?;
    forall t | t in s'.callers && (s'.callers[t].ClosingAll? || s'.callers[t].AwaitAll?) ensures s'.table.stopped {
      assert t in s.callers;
      assert s.callers[t].ClosingAll? || s.callers[t].AwaitAll? || a.TakeAll?;
    }
  }

  lemma WorkingMoves(all: map<Id, Entry>, id: Id, e: Entry)
    ensures Working(all[id := e]) == (Working(all) - {id}) + if e.inGroup then {id} else {}
    ensures id in Working(all) <==> id in all && all[id].inGroup
  {
  }

  lemma SizeMoves(before: set<Id>, id: Id, stays: bool)
    ensures |(before - {id}) + if stays then {id} else {}| ==
            |before| - (if id in before then 1 else 0) + if stays then 1 else 0
  {
    var rest := before - {id};
    assert id in before ==> before == rest + {id};
    assert id !in before ==> before == rest;
    assert rest + {} == rest;
  }

  predicate InGroup(all: map<Id, Entry>, id: Id) {
    id in all && all[id].inGroup
  }

  /** The count follows the one entry that the step changes. */
  lemma CountFollows(s: State, a: Action)
    requires CallersInv(s) && EntriesInv(s) && Enabled(s, a) && Touches(a)
    ensures var s', id := Do(s, a), EntryOf(s, a);
            && id in s'.all && s'.all == s.all[id := s'.all[id]]
            && s'.wg == s.wg - (if InGroup(s.all, id) then 1 else 0) + (if InGroup(s'.all, id) then 1 else 0)
  {
    var id := EntryOf(s, a);
    assert id in s.all ==> EntryOk(s, id);
    if a.AddToGroup? || a.Start? {
      assert ReliesOn(s, s.callers[a.t], id);
    }
    hide CallersInv, EntriesInv;
  }

  lemma CountStays(s: State, a: Action)
    requires Enabled(s, a) && !Touches(a)
    ensures Do(s, a).all == s.all && Do(s, a).wg == s.wg
  {
  }

  lemma GroupKept(s: State, a: Action)
    requires CallersInv(s) && EntriesInv(s) && GroupInv(s) && Enabled(s, a)
    ensures GroupInv(Do(s, a))
  {
    hide CallersInv, EntriesInv, Enabled, Do, Working, EntryOf;
    if Touches(a) {
      var id := EntryOf(s, a);
      CountFollows(s, a);
      WorkingMoves(s.all, id, Do(s, a).all[id]);
      SizeMoves(Working(s.all), id, Do(s, a).all[id].inGroup);
    } else {
      CountStays(s, a);
    }
  }

  // ---- The table ----

  /** A caller that holds the entry keeps holding it, or closes it. */
  lemma HeldStays(s: State, a: Action, id: Id)
    requires Enabled(s, a) && IsHeld(s, id) && id in s.all
    ensures id in Do(s, a).all && (IsHeld(Do(s, a), id) || Do(s, a).all[id].closes > 0)
  {
    var t :| t in s.callers && Holds(s.callers[t], id);
    var s' := Do(s, a);
    assert t in s'.callers && (Holds(s'.callers[t], id) || s'.all[id].closes > 0);
  }

  /** Whoever takes an entry out of the table holds it, or is its goroutine. */
  lemma TakenIsHeld(s: State, a: Action, id: Id)
    requires Enabled(s, a) && id in s.table.ids && id !in Do(s, a).table.ids && id in s.all
    ensures id in Do(s, a).all && (IsHeld(Do(s, a), id) || !Runs(Do(s, a).all[id].firer))
  {
    var s' := Do(s, a);
    if !a.Remove? {
      assert Holds(s'.callers[a.t], id);
    }
  }

  lemma FirerRunsOn(s: State, a: Action, id: Id)
    requires CallersInv(s) && Enabled(s, a) && id in s.all
    ensures id in Do(s, a).all
    ensures !Runs(s.all[id].firer) ==> !Runs(Do(s, a).all[id].firer)
    ensures Runs(s.all[id].firer) && id in Do(s, a).table.ids ==> Runs(Do(s, a).all[id].firer)
    ensures Do(s, a).all[id].closes >= s.all[id].closes
    ensures id !in s.table.ids ==> id !in Do(s, a).table.ids
  {
    if a.Start? {
      assert ReliesOn(s, s.callers[a.t], s.callers[a.t].id);
    }
    hide CallersInv;
  }

  lemma NewIsListed(s: State, a: Action, id: Id)
    requires Enabled(s, a) && id !in s.all && id in Do(s, a).all
    ensures id in Do(s, a).table.ids && Runs(Do(s, a).all[id].firer)
  {
  }

  lemma TableKept(s: State, a: Action)
    requires CallersInv(s) && TableInv(s) && Enabled(s, a)
    ensures TableInv(Do(s, a))
  {
    hide Do, Enabled, Runs, CallersInv, IsHeld;
    forall id | id in Do(s, a).all
      ensures if id in Do(s, a).table.ids then Runs(Do(s, a).all[id].firer)
              else Do(s, a).all[id].closes > 0 || !Runs(Do(s, a).all[id].firer) || IsHeld(Do(s, a), id)
    {
      if id !in s.all {
        NewIsListed(s, a, id);
      } else {
        FirerRunsOn(s, a, id);
        if IsHeld(s, id) {
          HeldStays(s, a, id);
        }
        if id in s.table.ids && id !in Do(s, a).table.ids {
          TakenIsHeld(s, a, id);
        }
      }
    }
  }

  lemma InvKept(s: State, a: Action)
    requires Inv(s) && Enabled(s, a)
    ensures Inv(Do(s, a))
  {
    hide CallersInv, EntriesInv, PendingInv, GroupInv, TableInv, ShutInv, Do, Enabled;
    ShutKept(s, a);
    TableKept(s, a);
    CallersKept(s, a);
    EntriesKept(s, a);
    PendingKept(s, a);
    GroupKept(s, a);
  }

  lemma {:induction false} Always(run: seq<State>, i: nat)
    requires IsRun(run) && i < |run|
    ensures Inv(run[i])
  {
    if i == 0 {
      assert Working(run[0].all) == {};
    } else {
      Always(run, i - 1);
      assert Linked(run, i - 1);
      var a :| Enabled(run[i - 1], a) && run[i] == Do(run[i - 1], a);
      hide Inv, Enabled, Do;
      InvKept(run[i - 1], a);
    }
  }

  // ---- What callers may rely on ----

  /** Every stop channel is closed at most once: a close never panics. */
  lemma StopClosedOnce(run: seq<State>, i: nat, id: Id)
    requires IsRun(run) && i < |run| && id in run[i].all
    ensures run[i].all[id].closes <= 1
    ensures forall t :: t in run[i].callers && Holds(run[i].callers[t], id) ==> run[i].all[id].closes == 0
    ensures forall t, u :: (t in run[i].callers && u in run[i].callers
              && Holds(run[i].callers[t], id) && Holds(run[i].callers[u], id)) ==> t == u
  {
    Always(run, i);
    hide IsRun, PendingInv, GroupInv, TableInv;
    var s := run[i];
    assert EntryOk(s, id);
    forall t | t in s.callers && Holds(s.callers[t], id) ensures s.all[id].closes == 0 {
      assert ReliesOn(s, s.callers[t], id);
    }
    forall t, u | t in s.callers && u in s.callers && Holds(s.callers[t], id) && Holds(s.callers[u], id)
      ensures t == u
    {
      assert t != u ==> Apart(s.callers[t], s.callers[u], id);
    }
  }

  /** The table holds exactly the entries whose stop channel is open and not in the hands of a Stop or Shutdown, and
      whose goroutine has not taken them out: Stop finds an entry while it can still be the first to close it. */
  lemma ListedExactly(run: seq<State>, i: nat, id: Id)
    requires IsRun(run) && i < |run| && id in run[i].all
    ensures id in run[i].table.ids <==>
            run[i].all[id].closes == 0 && !IsHeld(run[i], id) && Runs(run[i].all[id].firer)
  {
    Always(run, i);
    hide IsRun, PendingInv, GroupInv, Runs;
    var s := run[i];
    assert EntryOk(s, id);
    if id in s.table.ids {
      forall t | t in s.callers ensures !Holds(s.callers[t], id) {
        assert ReliesOn(s, s.callers[t], id);
      }
    }
  }

  /** An entry that has left the table never comes back: every later Stop of its id reports that it is unknown. */
  lemma {:induction false} LeftForGood(run: seq<State>, i: nat, k: nat, id: Id)
    requires IsRun(run) && i <= k < |run| && id in run[i].all && id !in run[i].table.ids
    ensures id in run[k].all && id !in run[k].table.ids
  {
    if i < k {
      LeftForGood(run, i, k - 1, id);
      Always(run, k - 1);
      assert Linked(run, k - 1);
      var a :| Enabled(run[k - 1], a) && run[k] == Do(run[k - 1], a);
      hide CallersInv, EntriesInv, PendingInv, GroupInv, TableInv, Enabled, Do, Runs;
      FirerRunsOn(run[k - 1], a, id);
    }
  }

  /** The goroutine of the entry has done its last firing. */
  predicate Finished(s: State, id: Id) {
    id in s.all && !s.all[id].firer.NotStarted? && !s.all[id].firer.Waiting? && !s.all[id].firer.Firing?
  }

  lemma FinishedStep(s: State, a: Action, id: Id)
    requires Inv(s) && Enabled(s, a) && Finished(s, id)
    ensures Finished(Do(s, a), id) && Do(s, a).all[id].fired == s.all[id].fired
  {
    if a.AddToGroup? || a.Start? {
      assert ReliesOn(s, s.callers[a.t], s.callers[a.t].id);
    }
    hide Inv;
  }

  lemma {:induction false} FinishedStays(run: seq<State>, i: nat, k: nat, id: Id)
    requires IsRun(run) && i <= k < |run| && Finished(run[i], id)
    ensures Finished(run[k], id) && run[k].all[id].fired == run[i].all[id].fired
  {
    if i < k {
      FinishedStays(run, i, k - 1, id);
      Always(run, k - 1);
      assert Linked(run, k - 1);
      var a :| Enabled(run[k - 1], a) && run[k] == Do(run[k - 1], a);
      hide Inv, Enabled, Do;
      FinishedStep(run[k - 1], a, id);
    }
  }

  /** Once Stop has returned nil for an entry, the entry never fires again. */
  lemma StopIsFinal(run: seq<State>, i: nat, k: nat, id: Id)
    requires IsRun(run) && i <= k < |run| && id in run[i].halted
    ensures id in run[i].all && id in run[k].all && run[k].all[id].fired == run[i].all[id].fired
  {
    Always(run, i);
    hide IsRun, CallersInv, PendingInv, GroupInv, TableInv, ShutInv;
    assert EntryOk(run[i], id);
    FinishedStays(run, i, k, id);
  }
}

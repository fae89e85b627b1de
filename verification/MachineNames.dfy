/** A name stays taken only while someone is answerable for it. */
module MachineNames {
  import opened Wrappers
  import opened Jobs
  import opened ReadyQueues
  import opened Machine
  import opened MachineTokens
  import opened MachineEffects
  import opened MachineSteps

  /** The id is listed under the name in the in-flight table. */
  predicate IsListed(s: State, n: Name, id: Id) {
    id in FlightSet(s.flight, n)
  }

  /** The job has been past applyConflict, and so is never listed again. */
  predicate Past(s: State, id: Id) {
    id in s.where && !s.where[id].role.Fresh?
  }

  ghost predicate UnnamedSomewhere(s: State, id: Id) {
    exists t :: t in s.threads && Unnamed(s.threads[t].pc).Some? && Unnamed(s.threads[t].pc).value.id == id
  }

  /** Some thread is going to release the name: the release is among its chores, or it is a cancellation that
      will find the name recorded. */
  ghost predicate ReleaseDue(s: State, n: Name, id: Id) {
    exists t :: t in s.threads && OwesRelease(s, s.threads[t], n, id)
  }

  predicate OwesRelease(s: State, th: Thread, n: Name, id: Id) {
    || ReleaseName(n, id) in th.todo
    || (id in s.names && s.names[id] == n && (LookUpName(id) in th.todo || TombDue(th.pc) == Some(id)))
  }

  /** Someone is answerable for a listed id: the job is alive, its release is under way, or it was lost. */
  ghost predicate Answered(s: State, n: Name, id: Id) {
    && Past(s, id) && s.where[id].job.name == n
    && (id in s.names || UnnamedSomewhere(s, id))
    && (Live(s.where[id].role) || s.where[id].role.Lost? || ReleaseDue(s, n, id))
  }

  ghost predicate ListedInv(s: State) {
    forall n, id :: IsListed(s, n, id) ==> Answered(s, n, id)
  }

  /** Recorded names and names to release are those of their jobs. */
  ghost predicate NamesInv(s: State) {
    && (forall id :: id in s.names ==> Past(s, id) && s.names[id] == s.where[id].job.name)
    && (forall t, ch :: t in s.threads && ch in s.threads[t].todo ==> NameOk(s, ch))
  }

  predicate NameOk(s: State, ch: Chore) {
    match ch
    case ReleaseName(n, id) => Past(s, id) && s.where[id].job.name == n
    case ForgetName(id) => Past(s, id)
    case _ => true
  }

  /** A name is forgotten right after it has been released. */
  ghost predicate OrderInv(s: State) {
    forall t, i :: t in s.threads && 0 <= i < |s.threads[t].todo| ==> ForgetOk(s, s.threads[t].todo, i)
  }

  ghost predicate ForgetOk(s: State, todo: seq<Chore>, i: int)
    requires 0 <= i < |todo|
  {
    match todo[i]
    case ForgetName(id) =>
      || (i > 0 && todo[i - 1].ReleaseName? && todo[i - 1].id == id)
      || (forall n :: !IsListed(s, n, id))
    case _ => true
  }

  ghost predicate NameInv(c: Config, s: State) {
    ListedInv(s) && NamesInv(s) && OrderInv(s) && (c.policy.Allow? ==> s.flight == map[])
  }

  // ---- What a step leaves as it is ----

  lemma PastStays(c: Config, s: State, s': State, t: nat, mv: Move, id: Id)
    requires KeysInv(s) && MoveOk(c, s, s', t, mv) && Past(s, id)
    ensures Past(s', id) && s'.where[id].job.name == s.where[id].job.name
  {
    hide Activates;
  }

  /** A job past applyConflict is listed after a step only if it was before. */
  lemma ListedBefore(c: Config, s: State, s': State, t: nat, d: Delta, n: Name, id: Id)
    requires MoveOk(c, s, s', t, d.mv) && FlightOk(c, s, s', t, d) && IsListed(s', n, id)
    ensures IsListed(s, n, id) ||
            ((d.fl.Enlist? || d.fl.Supplant?) && d.fl.id == id && d.fl.name == n && Admits(d.mv, n, id))
    ensures Past(s, id) ==> IsListed(s, n, id)
  {
    hide Activates, RetryOf;
  }

  lemma HandNamed(s: State, t: nat, j: Job)
    requires TokenInv(s) && t in s.threads && Unnamed(s.threads[t].pc) == Some(j)
    ensures j.id in s.where && s.where[j.id] == Loc(Admitted, t, j)
  {
    hide HeapExact, ReadyExact, RecordsHeld;
    HandRecorded(s.threads, s.where, t);
  }

  lemma RecordedIds(s: State, id: Id)
    requires TokenInv(s) && id in s.where
    ensures s.where[id].job.id == id
  {
    hide HeapExact, ReadyExact, HandsRecorded, Hand;
  }

  // ---- Names and releases stay those of their jobs ----

  /** The releases a thread takes on name their job. */
  lemma TakenNameOk(c: Config, s: State, s': State, t: nat, mv: Move, ch: Chore)
    requires KeysInv(s) && TokenInv(s') && MoveOk(c, s, s', t, mv) && TakesOn(c, s, s', t, mv)
    requires ch in s'.threads[t].todo
    ensures NameOk(s', ch)
  {
    hide TokenInv, Activates, RetryOf, Unnamed, NewJob;
    if mv.Shift? {
      RecordedIds(s', mv.id);
    }
  }

  lemma ExpandedNameOk(c: Config, s: State, s': State, t: nat, mv: Move, ch: Chore)
    requires KeysInv(s) && NamesInv(s) && MoveOk(c, s, s', t, mv) && DoesFirst(c, s, s', t, mv)
    requires ch in Expanded(s.names, s.threads[t].todo[0])
    ensures NameOk(s', ch)
  {
  }

  lemma OldNameOk(c: Config, s: State, s': State, t: nat, mv: Move, ch: Chore)
    requires KeysInv(s) && MoveOk(c, s, s', t, mv) && NameOk(s, ch)
    ensures NameOk(s', ch)
  {
    if ch.ReleaseName? || ch.ForgetName? {
      PastStays(c, s, s', t, mv, ch.id);
    }
    hide MoveOk;
  }

  lemma ChoreNamesKept(c: Config, s: State, s': State, t: nat, mv: Move)
    requires KeysInv(s) && NamesInv(s) && TokenInv(s') && MoveOk(c, s, s', t, mv)
    requires OweOk(c, s, s', t, mv) && s'.threads == s.threads[t := s'.threads[t]]
    ensures forall u, ch :: u in s'.threads && ch in s'.threads[u].todo ==> NameOk(s', ch)
  {
    forall u, ch | u in s'.threads && ch in s'.threads[u].todo ensures NameOk(s', ch) {
      hide MoveOk, TokenInv, NameOk, TakesOn, KeysInv;
      if u != t {
        assert ch in s.threads[u].todo;
        OldNameOk(c, s, s', t, mv, ch);
      } else if s.threads[t].todo == [] {
        TakenNameOk(c, s, s', t, mv, ch);
      } else if ch in Expanded(s.names, s.threads[t].todo[0]) {
        ExpandedNameOk(c, s, s', t, mv, ch);
      } else {
        assert ch in s.threads[t].todo[1..];
        OldNameOk(c, s, s', t, mv, ch);
      }
    }
  }

  /** A recorded name is an old one, or that of the admitted job thread t carries. */
  lemma NameFrom(c: Config, s: State, s': State, t: nat, mv: Move, id: Id)
    requires OweOk(c, s, s', t, mv) && id in s'.names
    ensures || (id in s.names && s'.names[id] == s.names[id])
            || (Unnamed(s.threads[t].pc).Some? && Unnamed(s.threads[t].pc).value.id == id
                && s'.names[id] == Unnamed(s.threads[t].pc).value.name)
  {
    hide Unnamed, Clears, TombDue;
  }

  lemma RecordedNamesKept(c: Config, s: State, s': State, t: nat, mv: Move)
    requires KeysInv(s) && NamesInv(s) && TokenInv(s) && MoveOk(c, s, s', t, mv) && OweOk(c, s, s', t, mv)
    ensures forall id :: id in s'.names ==> Past(s', id) && s'.names[id] == s'.where[id].job.name
  {
    forall id | id in s'.names ensures Past(s', id) && s'.names[id] == s'.where[id].job.name {
      hide TokenInv, Unnamed, NameOk, KeysInv, MoveOk, TakesOn, DoesFirst;
      NameFrom(c, s, s', t, mv, id);
      if !(id in s.names && s'.names[id] == s.names[id]) {
        HandNamed(s, t, Unnamed(s.threads[t].pc).value);
      }
      PastStays(c, s, s', t, mv, id);
    }
  }

  // ---- Names are forgotten after their release ----

  lemma ClearsInOrder(s: State, todo: seq<Chore>, j: Job, i: nat)
    requires Clears(todo, j) && i < |todo|
    ensures ForgetOk(s, todo, i)
  {
  }

  lemma TakenInOrder(c: Config, s: State, s': State, t: nat, mv: Move, i: nat)
    requires TakesOn(c, s, s', t, mv) && i < |s'.threads[t].todo|
    ensures ForgetOk(s', s'.threads[t].todo, i)
  {
    var todo := s'.threads[t].todo;
    if mv.Shift? && Clears(todo, mv.to.job) {
      ClearsInOrder(s', todo, mv.to.job, i);
    } else {
      hide Clears, Unnamed;
    }
  }

  /** An id that is not listed any more. */
  ghost predicate Unlisted(s: State, id: Id) {
    forall n :: !IsListed(s, n, id)
  }

  lemma UnlistedStays(c: Config, s: State, s': State, t: nat, d: Delta, id: Id)
    requires MoveOk(c, s, s', t, d.mv) && FlightOk(c, s, s', t, d) && Past(s, id) && Unlisted(s, id)
    ensures Unlisted(s', id)
  {
    forall n ensures !IsListed(s', n, id) {
      hide MoveOk, FlightOk, IsListed;
      if IsListed(s', n, id) {
        ListedBefore(c, s, s', t, d, n, id);
      }
    }
  }

  /** Releasing the name of a job takes it off the table. */
  lemma ReleaseUnlists(c: Config, s: State, s': State, t: nat, mv: Move, n: Name, id: Id)
    requires NameInv(c, s) && DoesFirst(c, s, s', t, mv) && s.threads[t].todo[0] == ReleaseName(n, id)
    ensures Unlisted(s', id)
  {
    assert NameOk(s, s.threads[t].todo[0]);
    forall m ensures !IsListed(s', m, id) {
      assert IsListed(s, m, id) ==> Answered(s, m, id);
    }
  }

  lemma ForgetStays(c: Config, s: State, s': State, t: nat, d: Delta, u: nat, i: nat)
    requires NameInv(c, s) && MoveOk(c, s, s', t, d.mv) && FlightOk(c, s, s', t, d)
    requires u in s.threads && i < |s.threads[u].todo|
    ensures ForgetOk(s', s.threads[u].todo, i)
  {
    var todo := s.threads[u].todo;
    assert ForgetOk(s, todo, i) && todo[i] in todo && NameOk(s, todo[i]);
    if todo[i].ForgetName? && Unlisted(s, todo[i].id) {
      hide NameInv, MoveOk, FlightOk;
      UnlistedStays(c, s, s', t, d, todo[i].id);
    }
  }

  lemma DoneInOrder(c: Config, s: State, s': State, t: nat, d: Delta, i: nat)
    requires NameInv(c, s) && MoveOk(c, s, s', t, d.mv) && FlightOk(c, s, s', t, d)
    requires DoesFirst(c, s, s', t, d.mv) && i < |s'.threads[t].todo|
    ensures ForgetOk(s', s'.threads[t].todo, i)
  {
    var todo, todo' := s.threads[t].todo, s'.threads[t].todo;
    var front := Expanded(s.names, todo[0]);
    if i >= |front| {
      var k := i - |front| + 1;
      assert todo'[i] == todo[k];
      ForgetStays(c, s, s', t, d, t, k);
      if k > 1 {
        assert todo'[i - 1] == todo[k - 1];
      } else if todo[0].ReleaseName? {
        ReleaseUnlists(c, s, s', t, d.mv, todo[0].name, todo[0].id);
      }
      hide NameInv, MoveOk, FlightOk, DoesFirst;
    }
  }

  lemma OrderKept(c: Config, s: State, s': State, t: nat, d: Delta)
    requires NameInv(c, s) && MoveOk(c, s, s', t, d.mv) && FlightOk(c, s, s', t, d)
    requires OweOk(c, s, s', t, d.mv) && s'.threads == s.threads[t := s'.threads[t]]
    ensures OrderInv(s')
  {
    forall u, i | u in s'.threads && 0 <= i < |s'.threads[u].todo| ensures ForgetOk(s', s'.threads[u].todo, i) {
      hide NameInv, MoveOk, FlightOk, TakesOn, DoesFirst, ForgetOk;
      if u != t {
        ForgetStays(c, s, s', t, d, u, i);
      } else if s.threads[t].todo == [] {
        TakenInOrder(c, s, s', t, d.mv, i);
      } else {
        DoneInOrder(c, s, s', t, d, i);
      }
    }
  }

  // ---- Listed ids stay answered for ----

  /** A name that is recorded for a listed id stays recorded. */
  lemma NameStaysRecorded(c: Config, s: State, s': State, t: nat, mv: Move, n: Name, id: Id)
    requires NameInv(c, s) && TokenInv(s) && OweOk(c, s, s', t, mv) && IsListed(s, n, id) && id in s.names
    ensures id in s'.names && s'.names[id] == s.names[id]
  {
    if s.threads[t].todo == [] {
      var pc := s.threads[t].pc;
      if Unnamed(pc).Some? {
        HandNamed(s, t, Unnamed(pc).value);
      }
      hide TokenInv, Unnamed, ListedInv, OrderInv;
    } else {
      assert ForgetOk(s, s.threads[t].todo, 0);
    }
  }

  lemma NamedOrUnnamed(c: Config, s: State, s': State, t: nat, mv: Move, n: Name, id: Id)
    requires NameInv(c, s) && TokenInv(s) && OweOk(c, s, s', t, mv) && s'.threads == s.threads[t := s'.threads[t]]
    requires IsListed(s, n, id)
    ensures id in s'.names || UnnamedSomewhere(s', id)
  {
    assert Answered(s, n, id);
    if id in s.names {
      NameStaysRecorded(c, s, s', t, mv, n, id);
    } else {
      hide NameInv, TokenInv, Unnamed, Clears;
      var u :| u in s.threads && Unnamed(s.threads[u].pc).Some? && Unnamed(s.threads[u].pc).value.id == id;
      assert u != t ==> u in s'.threads && s'.threads[u] == s.threads[u];
    }
  }

  lemma OwesOnTaking(c: Config, s: State, s': State, t: nat, mv: Move, n: Name, id: Id)
    requires TakesOn(c, s, s', t, mv) && s.threads[t].todo == [] && OwesRelease(s, s.threads[t], n, id)
    requires id in s'.names && s'.names[id] == n
    ensures OwesRelease(s', s'.threads[t], n, id)
  {
    hide Unnamed, Clears;
    assert TombDue(s.threads[t].pc) == Some(id);
    assert TombChores(id)[0] in TombChores(id);
  }

  lemma OwesOnDoing(c: Config, s: State, s': State, t: nat, mv: Move, n: Name, id: Id)
    requires DoesFirst(c, s, s', t, mv) && OwesRelease(s, s.threads[t], n, id)
    requires id in s.names ==> id in s'.names && s'.names[id] == s.names[id]
    requires IsListed(s', n, id) && (c.policy.Allow? ==> s.flight == map[])
    ensures OwesRelease(s', s'.threads[t], n, id)
  {
    var todo, todo' := s.threads[t].todo, s'.threads[t].todo;
    assert todo == [todo[0]] + todo[1..];
    var front := Expanded(s.names, todo[0]);
    assert forall ch :: ch in todo[1..] ==> ch in todo';
    assert forall ch :: ch in front ==> ch in todo';
    if ReleaseName(n, id) in todo {
      assert todo[0] != ReleaseName(n, id);
    } else if todo[0] == LookUpName(id) {
      assert front[0] == ReleaseName(n, id);
    }
    hide IsListed;
  }

  /** Thread t goes on owing the release, unless it has just done it. */
  lemma OwesOn(c: Config, s: State, s': State, t: nat, mv: Move, n: Name, id: Id)
    requires NameInv(c, s) && TokenInv(s) && OweOk(c, s, s', t, mv)
    requires IsListed(s, n, id) && IsListed(s', n, id) && OwesRelease(s, s.threads[t], n, id)
    ensures OwesRelease(s', s'.threads[t], n, id)
  {
    hide TokenInv, ListedInv, NamesInv, OrderInv, IsListed, TakesOn, DoesFirst;
    if id in s.names {
      NameStaysRecorded(c, s, s', t, mv, n, id);
    }
    if s.threads[t].todo == [] {
      OwesOnTaking(c, s, s', t, mv, n, id);
    } else {
      OwesOnDoing(c, s, s', t, mv, n, id);
    }
  }

  lemma ReleaseStaysDue(c: Config, s: State, s': State, t: nat, mv: Move, n: Name, id: Id)
    requires NameInv(c, s) && TokenInv(s) && OweOk(c, s, s', t, mv) && s'.threads == s.threads[t := s'.threads[t]]
    requires IsListed(s, n, id) && IsListed(s', n, id) && ReleaseDue(s, n, id)
    ensures ReleaseDue(s', n, id)
  {
    var u :| u in s.threads && OwesRelease(s, s.threads[u], n, id);
    assert u in s'.threads;
    if u == t {
      OwesOn(c, s, s', t, mv, n, id);
    } else {
      assert s'.threads[u] == s.threads[u];
      if id in s.names {
        NameStaysRecorded(c, s, s', t, mv, n, id);
      }
      hide NameInv, TokenInv, OweOk, IsListed;
    }
    assert OwesRelease(s', s'.threads[u], n, id);
  }

  lemma MovedFrom(c: Config, s: State, s': State, t: nat, mv: Move, id: Id)
    requires KeysInv(s) && MoveOk(c, s, s', t, mv) && Past(s, id) && s'.where[id] != s.where[id]
    ensures mv == Shift(id, s'.where[id]) && Follows(s.where[id].role, s'.where[id].role)
  {
    hide Activates, RetryOf;
  }

  lemma RemovedIsAnswered(s': State, t: nat, n: Name, id: Id)
    requires TokenInv(s') && id in s'.where && s'.where[id].role.Removed? && s'.where[id].job.name == n && NamesInv(s')
    requires id in s'.names || UnnamedSomewhere(s', id)
    requires t in s'.threads && TombDue(s'.threads[t].pc) == Some(id)
    ensures ReleaseDue(s', n, id)
  {
    hide TokenInv, Unnamed;
    if UnnamedSomewhere(s', id) {
      var u :| u in s'.threads && Unnamed(s'.threads[u].pc).Some? && Unnamed(s'.threads[u].pc).value.id == id;
      HandNamed(s', u, Unnamed(s'.threads[u].pc).value);
    }
    assert OwesRelease(s', s'.threads[t], n, id);
  }

  /** The step that ends a job takes on its clean-up, and the one that removes it goes on to its tombstone. */
  lemma EndClears(c: Config, s: State, s': State, t: nat, mv: Move)
    requires EndOk(c, s, s', t, mv) && OweOk(c, s, s', t, mv) && mv.Shift? && Past(s, mv.id)
    ensures Ends(mv.to.role) ==> t in s'.threads && Clears(s'.threads[t].todo, mv.to.job)
    ensures mv.to.role.Removed? ==> t in s'.threads && TombDue(s'.threads[t].pc) == Some(mv.id)
  {
    hide Clears, Unnamed, TombDue;
  }

  lemma EndIsAnswered(c: Config, s: State, s': State, t: nat, mv: Move, n: Name, id: Id)
    requires KeysInv(s) && TokenInv(s') && MoveOk(c, s, s', t, mv) && EndOk(c, s, s', t, mv) && OweOk(c, s, s', t, mv)
    requires Past(s, id) && Live(s.where[id].role) && id in s'.where && !Live(s'.where[id].role)
    requires s'.where[id].job.name == n && NamesInv(s') && (id in s'.names || UnnamedSomewhere(s', id))
    ensures s'.where[id].role.Lost? || ReleaseDue(s', n, id)
  {
    hide TokenInv, NamesInv, KeysInv, MoveOk, EndOk, OweOk, Clears, UnnamedSomewhere, TombDue;
    RecordedIds(s', id);
    MovedFrom(c, s, s', t, mv, id);
    EndClears(c, s, s', t, mv);
    if s'.where[id].role.Removed? {
      RemovedIsAnswered(s', t, n, id);
    } else if Ends(s'.where[id].role) {
      ClearsRelease(s'.threads[t].todo, mv.to.job);
      assert OwesRelease(s', s'.threads[t], n, id);
    }
  }

  lemma ClearsRelease(todo: seq<Chore>, j: Job)
    requires Clears(todo, j)
    ensures ReleaseName(j.name, j.id) in todo
  {
    assert Release(j)[0] in Release(j);
  }

  lemma ListedKept(c: Config, s: State, s': State, t: nat, d: Delta)
    requires NameInv(c, s) && KeysInv(s) && TokenInv(s) && TokenInv(s') && NamesInv(s')
    requires MoveOk(c, s, s', t, d.mv) && EndOk(c, s, s', t, d.mv) && FlightOk(c, s, s', t, d)
    requires OweOk(c, s, s', t, d.mv) && s'.threads == s.threads[t := s'.threads[t]]
    ensures ListedInv(s')
  {
    forall n, id | IsListed(s', n, id) ensures Answered(s', n, id) {
      ListedBefore(c, s, s', t, d, n, id);
      if IsListed(s, n, id) {
        OldAnswered(c, s, s', t, d.mv, n, id);
      } else {
        NewAnswered(c, s, s', t, d, n, id);
      }
      hide NameInv, KeysInv, TokenInv, NamesInv, MoveOk, EndOk, FlightOk, OweOk, IsListed, Answered;
    }
  }

  lemma NewAnswered(c: Config, s: State, s': State, t: nat, d: Delta, n: Name, id: Id)
    requires TokenInv(s') && MoveOk(c, s, s', t, d.mv) && OweOk(c, s, s', t, d.mv) && Admits(d.mv, n, id)
    ensures Answered(s', n, id)
  {
    RecordedIds(s', id);
    hide TokenInv, Activates, RetryOf, Unnamed, Clears;
    assert Unnamed(s'.threads[t].pc) == Some(d.mv.to.job);
  }

  lemma OldAnswered(c: Config, s: State, s': State, t: nat, mv: Move, n: Name, id: Id)
    requires NameInv(c, s) && KeysInv(s) && TokenInv(s) && TokenInv(s') && NamesInv(s')
    requires MoveOk(c, s, s', t, mv) && EndOk(c, s, s', t, mv)
    requires OweOk(c, s, s', t, mv) && s'.threads == s.threads[t := s'.threads[t]]
    requires IsListed(s, n, id) && IsListed(s', n, id)
    ensures Answered(s', n, id)
  {
    assert Answered(s, n, id);
    PastStays(c, s, s', t, mv, id);
    NamedOrUnnamed(c, s, s', t, mv, n, id);
    hide NameInv, TokenInv, NamesInv, IsListed, OweOk, ReleaseDue, UnnamedSomewhere, EndOk;
    if ReleaseDue(s, n, id) {
      ReleaseStaysDue(c, s, s', t, mv, n, id);
    } else if Live(s.where[id].role) && !Live(s'.where[id].role) {
      EndIsAnswered(c, s, s', t, mv, n, id);
    } else if s'.where[id] != s.where[id] {
      MovedFrom(c, s, s', t, mv, id);
    }
    hide KeysInv, MoveOk;
  }

  lemma AllowListsNothing(c: Config, s: State, s': State, t: nat, d: Delta)
    requires (c.policy.Allow? ==> s.flight == map[]) && FlightOk(c, s, s', t, d)
    ensures c.policy.Allow? ==> s'.flight == map[]
  {
    hide PendingOf;
  }

  lemma NameInvKept(c: Config, s: State, s': State, t: nat, d: Delta)
    requires NameInv(c, s) && KeysInv(s) && TokenInv(s) && TokenInv(s')
    requires MoveOk(c, s, s', t, d.mv) && EndOk(c, s, s', t, d.mv) && FlightOk(c, s, s', t, d)
    requires OweOk(c, s, s', t, d.mv) && s'.threads == s.threads[t := s'.threads[t]]
    ensures NameInv(c, s')
  {
    hide KeysInv, TokenInv, MoveOk, EndOk, OweOk, FlightOk, ListedInv, OrderInv, NameOk, Past;
    ChoreNamesKept(c, s, s', t, d.mv);
    RecordedNamesKept(c, s, s', t, d.mv);
    OrderKept(c, s, s', t, d);
    ListedKept(c, s, s', t, d);
    AllowListsNothing(c, s, s', t, d);
  }

  lemma NameInvTick(c: Config, s: State, time: int)
    requires NameInv(c, s)
    ensures NameInv(c, s.(now := time))
  {
    var s' := s.(now := time);
    forall n, id | IsListed(s', n, id) ensures Answered(s', n, id) {
      assert IsListed(s, n, id) && Answered(s, n, id);
      assert UnnamedSomewhere(s', id) == UnnamedSomewhere(s, id);
      if ReleaseDue(s, n, id) {
        var t :| t in s.threads && OwesRelease(s, s.threads[t], n, id);
        assert OwesRelease(s', s'.threads[t], n, id);
      }
    }
    forall t, ch | t in s'.threads && ch in s'.threads[t].todo ensures NameOk(s', ch) {
      assert ch in s.threads[t].todo && NameOk(s, ch);
    }
    forall t, i | t in s'.threads && 0 <= i < |s'.threads[t].todo| ensures ForgetOk(s', s'.threads[t].todo, i) {
      assert ForgetOk(s, s.threads[t].todo, i);
      assert forall n, id :: IsListed(s', n, id) == IsListed(s, n, id);
    }
  }
}

/** A crash at any moment of any run, followed by Restore into a fresh dispatcher. */
module CrashRecovery {
  import opened Jobs
  import opened StatusTables
  import opened ReadyQueues
  import opened Machine
  import opened MachineInvariants
  import opened MachineTheorems
  import opened MachineLimits
  import opened MachineRemains
  import opened MachineLeftovers
  import D = Dispatchers

  /** List returns the records of the store. */
  ghost predicate Lists(jobs: seq<Job>, store: map<Id, Job>) {
    forall id :: id in store ==> store[id] in jobs
  }

  /** Restore sorts the records by their handler and their time, and drops only those without a handler. */
  lemma {:induction false} ServedAre(jobs: seq<Job>, handlers: set<Name>, j: Job)
    ensures j in D.Served(jobs, handlers) <==> j in jobs && j.name in handlers
  {
    if jobs != [] {
      ServedAre(jobs[..|jobs| - 1], handlers, j);
      assert jobs == jobs[..|jobs| - 1] + [jobs[|jobs| - 1]];
    }
  }

  lemma {:induction false} SplitByTime(jobs: seq<Job>, now: int, j: Job)
    ensures j in D.Later(jobs, now) <==> j in jobs && j.runAt > now
    ensures j in D.Due(jobs, now) <==> j in jobs && j.runAt <= now
    ensures multiset(jobs) == multiset(D.Later(jobs, now)) + multiset(D.Due(jobs, now))
  {
    if jobs != [] {
      var front, last := jobs[..|jobs| - 1], jobs[|jobs| - 1];
      SplitByTime(front, now, j);
      D.LastOf(jobs);
      assert j in jobs <==> j in front || j == last by {
        assert jobs == front + [last];
      }
      var later, due := D.Later(front, now), D.Due(front, now);
      assert D.Later(jobs, now) == later + if last.runAt > now then [last] else [];
      assert D.Due(jobs, now) == due + if last.runAt > now then [] else [last];
      OneSide(later, due, last, last.runAt > now);
      hide D.Later, D.Due;
    }
  }

  lemma OneSide(later: seq<Job>, due: seq<Job>, last: Job, side: bool)
    ensures multiset(later + if side then [last] else []) + multiset(due + if side then [] else [last]) ==
            multiset(later) + multiset(due) + multiset{last}
  {
    assert later + [] == later && due + [] == due;
  }

  lemma HandlerKnown(c: Config, run: seq<State>, i: nat, id: Id)
    requires IsRun(c, run) && i < |run| && id in run[i].where && id in run[i].submitted
    ensures run[i].submitted[id].name in c.handlers
  {
    Always(c, run, i);
    AttemptsInOrder(c, run, i, id);
    hide IsRun;
    var s := run[i];
    assert StoryOk(c, id, s.submitted[id], s.where[id], s.seen[id]);
  }

  /** A first attempt that was outstanding at the crash is among the records, with a registered handler. */
  lemma OutstandingListed(c: Config, run: seq<State>, i: nat, jobs: seq<Job>, id: Id)
    requires IsRun(c, run) && i < |run| && c.hasStore && Lists(jobs, run[i].store)
    requires Outstanding(run[i], id) && run[i].where[id].job.attempt == 0
    ensures id in run[i].submitted && run[i].submitted[id] in jobs && run[i].submitted[id].name in c.handlers
  {
    FirstAttemptSafe(c, run, i, id);
    HandlerKnown(c, run, i, id);
  }

  /** Where a restored job is found, with the fields it was submitted with; `gone` is with the workers. */
  ghost predicate Recovered(d: D.Dispatcher, gone: seq<Job>, j: Job, now: int)
    reads d.delayed, d.ready
  {
    if j.runAt > now then j in d.delayed.Contents() else j in gone || j in d.ready.items
  }

  /** Every record with a registered handler is back. */
  ghost predicate AllServedBack(d: D.Dispatcher, gone: seq<Job>, jobs: seq<Job>, handlers: set<Name>, now: int)
    reads d.delayed, d.ready
  {
    forall j :: j in jobs && j.name in handlers ==> Recovered(d, gone, j, now)
  }

  /** The due records with a handler fit into a queue of this size. */
  predicate AllFit(jobs: seq<Job>, handlers: set<Name>, now: int, cap: nat) {
    |D.Due(D.Served(jobs, handlers), now)| <= cap
  }

  /** Restore into a fresh dispatcher, while its workers take up to takes(i) entries before record i: it succeeds when
      the due records with a handler fit into the queue, and only then if no worker takes any; and it succeeds when
      workers always take some. */
  ghost predicate Succeeds(ok: bool, jobs: seq<Job>, handlers: set<Name>, now: int, cap: nat, takes: nat -> nat) {
    && (AllFit(jobs, handlers, now, cap) ==> ok)
    && ((forall i | 0 <= i < |jobs| :: takes(i) == 0) ==> (ok <==> AllFit(jobs, handlers, now, cap)))
    && (cap > 0 && (forall i | 0 <= i < |jobs| :: takes(i) > 0) ==> ok)
  }

  method RestoreAll(c: Config, jobs: seq<Job>, store: map<Id, Job>, cap: nat, now: int, takes: nat -> nat)
    returns (d: D.Dispatcher, restored: nat, ok: bool, ghost gone: seq<Job>)
    requires c.hasStore
    ensures d.Valid() && Succeeds(ok, jobs, c.handlers, now, cap, takes)
    ensures ok ==> restored == |D.Served(jobs, c.handlers)| && AllServedBack(d, gone, jobs, c.handlers, now)
  {
    d := new D.Dispatcher(c.policy, c.drop, c.hasStore, cap, c.handlers, store);
    restored, ok, gone := d.Restore(jobs, now, takes);
    if ok {
      ghost var served := D.Served(jobs, c.handlers);
      NothingBefore(served, now);
      assert d.delayed.Contents() == multiset(D.Later(served, now)) && gone + d.ready.items == D.Due(served, now);
      hide D.Served, D.Later, D.Due;
      forall j | j in jobs && j.name in c.handlers ensures Recovered(d, gone, j, now) {
        BackOnItsSide(jobs, c.handlers, now, gone, d.ready.items, j);
      }
    }
  }

  lemma NothingBefore(served: seq<Job>, now: int)
    ensures multiset{} + multiset(D.Later(served, now)) == multiset(D.Later(served, now))
    ensures [] + D.Due(served, now) == D.Due(served, now)
  {
  }

  lemma BackOnItsSide(jobs: seq<Job>, handlers: set<Name>, now: int, gone: seq<Job>, items: seq<Job>, j: Job)
    requires gone + items == D.Due(D.Served(jobs, handlers), now) && j in jobs && j.name in handlers
    ensures if j.runAt > now then j in multiset(D.Later(D.Served(jobs, handlers), now)) else j in gone || j in items
  {
    ServedAre(jobs, handlers, j);
    SplitByTime(D.Served(jobs, handlers), now, j);
    hide D.Served, D.Later, D.Due;
    assert j.runAt <= now ==> j in gone + items;
  }

  /** Crash after any state of any run, and restore the listed records into a fresh dispatcher with the same
      handlers: when Restore succeeds every outstanding first attempt is back, and without retries every outstanding
      job is. */
  method RestartAfterCrash(c: Config, ghost run: seq<State>, ghost i: nat, jobs: seq<Job>, store: map<Id, Job>,
                           cap: nat, now: int, takes: nat -> nat)
    returns (d: D.Dispatcher, restored: nat, ok: bool, ghost gone: seq<Job>)
    requires IsRun(c, run) && i < |run| && c.hasStore && store == run[i].store && Lists(jobs, store)
    ensures d.Valid() && Succeeds(ok, jobs, c.handlers, now, cap, takes)
    ensures ok ==> restored == |D.Served(jobs, c.handlers)| && AllServedBack(d, gone, jobs, c.handlers, now)
    ensures ok ==> forall id :: Outstanding(run[i], id) && run[i].where[id].job.attempt == 0 ==>
              id in run[i].submitted && Recovered(d, gone, run[i].submitted[id], now)
    ensures ok && !CanRetry(c) ==> forall id :: Outstanding(run[i], id) ==>
              id in run[i].submitted && Recovered(d, gone, run[i].submitted[id], now)
  {
    d, restored, ok, gone := RestoreAll(c, jobs, store, cap, now, takes);
    hide IsRun;
    forall id | ok && Outstanding(run[i], id) && run[i].where[id].job.attempt == 0
      ensures id in run[i].submitted && Recovered(d, gone, run[i].submitted[id], now)
    {
      OutstandingListed(c, run, i, jobs, id);
    }
    if !CanRetry(c) {
      forall id | Outstanding(run[i], id) ensures run[i].where[id].job.attempt == 0 {
        FirstAttemptsOnly(c, run, i, id);
      }
    }
  }

  lemma OneDue(j: Job, handlers: set<Name>, now: int)
    ensures |D.Due(D.Served([j], handlers), now)| <= 1
  {
    assert [j][..0] == [];
    assert D.Served([j], handlers) == if j.name in handlers then [j] else [];
  }

  /** Under Replace a cancelled job can come back: crash where LeavesRecord ends, and restore. */
  method ReplacedComesBack(c: Config, n: Name, cap: nat, now: int, takes: nat -> nat)
    returns (ghost s: State, d: D.Dispatcher, ok: bool, ghost gone: seq<Job>)
    requires c.policy.Replace? && c.hasStore && n in c.handlers && cap > 0
    ensures Reach(c, s) && "a" in s.cancelled && LeftAlone(s, "a") && s.store.Keys == {"a"}
    ensures ok && d.Valid() && Recovered(d, gone, s.store["a"], now)
  {
    var a := Order("a", n, 1, 0);
    s := LeavesRecord(c, n);
    ghost var run :| IsRun(c, run) && run[|run| - 1] == s;
    hide IsRun, LeftAlone, Reach;
    OneDue(a, c.handlers, now);
    var restored;
    d, restored, ok, gone := RestartAfterCrash(c, run, |run| - 1, [a], map["a" := a], cap, now, takes);
    assert a in [a];
  }
}

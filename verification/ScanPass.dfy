/** One pass of the scanner as a function: what a list of subscriptions, the
    answers of the lookups and the outcomes of the calls make of the table, the
    accepted events and the counters. */
module ScanPass {
  import opened Common
  import opened Domain
  import opened SubscriptionTable
  import opened Bags

  /** The outcomes of the three calls of one saga. */
  datatype SagaFaults = SagaFaults(update: Outcome, published: bool, compensate: Outcome)

  /** The latest tag by owner and name, and the outcomes by subscription id: a
      pass makes one lookup per repository and at most one saga per id. */
  type Answers = (string, string) -> Result<string, AppError>
  type Faults = int -> SagaFaults

  // ----- one subscription -----

  predicate Due(sub: Subscription, ans: Result<string, AppError>) {
    ans.Ok? && ans.value != "" && sub.lastSeenTag != ans.value
  }

  predicate Sent(f: SagaFaults) { f.update.Done? && f.published }

  /** The saga left the table and the event stream as they were before it. */
  predicate FailedCleanly(f: SagaFaults) {
    f.update.Refused? || (f.update.Done? && !f.published && f.compensate.Applied())
  }

  /** The saga on a table: update, publish, revert if the publish failed. */
  function SagaTable(t: Table, sub: Subscription, tag: string, f: SagaFaults): Table {
    if f.update.Refused? then t
    else
      var updated := SetTag(t, sub.id, tag);
      if f.update.Done? && !f.published && f.compensate.Applied()
      then SetTag(updated, sub.id, sub.lastSeenTag) else updated
  }

  function Process(t: Table, sub: Subscription, ans: Result<string, AppError>, f: SagaFaults): Table {
    if Due(sub, ans) then SagaTable(t, sub, ans.value, f) else t
  }

  function Out(sub: Subscription, ans: Result<string, AppError>, f: SagaFaults): seq<Entry> {
    if Due(sub, ans) && Sent(f) then [Entry(sub.id, EventFor(sub, ans.value))] else []
  }

  /** Both or neither: a saga on a fresh row writes the tag and announces it
      together exactly when it is sent or fails cleanly. */
  lemma BothOrNeither(t: Table, sub: Subscription, ans: Result<string, AppError>, f: SagaFaults)
    requires Due(sub, ans) && sub.id in t.rows && t.rows[sub.id] == sub
    ensures (Process(t, sub, ans, f).rows[sub.id].lastSeenTag == ans.value <==> Out(sub, ans, f) != [])
      <==> Sent(f) || FailedCleanly(f)
    ensures FailedCleanly(f) ==> Process(t, sub, ans, f) == t
  {
    var updated := SetTag(t, sub.id, ans.value);
    assert SetTag(updated, sub.id, sub.lastSeenTag).rows == t.rows;
  }

  // ----- a list of subscriptions, each looked up by itself -----

  function AnswerFor(sub: Subscription, ans: Answers): Result<string, AppError> { ans(sub.repoOwner, sub.repoName) }

  function RunTable(t: Table, subs: seq<Subscription>, ans: Answers, fs: Faults): Table {
    if subs == [] then t
    else
      var n := |subs| - 1;
      Process(RunTable(t, subs[..n], ans, fs), subs[n], AnswerFor(subs[n], ans), fs(subs[n].id))
  }

  function RunLog(subs: seq<Subscription>, ans: Answers, fs: Faults): seq<Entry> {
    if subs == [] then []
    else
      var n := |subs| - 1;
      RunLog(subs[..n], ans, fs) + Out(subs[n], AnswerFor(subs[n], ans), fs(subs[n].id))
  }

  function DueCount(subs: seq<Subscription>, ans: Answers): nat {
    if subs == [] then 0
    else
      var n := |subs| - 1;
      DueCount(subs[..n], ans) + if Due(subs[n], AnswerFor(subs[n], ans)) then 1 else 0
  }

  lemma TableSnoc(t: Table, subs: seq<Subscription>, sub: Subscription, ans: Answers, fs: Faults)
    ensures RunTable(t, subs + [sub], ans, fs)
      == Process(RunTable(t, subs, ans, fs), sub, AnswerFor(sub, ans), fs(sub.id))
  {
    assert (subs + [sub])[..|subs|] == subs;
  }

  lemma LogSnoc(subs: seq<Subscription>, sub: Subscription, ans: Answers, fs: Faults)
    ensures RunLog(subs + [sub], ans, fs) == RunLog(subs, ans, fs) + Out(sub, AnswerFor(sub, ans), fs(sub.id))
    ensures DueCount(subs + [sub], ans) == DueCount(subs, ans) + if Due(sub, AnswerFor(sub, ans)) then 1 else 0
  {
    assert (subs + [sub])[..|subs|] == subs;
  }

  lemma {:induction false} RunConcat(t: Table, a: seq<Subscription>, b: seq<Subscription>, ans: Answers, fs: Faults)
    ensures RunTable(t, a + b, ans, fs) == RunTable(RunTable(t, a, ans, fs), b, ans, fs)
    decreases |b|
  {
    if b == [] {
      assert a + b == a;
    } else {
      var n := |b| - 1;
      RunConcat(t, a, b[..n], ans, fs);
      assert a + b == (a + b[..n]) + [b[n]];
      TableSnoc(t, a + b[..n], b[n], ans, fs);
    }
  }

  lemma {:induction false} LogConcat(a: seq<Subscription>, b: seq<Subscription>, ans: Answers, fs: Faults)
    ensures RunLog(a + b, ans, fs) == RunLog(a, ans, fs) + RunLog(b, ans, fs)
    decreases |b|
  {
    if b == [] {
      assert a + b == a;
    } else {
      var n := |b| - 1;
      LogConcat(a, b[..n], ans, fs);
      Regroup(a, b[..n], [b[n]]);
      assert b == b[..n] + [b[n]];
      LogSnoc(a + b[..n], b[n], ans, fs);
      Regroup(RunLog(a, ans, fs), RunLog(b[..n], ans, fs), Out(b[n], AnswerFor(b[n], ans), fs(b[n].id)));
    }
  }

  lemma {:induction false} DueConcat(a: seq<Subscription>, b: seq<Subscription>, ans: Answers)
    ensures DueCount(a + b, ans) == DueCount(a, ans) + DueCount(b, ans)
    decreases |b|
  {
    if b == [] {
      assert a + b == a;
    } else {
      var n := |b| - 1;
      assert (a + b)[..|a + b| - 1] == a + b[..n];
      DueConcat(a, b[..n], ans);
    }
  }

  /** A group whose lookup gave no tag is left alone. */
  lemma {:induction false} NothingDue(t: Table, subs: seq<Subscription>, ans: Answers, fs: Faults)
    requires forall x | x in subs :: !Due(x, AnswerFor(x, ans))
    ensures RunTable(t, subs, ans, fs) == t && RunLog(subs, ans, fs) == [] && DueCount(subs, ans) == 0
  {
    if subs != [] {
      var n := |subs| - 1;
      assert subs[n] in subs;
      NothingDue(t, subs[..n], ans, fs);
    }
  }

  // ----- the pass row by row -----

  /** The tag one saga leaves in its row. */
  function FinalTag(cur: string, sub: Subscription, ans: Result<string, AppError>, f: SagaFaults): string {
    if !Due(sub, ans) || f.update.Refused? then cur
    else if f.update.Done? && !f.published && f.compensate.Applied() then sub.lastSeenTag
    else ans.value
  }

  /** The accepted events of one row. */
  function EventsOf(log: seq<Entry>, id: int): seq<Entry> {
    if log == [] then []
    else EventsOf(log[..|log| - 1], id) + if log[|log| - 1].id == id then [log[|log| - 1]] else []
  }

  lemma {:induction false} EventsOfConcat(a: seq<Entry>, b: seq<Entry>, id: int)
    ensures EventsOf(a + b, id) == EventsOf(a, id) + EventsOf(b, id)
    decreases |b|
  {
    if b == [] {
      assert a + b == a;
    } else {
      var n := |b| - 1;
      assert (a + b)[..|a + b| - 1] == a + b[..n];
      EventsOfConcat(a, b[..n], id);
    }
  }

  lemma EventsOfOut(sub: Subscription, ans: Result<string, AppError>, f: SagaFaults, id: int)
    ensures EventsOf(Out(sub, ans, f), id) == if sub.id == id then Out(sub, ans, f) else []
  {
    if Out(sub, ans, f) != [] { assert Out(sub, ans, f)[..0] == []; }
  }

  /** The events of an id are its own saga's and those of the others none. */
  lemma EventsOfSnoc(subs: seq<Subscription>, ans: Answers, fs: Faults, id: int)
    requires subs != []
    ensures var n := |subs| - 1;
      EventsOf(RunLog(subs, ans, fs), id) == EventsOf(RunLog(subs[..n], ans, fs), id)
        + if subs[n].id == id then Out(subs[n], AnswerFor(subs[n], ans), fs(id)) else []
  {
    var n := |subs| - 1;
    EventsOfConcat(RunLog(subs[..n], ans, fs), Out(subs[n], AnswerFor(subs[n], ans), fs(subs[n].id)), id);
    EventsOfOut(subs[n], AnswerFor(subs[n], ans), fs(subs[n].id), id);
  }

  lemma {:induction false} NoEventsFor(subs: seq<Subscription>, ans: Answers, fs: Faults, id: int)
    requires forall x | x in subs :: x.id != id
    ensures EventsOf(RunLog(subs, ans, fs), id) == []
  {
    if subs != [] {
      assert subs[|subs| - 1] in subs;
      NoEventsFor(subs[..|subs| - 1], ans, fs, id);
      EventsOfSnoc(subs, ans, fs, id);
    }
  }

  lemma {:induction false} RowUntouched(t: Table, subs: seq<Subscription>, ans: Answers, fs: Faults, id: int)
    requires id in t.rows && forall x | x in subs :: x.id != id
    ensures id in RunTable(t, subs, ans, fs).rows && RunTable(t, subs, ans, fs).rows[id] == t.rows[id]
  {
    if subs != [] {
      assert subs[|subs| - 1] in subs;
      RowUntouched(t, subs[..|subs| - 1], ans, fs, id);
    }
  }

  lemma OthersDiffer(subs: seq<Subscription>)
    requires DistinctIds(subs) && subs != []
    ensures DistinctIds(subs[..|subs| - 1]) && forall x | x in subs[..|subs| - 1] :: x.id != subs[|subs| - 1].id
  {
    forall x | x in subs[..|subs| - 1] ensures x.id != subs[|subs| - 1].id {
      var i :| 0 <= i < |subs| - 1 && subs[..|subs| - 1][i] == x;
    }
  }

  /** A pass touches the row of each listed id once, with that subscription's own saga. */
  lemma {:induction false} RowTouchedOnce(t: Table, subs: seq<Subscription>, ans: Answers, fs: Faults, k: nat)
    requires DistinctIds(subs) && k < |subs| && subs[k].id in t.rows
    ensures var t' := RunTable(t, subs, ans, fs);
      var id := subs[k].id;
      && id in t'.rows
      && t'.rows[id] == t.rows[id].(lastSeenTag :=
           FinalTag(t.rows[id].lastSeenTag, subs[k], AnswerFor(subs[k], ans), fs(id)))
  {
    var n := |subs| - 1;
    OthersDiffer(subs);
    if k == n {
      RowUntouched(t, subs[..n], ans, fs, subs[n].id);
    } else {
      assert subs[..n][k] == subs[k];
      RowTouchedOnce(t, subs[..n], ans, fs, k);
    }
  }

  /** The events of a listed id are those of its one saga. */
  lemma {:induction false} EventsOfOneSaga(subs: seq<Subscription>, ans: Answers, fs: Faults, k: nat)
    requires DistinctIds(subs) && k < |subs|
    ensures EventsOf(RunLog(subs, ans, fs), subs[k].id) == Out(subs[k], AnswerFor(subs[k], ans), fs(subs[k].id))
  {
    var n := |subs| - 1;
    OthersDiffer(subs);
    EventsOfSnoc(subs, ans, fs, subs[k].id);
    if k == n {
      NoEventsFor(subs[..n], ans, fs, subs[n].id);
    } else {
      assert subs[..n][k] == subs[k];
      EventsOfOneSaga(subs[..n], ans, fs, k);
    }
  }

  lemma {:induction false} RunKeepsKeys(t: Table, subs: seq<Subscription>, ans: Answers, fs: Faults)
    ensures var t' := RunTable(t, subs, ans, fs); t'.nextId == t.nextId && t'.rows.Keys == t.rows.Keys
  {
    if subs != [] {
      RunKeepsKeys(t, subs[..|subs| - 1], ans, fs);
    }
  }

  /** A pass keeps the constraints of the table. */
  lemma {:induction false} PassKeeps(t: Table, subs: seq<Subscription>, ans: Answers, fs: Faults)
    requires Valid(t) && AllWellFormed(t)
    ensures Valid(RunTable(t, subs, ans, fs)) && AllWellFormed(RunTable(t, subs, ans, fs))
  {
    if subs != [] {
      var n := |subs| - 1;
      PassKeeps(t, subs[..n], ans, fs);
      SagaKeeps(RunTable(t, subs[..n], ans, fs), subs[n], AnswerFor(subs[n], ans), fs(subs[n].id));
    }
  }

  lemma SagaKeeps(t: Table, sub: Subscription, ans: Result<string, AppError>, f: SagaFaults)
    requires Valid(t) && AllWellFormed(t)
    ensures Valid(Process(t, sub, ans, f)) && AllWellFormed(Process(t, sub, ans, f))
  {
    SagaChangesTagsOnly(t, sub, ans, f);
    SameIdentityKeeps(t, Process(t, sub, ans, f));
  }

  lemma SagaChangesTagsOnly(t: Table, sub: Subscription, ans: Result<string, AppError>, f: SagaFaults)
    ensures var t' := Process(t, sub, ans, f);
      && t'.nextId == t.nextId && t'.rows.Keys == t.rows.Keys
      && forall k | k in t'.rows :: t'.rows[k] == t.rows[k].(lastSeenTag := t'.rows[k].lastSeenTag)
  {
  }

  /** Every due subscription counts once: as sent with its one event, or as failed. */
  lemma {:induction false} EventsAreSent(subs: seq<Subscription>, ans: Answers, fs: Faults)
    ensures |RunLog(subs, ans, fs)| <= DueCount(subs, ans)
    ensures |RunLog(subs, ans, fs)| == DueCount(subs, ans) <==>
      forall s | s in subs && Due(s, AnswerFor(s, ans)) :: Sent(fs(s.id))
  {
    if subs != [] {
      var n := |subs| - 1;
      EventsAreSent(subs[..n], ans, fs);
      assert subs == subs[..n] + [subs[n]];
    }
  }

  // ----- order independence -----

  lemma PermutedDistinct(a: seq<Subscription>, b: seq<Subscription>)
    requires DistinctIds(a) && multiset(a) == multiset(b)
    ensures DistinctIds(b)
  {
    assert Distinct(a);
    DistinctPermutes(a, b);
    SameMembers(a, b);
    forall i, j | 0 <= i < j < |b| ensures b[i].id != b[j].id {
      assert b[i] in a && b[j] in a;
      DistinctMembers(a, b[i], b[j]);
    }
  }

  lemma {:induction false} LogIsSum(subs: seq<Subscription>, ans: Answers, fs: Faults)
    ensures multiset(RunLog(subs, ans, fs))
      == Sum(subs, (x: Subscription) => multiset(Out(x, AnswerFor(x, ans), fs(x.id))))
  {
    if subs != [] { LogIsSum(subs[..|subs| - 1], ans, fs); }
  }

  lemma {:induction false} DueIsSum(subs: seq<Subscription>, ans: Answers)
    ensures DueCount(subs, ans) ==
      |Sum(subs, (x: Subscription) => if Due(x, AnswerFor(x, ans)) then multiset{x} else multiset{})|
  {
    if subs != [] { DueIsSum(subs[..|subs| - 1], ans); }
  }

  lemma RowOrderIndependent(t: Table, a: seq<Subscription>, b: seq<Subscription>, ans: Answers, fs: Faults, id: int)
    requires DistinctIds(a) && DistinctIds(b) && (forall x :: x in a <==> x in b)
    requires id in t.rows
    ensures id in RunTable(t, a, ans, fs).rows && id in RunTable(t, b, ans, fs).rows
    ensures RunTable(t, a, ans, fs).rows[id] == RunTable(t, b, ans, fs).rows[id]
  {
    if k :| 0 <= k < |a| && a[k].id == id {
      assert a[k] in b;
      var j :| 0 <= j < |b| && b[j] == a[k];
      RowTouchedOnce(t, a, ans, fs, k);
      RowTouchedOnce(t, b, ans, fs, j);
    } else {
      RowUntouched(t, a, ans, fs, id);
      RowUntouched(t, b, ans, fs, id);
    }
  }

  lemma TableOrderIndependent(t: Table, a: seq<Subscription>, b: seq<Subscription>, ans: Answers, fs: Faults)
    requires DistinctIds(a) && DistinctIds(b) && (forall x :: x in a <==> x in b)
    ensures RunTable(t, a, ans, fs) == RunTable(t, b, ans, fs)
  {
    RunKeepsKeys(t, a, ans, fs);
    RunKeepsKeys(t, b, ans, fs);
    forall id | id in t.rows ensures RunTable(t, a, ans, fs).rows[id] == RunTable(t, b, ans, fs).rows[id] {
      RowOrderIndependent(t, a, b, ans, fs, id);
    }
  }

  lemma LogOrderIndependent(a: seq<Subscription>, b: seq<Subscription>, ans: Answers, fs: Faults)
    requires multiset(a) == multiset(b)
    ensures multiset(RunLog(a, ans, fs)) == multiset(RunLog(b, ans, fs))
    ensures |RunLog(a, ans, fs)| == |RunLog(b, ans, fs)|
  {
    LogIsSum(a, ans, fs);
    LogIsSum(b, ans, fs);
    SumPermutes(a, b, (x: Subscription) => multiset(Out(x, AnswerFor(x, ans), fs(x.id))));
    SameMembers(RunLog(a, ans, fs), RunLog(b, ans, fs));
  }

  lemma DueOrderIndependent(a: seq<Subscription>, b: seq<Subscription>, ans: Answers)
    requires multiset(a) == multiset(b)
    ensures DueCount(a, ans) == DueCount(b, ans)
  {
    DueIsSum(a, ans);
    DueIsSum(b, ans);
    SumPermutes(a, b, (x: Subscription) => if Due(x, AnswerFor(x, ans)) then multiset{x} else multiset{});
  }

  /** Any two orders of the same subscriptions end in the same table, the same
      events and the same counters. */
  lemma OrderIndependent(t: Table, a: seq<Subscription>, b: seq<Subscription>, ans: Answers, fs: Faults)
    requires DistinctIds(a) && multiset(a) == multiset(b)
    ensures RunTable(t, a, ans, fs) == RunTable(t, b, ans, fs)
    ensures multiset(RunLog(a, ans, fs)) == multiset(RunLog(b, ans, fs))
    ensures |RunLog(a, ans, fs)| == |RunLog(b, ans, fs)| && DueCount(a, ans) == DueCount(b, ans)
  {
    PermutedDistinct(a, b);
    SameMembers(a, b);
    TableOrderIndependent(t, a, b, ans, fs);
    LogOrderIndependent(a, b, ans, fs);
    DueOrderIndependent(a, b, ans);
  }

  // ----- grouping -----

  /** The subscriptions of some repositories, in their original order. */
  function Keep(subs: seq<Subscription>, repos: set<string>): seq<Subscription> {
    if subs == [] then []
    else
      var n := |subs| - 1;
      Keep(subs[..n], repos) + if subs[n].Repo() in repos then [subs[n]] else []
  }

  function Repos(subs: seq<Subscription>): set<string> { set s | s in subs :: s.Repo() }

  /** The groups one after the other in the given order. */
  function Grouped(order: seq<string>, subs: seq<Subscription>): seq<Subscription> {
    if order == [] then []
    else
      var n := |order| - 1;
      Grouped(order[..n], subs) + Keep(subs, {order[n]})
  }

  /** The first member of each group, in the order of the groups: the one asked about. */
  function Heads(order: seq<string>, subs: seq<Subscription>): seq<Subscription> {
    if order == [] then []
    else
      var n := |order| - 1;
      var group := Keep(subs, {order[n]});
      Heads(order[..n], subs) + if group == [] then [] else [group[0]]
  }

  /** Every repository of the snapshot once. */
  ghost predicate IsOrder(order: seq<string>, subs: seq<Subscription>) {
    Distinct(order) && (forall k :: k in order <==> k in Repos(subs))
  }

  lemma {:induction false} KeepMembers(subs: seq<Subscription>, repos: set<string>)
    ensures forall x :: x in Keep(subs, repos) <==> x in subs && x.Repo() in repos
  {
    if subs != [] {
      var n := |subs| - 1;
      KeepMembers(subs[..n], repos);
      assert subs == subs[..n] + [subs[n]];
    }
  }

  lemma KeepSome(subs: seq<Subscription>, repo: string)
    requires repo in Repos(subs)
    ensures Keep(subs, {repo}) != []
  {
    KeepMembers(subs, {repo});
    var x :| x in subs && x.Repo() == repo;
    assert x in Keep(subs, {repo});
  }

  lemma {:induction false} HeadsAreMembers(order: seq<string>, subs: seq<Subscription>)
    ensures forall x | x in Heads(order, subs) :: x in subs && x.Repo() in order
  {
    if order != [] {
      var n := |order| - 1;
      HeadsAreMembers(order[..n], subs);
      KeepMembers(subs, {order[n]});
    }
  }

  lemma {:induction false} KeepDistinct(subs: seq<Subscription>, repos: set<string>)
    requires DistinctIds(subs)
    ensures DistinctIds(Keep(subs, repos))
  {
    if subs != [] {
      var n := |subs| - 1;
      KeepDistinct(subs[..n], repos);
      KeepMembers(subs[..n], repos);
      forall x | x in Keep(subs[..n], repos) ensures x.id != subs[n].id {
        var i :| 0 <= i < n && subs[..n][i] == x;
        assert subs[i].id != subs[n].id;
      }
    }
  }

  lemma {:induction false} KeepNone(subs: seq<Subscription>, repos: set<string>)
    requires forall x | x in subs :: x.Repo() !in repos
    ensures Keep(subs, repos) == []
  {
    if subs != [] {
      assert subs[|subs| - 1] in subs;
      KeepNone(subs[..|subs| - 1], repos);
    }
  }

  lemma {:induction false} KeepSplits(subs: seq<Subscription>, repos: set<string>, repo: string)
    requires repo !in repos
    ensures multiset(Keep(subs, repos + {repo})) == multiset(Keep(subs, repos)) + multiset(Keep(subs, {repo}))
  {
    if subs != [] {
      KeepSplits(subs[..|subs| - 1], repos, repo);
    }
  }

  lemma {:induction false} KeepAll(subs: seq<Subscription>, repos: set<string>)
    requires Repos(subs) <= repos
    ensures Keep(subs, repos) == subs
  {
    if subs != [] {
      var n := |subs| - 1;
      assert subs == subs[..n] + [subs[n]];
      assert subs[n].Repo() in Repos(subs);
      assert forall s | s in subs[..n] :: s in subs;
      KeepAll(subs[..n], repos);
    }
  }

  lemma {:induction false} GroupedKeeps(order: seq<string>, subs: seq<Subscription>)
    requires Distinct(order)
    ensures multiset(Grouped(order, subs)) == multiset(Keep(subs, set k | k in order))
  {
    if order == [] {
      KeepNone(subs, {});
      assert (set k | k in order) == {};
    } else {
      var n := |order| - 1;
      GroupedKeeps(order[..n], subs);
      assert order == order[..n] + [order[n]];
      var before := set k | k in order[..n];
      assert (set k | k in order) == before + {order[n]};
      assert forall i | 0 <= i < n :: order[..n][i] != order[n];
      KeepSplits(subs, before, order[n]);
    }
  }

  /** Grouping only permutes the snapshot. */
  lemma GroupedPermutes(order: seq<string>, subs: seq<Subscription>)
    requires IsOrder(order, subs)
    ensures multiset(Grouped(order, subs)) == multiset(subs)
  {
    GroupedKeeps(order, subs);
    assert (set k | k in order) == Repos(subs);
    KeepAll(subs, Repos(subs));
  }

  lemma SoleKept(row: Subscription)
    ensures Repos([row]) == {row.Repo()} && Keep([row], {row.Repo()}) == [row]
  {
    assert [row][..0] == [];
    assert row in [row];
  }

  /** A snapshot of one row is one group. */
  lemma SoleGroup(row: Subscription)
    ensures Repos([row]) == {row.Repo()} && Keep([row], {row.Repo()}) == [row]
    ensures IsOrder([row.Repo()], [row]) && Grouped([row.Repo()], [row]) == [row] && Heads([row.Repo()], [row]) == [row]
  {
    var repo := row.Repo();
    SoleKept(row);
    assert IsOrder([repo], [row]) by {
      assert forall k :: k in [repo] <==> k == repo;
    }
    assert [repo][..0] == [];
    assert Grouped([repo], [row]) == Grouped([], [row]) + Keep([row], {repo});
    assert Heads([repo], [row]) == Heads([], [row]) + [row];
  }

  lemma SoleRun(t: Table, row: Subscription, ans: Answers, fs: Faults)
    ensures RunTable(t, [row], ans, fs) == Process(t, row, AnswerFor(row, ans), fs(row.id))
    ensures RunLog([row], ans, fs) == Out(row, AnswerFor(row, ans), fs(row.id))
  {
    assert [] + [row] == [row];
    TableSnoc(t, [], row, ans, fs);
    LogSnoc([], row, ans, fs);
  }

  /** The grouped pass does what the plain loop over the snapshot does, in
      whichever order the groups are taken. */
  lemma GroupingRefinesPlainLoop(t: Table, order: seq<string>, subs: seq<Subscription>, ans: Answers, fs: Faults)
    requires DistinctIds(subs) && IsOrder(order, subs)
    ensures RunTable(t, Grouped(order, subs), ans, fs) == RunTable(t, subs, ans, fs)
    ensures multiset(RunLog(Grouped(order, subs), ans, fs)) == multiset(RunLog(subs, ans, fs))
    ensures |RunLog(Grouped(order, subs), ans, fs)| == |RunLog(subs, ans, fs)|
    ensures DueCount(Grouped(order, subs), ans) == DueCount(subs, ans)
  {
    GroupedPermutes(order, subs);
    OrderIndependent(t, subs, Grouped(order, subs), ans, fs);
  }
}

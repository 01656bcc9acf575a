/** The scanner: publisher, saga orchestrator and pass. */
module Scanner {
  import opened Common
  import opened Bags
  import opened Domain
  import opened SubscriptionTable
  import opened InternalApi
  import opened ScanPass
  import opened PassRefinement
  import GitHub

  const SUBJECT_RELEASE_DETECTED := "releases.detected"

  class Publisher {
    var accepted: seq<(string, ReleaseDetected)>

    constructor ()
      ensures accepted == []
    {
      accepted := [];
    }

    method Publish(subject: string, event: ReleaseDetected, works: bool) returns (r: Result<(), AppError>)
      modifies this
      ensures accepted == if works then old(accepted) + [(subject, event)] else old(accepted)
      ensures r == if works then Ok(()) else Err(Failure)
    {
      if !works { return Err(Failure); }
      accepted := accepted + [(subject, event)];
      r := Ok(());
    }
  }

  class ServiceMetrics {
    var repositories: nat
    var sent: nat
    var failed: nat
    var successRuns: nat
    var errorRuns: nat

    constructor ()
      ensures repositories == 0 && sent == 0 && failed == 0 && successRuns == 0 && errorRuns == 0
    {
      repositories, sent, failed, successRuns, errorRuns := 0, 0, 0, 0, 0;
    }
  }

  function Messages(log: seq<Entry>): seq<(string, ReleaseDetected)> {
    seq(|log|, i requires 0 <= i < |log| => (SUBJECT_RELEASE_DETECTED, log[i].event))
  }

  lemma MessagesConcat(a: seq<Entry>, b: seq<Entry>)
    ensures Messages(a + b) == Messages(a) + Messages(b)
  {
  }

  class ReleaseSagaOrchestrator {
    const store: GRPCStore
    const publisher: Publisher

    constructor (store: GRPCStore, publisher: Publisher)
      ensures this.store == store && this.publisher == publisher
    {
      this.store, this.publisher := store, publisher;
    }

    method ProcessRelease(sub: Subscription, newTag: string, f: SagaFaults) returns (r: Result<(), AppError>)
      requires store.server.store.Valid()
      modifies store.server.store, publisher
      ensures store.server.store.Valid() && (old(store.server.store.Normal()) ==> store.server.store.Normal())
      ensures store.server.store.Tab() == SagaTable(old(store.server.store.Tab()), sub, newTag, f)
      ensures publisher.accepted ==
        old(publisher.accepted) + if Sent(f) then [("releases.detected", EventFor(sub, newTag))] else []
      ensures r.Ok? <==> Sent(f)
    {
      var updated := store.UpdateLastSeenTag(sub.id, newTag, f.update);
      if updated.Err? { return updated; }
      var event := ReleaseDetected(sub.email, sub.repoOwner, sub.repoName, newTag, sub.unsubscribeToken);
      var published := publisher.Publish(SUBJECT_RELEASE_DETECTED, event, f.published);
      if published.Err? {
        var _ := store.UpdateLastSeenTag(sub.id, sub.lastSeenTag, f.compensate);
        return published;
      }
      r := Ok(());
    }
  }

  function ToResult(a: GitHub.Answer): Result<string, AppError> {
    match a
    case Tag(tag) => Ok(tag)
    case Fail(error) => Err(error)
    case Present => Err(Failure)
  }

  /** A tag is a result, the empty one too; a failure is its error. */
  lemma ResultOfAnswer(a: GitHub.Answer)
    ensures forall tag :: ToResult(a) == Ok(tag) <==> a == GitHub.Tag(tag)
    ensures a.Fail? ==> ToResult(a) == Err(a.error)
  {
  }

  type Calls = (string, string) -> GitHub.Call

  function QuestionFor(sub: Subscription): GitHub.Question {
    GitHub.Question(GitHub.Latest, sub.repoOwner, sub.repoName)
  }

  /** What each repository's one lookup answers, from the cache as the pass found it. */
  function AnswersOf(cache: Option<GitHub.Cache>, world: GitHub.World, calls: Calls): Answers {
    (owner: string, name: string) =>
      ToResult(GitHub.Lookup(cache, world, GitHub.Question(GitHub.Latest, owner, name), calls(owner, name)).1)
  }

  /** The outcomes of everything one pass calls. */
  datatype PassWorld = PassWorld(listing: Listing, calls: Calls, faults: Faults)

  /** The cache after the lookups made for some subscriptions, one after the other. */
  function CacheAfter(cache: Option<GitHub.Cache>, world: GitHub.World, calls: Calls, asked: seq<Subscription>)
    : Option<GitHub.Cache>
  {
    if asked == [] then cache
    else
      var n := |asked| - 1;
      GitHub.Lookup(CacheAfter(cache, world, calls, asked[..n]), world, QuestionFor(asked[n]),
                    calls(asked[n].repoOwner, asked[n].repoName)).0
  }

  /** One more group asks about its first member. */
  lemma CacheAfterGroup(cache: Option<GitHub.Cache>, world: GitHub.World, calls: Calls,
                        order: seq<string>, i: nat, subs: seq<Subscription>)
    requires i < |order| && Keep(subs, {order[i]}) != []
    ensures var first := Keep(subs, {order[i]})[0];
      CacheAfter(cache, world, calls, Heads(order[..i + 1], subs)) ==
        GitHub.Lookup(CacheAfter(cache, world, calls, Heads(order[..i], subs)), world, QuestionFor(first),
                      calls(first.repoOwner, first.repoName)).0
  {
    var first := Keep(subs, {order[i]})[0];
    assert order[..i + 1][..i] == order[..i];
    assert (Heads(order[..i], subs) + [first])[..|Heads(order[..i], subs)|] == Heads(order[..i], subs);
  }

  /** The cache still holds what the pass found for the repositories not yet looked up. */
  ghost predicate CacheKept(left: seq<string>, subs: seq<Subscription>,
                            cache: Option<GitHub.Cache>, cache0: Option<GitHub.Cache>)
  {
    forall x | x in subs && x.Repo() in left :: GitHub.SameAt(cache, cache0, GitHub.Key(QuestionFor(x)))
  }

  /** The members of a group ask what no group before it asked. */
  lemma GroupAsksAnew(subs: seq<Subscription>, order: seq<string>, i: nat, x: Subscription)
    requires i < |order| && Distinct(order) && x in Keep(subs, {order[i]}) && forall y | y in subs :: WellFormed(y)
    ensures GitHub.Clean(QuestionFor(x))
    ensures forall y | y in Heads(order[..i], subs) :: WellFormed(y) && QuestionFor(y) != QuestionFor(x)
  {
    KeepMembers(subs, {order[i]});
    HeadsAreMembers(order[..i], subs);
    forall y | y in Heads(order[..i], subs) ensures y.Repo() != x.Repo() {
      var k :| 0 <= k < i && order[k] == y.Repo();
    }
  }

  /** Lookups leave what other questions find as it was. */
  lemma {:induction false} CacheAfterKeeps(cache: Option<GitHub.Cache>, world: GitHub.World, calls: Calls,
                                           asked: seq<Subscription>, q: GitHub.Question)
    requires GitHub.Clean(q) && forall x | x in asked :: WellFormed(x) && QuestionFor(x) != q
    ensures GitHub.SameAt(CacheAfter(cache, world, calls, asked), cache, GitHub.Key(q))
  {
    if asked != [] {
      var n := |asked| - 1;
      var p := QuestionFor(asked[n]);
      assert asked[n] in asked;
      CacheAfterKeeps(cache, world, calls, asked[..n], q);
      GitHub.KeysDistinct(p, q);
      GitHub.LookupIsLocal(CacheAfter(cache, world, calls, asked[..n]), cache, world, p,
                           calls(asked[n].repoOwner, asked[n].repoName), GitHub.Key(q));
    }
  }

  /** What a pass changes: table, accepted events, lookups and counters. */
  datatype View = View(
    table: Table,
    accepted: seq<(string, ReleaseDetected)>,
    lookedUp: seq<string>,
    repositories: int,
    sent: int,
    settled: int,    // sent and failed together
    successRuns: int,
    errorRuns: int)

  /** The view after looking up some repositories and processing some subscriptions. */
  function Advance(v: View, repos: seq<string>, subs: seq<Subscription>, ans: Answers, fs: Faults): View {
    View(
      RunTable(v.table, subs, ans, fs),
      v.accepted + Messages(RunLog(subs, ans, fs)),
      v.lookedUp + repos,
      v.repositories + |repos|,
      v.sent + |RunLog(subs, ans, fs)|,
      v.settled + DueCount(subs, ans),
      v.successRuns,
      v.errorRuns)
  }

  lemma AdvanceTwice(v: View, r1: seq<string>, s1: seq<Subscription>, r2: seq<string>, s2: seq<Subscription>,
                     ans: Answers, fs: Faults)
    ensures Advance(Advance(v, r1, s1, ans, fs), r2, s2, ans, fs) == Advance(v, r1 + r2, s1 + s2, ans, fs)
  {
    var l1, l2 := RunLog(s1, ans, fs), RunLog(s2, ans, fs);
    RunConcat(v.table, s1, s2, ans, fs);
    LogConcat(s1, s2, ans, fs);
    DueConcat(s1, s2, ans);
    MessagesConcat(l1, l2);
    Regroup(v.accepted, Messages(l1), Messages(l2));
    Regroup(v.lookedUp, r1, r2);
  }

  /** One more group, in the order of the groups. */
  lemma AdvanceGroup(v: View, order: seq<string>, i: nat, subs: seq<Subscription>, ans: Answers, fs: Faults)
    requires i < |order| && Distinct(order)
    ensures Advance(Advance(v, order[..i], Grouped(order[..i], subs), ans, fs),
                    [order[i]], Keep(subs, {order[i]}), ans, fs)
         == Advance(v, order[..i + 1], Grouped(order[..i + 1], subs), ans, fs)
    ensures order[i..] == [order[i]] + order[i + 1..] && order[i] !in order[i + 1..]
  {
    AdvanceTwice(v, order[..i], Grouped(order[..i], subs), [order[i]], Keep(subs, {order[i]}), ans, fs);
    assert order[..i + 1] == order[..i] + [order[i]] && order[..i + 1][..i] == order[..i];
  }

  lemma AdvanceMember(v: View, group: seq<Subscription>, i: nat, ans: Answers, fs: Faults)
    requires i < |group|
    ensures Advance(Advance(v, [], group[..i], ans, fs), [], [group[i]], ans, fs)
      == Advance(v, [], group[..i + 1], ans, fs)
  {
    AdvanceTwice(v, [], group[..i], [], [group[i]], ans, fs);
    assert group[..i + 1] == group[..i] + [group[i]];
  }

  lemma AdvanceNone(v: View, ans: Answers, fs: Faults)
    ensures Advance(v, [], [], ans, fs) == v
  {
  }

  function LookupSeen(v: View, repo: string): View {
    v.(lookedUp := v.lookedUp + [repo], repositories := v.repositories + 1)
  }

  /** A lookup, and then the group. */
  lemma LookupAdvances(v: View, repo: string, group: seq<Subscription>, ans: Answers, fs: Faults)
    ensures Advance(LookupSeen(v, repo), [], group, ans, fs) == Advance(v, [repo], group, ans, fs)
  {
  }

  /** A lookup answers from the cache as the pass found it, and leaves the entries
      of the other repositories alone. */
  lemma LookupKeeps(subs: seq<Subscription>, first: Subscription, left: seq<string>,
                    cache: Option<GitHub.Cache>, cache0: Option<GitHub.Cache>, world: GitHub.World, c: GitHub.Call)
    requires (forall x | x in subs :: WellFormed(x)) && first in subs && first.Repo() !in left
    requires CacheKept([first.Repo()] + left, subs, cache, cache0)
    ensures var (after, answer) := GitHub.Lookup(cache, world, QuestionFor(first), c);
      answer == GitHub.Lookup(cache0, world, QuestionFor(first), c).1 && CacheKept(left, subs, after, cache0)
  {
    var q := QuestionFor(first);
    assert first.Repo() in [first.Repo()] + left;
    GitHub.LookupIsLocal(cache, cache0, world, q, c, GitHub.Key(q));
    forall x | x in subs && x.Repo() in left
      ensures GitHub.SameAt(GitHub.Lookup(cache, world, q, c).0, cache0, GitHub.Key(QuestionFor(x)))
    {
      GitHub.KeysDistinct(QuestionFor(x), q);
      GitHub.LookupIsLocal(cache, cache0, world, q, c, GitHub.Key(QuestionFor(x)));
    }
  }

  lemma NothingAdvances(v: View, group: seq<Subscription>, ans: Answers, fs: Faults)
    requires forall x | x in group :: !Due(x, AnswerFor(x, ans))
    ensures Advance(v, [], group, ans, fs) == v
  {
    NothingDue(v.table, group, ans, fs);
  }

  lemma AdvanceOne(v: View, sub: Subscription, ans: Answers, fs: Faults)
    ensures Advance(v, [], [sub], ans, fs) == v.(
      table := Process(v.table, sub, AnswerFor(sub, ans), fs(sub.id)),
      accepted := v.accepted + Messages(Out(sub, AnswerFor(sub, ans), fs(sub.id))),
      sent := v.sent + |Out(sub, AnswerFor(sub, ans), fs(sub.id))|,
      settled := v.settled + if Due(sub, AnswerFor(sub, ans)) then 1 else 0)
  {
    assert [] + [sub] == [sub];
    TableSnoc(v.table, [], sub, ans, fs);
    LogSnoc([], sub, ans, fs);
  }

  /** A pass as its caller sees it: table and counters are those of a plain loop
      over the snapshot, the events are those of that loop up to order, each group
      in snapshot order, and each repository is looked up once. */
  ghost predicate PassResult(v: View, v': View, subs: seq<Subscription>, order: seq<string>, ans: Answers, fs: Faults) {
    var log := RunLog(Grouped(order, subs), ans, fs);
    && IsOrder(order, subs)
    && v'.table == RunTable(v.table, subs, ans, fs)
    && v'.accepted == v.accepted + Messages(log)
    && multiset(log) == multiset(RunLog(subs, ans, fs))
    && v'.lookedUp == v.lookedUp + order
    && v'.repositories == v.repositories + |Repos(subs)|
    && v'.sent == v.sent + |log|
    && v'.settled == v.settled + DueCount(subs, ans)
    && v'.successRuns == v.successRuns + 1 && v'.errorRuns == v.errorRuns
  }

  /** A pass took the scanner from one scene to the next: a failed listing leaves
      all but a counter alone, and otherwise the pass is that of some snapshot of
      the table in some order of its groups. */
  ghost predicate Passed(a: (View, Option<GitHub.Cache>), b: (View, Option<GitHub.Cache>), world: GitHub.World,
                         w: PassWorld)
  {
    if w.listing.Fails() then b == (a.0.(errorRuns := a.0.errorRuns + 1), a.1)
    else exists subs, order | IsSnapshot(a.0.table, subs) && IsOrder(order, subs) ::
      && PassResult(a.0, b.0, subs, order, AnswersOf(a.1, world, w.calls), w.faults)
      && b.1 == CacheAfter(a.1, world, w.calls, Heads(order, subs))
  }

  /** Scenes that follow each other by the given passes. */
  ghost predicate Chain(trace: seq<(View, Option<GitHub.Cache>)>, world: GitHub.World, ws: seq<PassWorld>) {
    |trace| == |ws| + 1 && forall i | 0 <= i < |ws| :: Passed(trace[i], trace[i + 1], world, ws[i])
  }

  lemma TakeOneMore(first: PassWorld, ticks: seq<PassWorld>, i: nat)
    requires i < |ticks|
    ensures [first] + ticks[..i + 1] == [first] + ticks[..i] + [ticks[i]]
  {
    assert ticks[..i + 1] == ticks[..i] + [ticks[i]];
  }

  lemma ChainSnoc(trace: seq<(View, Option<GitHub.Cache>)>, now: (View, Option<GitHub.Cache>), world: GitHub.World,
                  ws: seq<PassWorld>, w: PassWorld)
    requires Chain(trace, world, ws) && Passed(trace[|ws|], now, world, w)
    ensures Chain(trace + [now], world, ws + [w])
  {
  }

  lemma {:induction false} OrderCounts(order: seq<string>, repos: set<string>)
    requires Distinct(order) && forall k :: k in order <==> k in repos
    ensures |order| == |repos|
  {
    if order == [] {
      assert repos == {};
    } else {
      var n := |order| - 1;
      assert order == order[..n] + [order[n]];
      assert forall i | 0 <= i < n :: order[..n][i] != order[n];
      OrderCounts(order[..n], repos - {order[n]});
    }
  }

  lemma PassResultHolds(v: View, subs: seq<Subscription>, order: seq<string>, ans: Answers, fs: Faults)
    requires DistinctIds(subs) && IsOrder(order, subs)
    ensures var v' := Advance(v, order, Grouped(order, subs), ans, fs);
      PassResult(v, v'.(successRuns := v'.successRuns + 1), subs, order, ans, fs)
  {
    GroupingRefinesPlainLoop(v.table, order, subs, ans, fs);
    OrderCounts(order, Repos(subs));
  }

  class Scanner {
    const store: GRPCStore
    const github: GitHub.Client
    const publisher: Publisher
    const metrics: ServiceMetrics
    const saga: ReleaseSagaOrchestrator
    ghost var lookedUp: seq<string>

    constructor (store: GRPCStore, github: GitHub.Client, publisher: Publisher, metrics: ServiceMetrics)
      requires store.server.store.Valid() && store.server.store.Normal()
      ensures this.store == store && this.github == github && this.publisher == publisher && this.metrics == metrics
      ensures Valid() && lookedUp == []
    {
      this.store, this.github, this.publisher, this.metrics := store, github, publisher, metrics;
      saga := new ReleaseSagaOrchestrator(store, publisher);
      lookedUp := [];
    }

    ghost predicate Valid() reads store.server.store {
      store.server.store.Valid() && store.server.store.Normal() && saga.store == store && saga.publisher == publisher
    }

    function Tab(): Table reads store.server.store { store.server.store.Tab() }

    ghost function Seen(): View reads this, store.server.store, publisher, metrics {
      View(Tab(), publisher.accepted, lookedUp, metrics.repositories, metrics.sent, metrics.sent + metrics.failed,
           metrics.successRuns, metrics.errorRuns)
    }

    /** Fills the groups member by member. */
    static method GroupByRepo(subs: seq<Subscription>) returns (repoGroups: map<string, seq<Subscription>>)
      ensures repoGroups.Keys == Repos(subs)
      ensures forall k | k in repoGroups :: repoGroups[k] == Keep(subs, {k})
    {
      repoGroups := map[];
      for i := 0 to |subs|
        invariant repoGroups.Keys == Repos(subs[..i])
        invariant forall k | k in repoGroups :: repoGroups[k] == Keep(subs[..i], {k})
      {
        var repo := subs[i].Repo();
        ghost var before := subs[..i];
        if repo !in repoGroups { KeepNone(before, {repo}); }
        assert subs[..i + 1] == before + [subs[i]] && subs[..i + 1][..i] == before;
        var group := if repo in repoGroups then repoGroups[repo] else [];
        repoGroups := repoGroups[repo := group + [subs[i]]];
      }
      assert subs[..|subs|] == subs;
    }

    /** One member of a group whose lookup gave a tag. */
    method ProcessMember(sub: Subscription, tag: string, faults: Faults, ghost ans: Answers)
      requires Valid() && tag != "" && AnswerFor(sub, ans) == Ok(tag)
      modifies store.server.store, publisher, metrics
      ensures Valid() && Seen() == Advance(old(Seen()), [], [sub], ans, faults)
      ensures github.Contents() == old(github.Contents())
    {
      AdvanceOne(Seen(), sub, ans, faults);
      if sub.lastSeenTag == tag { return; }
      var r := saga.ProcessRelease(sub, tag, faults(sub.id));
      if r.Err? {
        metrics.failed := metrics.failed + 1;
        return;
      }
      metrics.sent := metrics.sent + 1;
    }

    /** One group whose lookup gave a tag. */
    method ProcessGroup(group: seq<Subscription>, tag: string, faults: Faults, ghost ans: Answers)
      requires Valid() && tag != ""
      requires forall x | x in group :: AnswerFor(x, ans) == Ok(tag)
      modifies store.server.store, publisher, metrics
      ensures Valid() && Seen() == Advance(old(Seen()), [], group, ans, faults)
      ensures github.Contents() == old(github.Contents())
    {
      ghost var v := Seen();
      AdvanceNone(v, ans, faults);
      for i := 0 to |group|
        invariant Valid() && Seen() == Advance(v, [], group[..i], ans, faults)
        invariant github.Contents() == old(github.Contents())
      {
        AdvanceMember(v, group, i, ans, faults);
        ProcessMember(group[i], tag, faults, ans);
      }
      assert group[..|group|] == group;
    }

    /** The cache after the lookup for one subscription. */
    ghost function Asked(cache: Option<GitHub.Cache>, sub: Subscription, calls: Calls): Option<GitHub.Cache> {
      GitHub.Lookup(cache, github.world, QuestionFor(sub), calls(sub.repoOwner, sub.repoName)).0
    }

    /** The one lookup of a group, asked about its first member. */
    method LookupGroup(group: seq<Subscription>, repo: string, ghost left: seq<string>, ghost subs: seq<Subscription>,
                       w: PassWorld, ghost cache0: Option<GitHub.Cache>) returns (tag: Result<string, AppError>)
      requires group != [] && group[0] in subs && group[0].Repo() == repo && repo !in left
      requires forall x | x in subs :: WellFormed(x)
      requires CacheKept([repo] + left, subs, github.Contents(), cache0)
      modifies this, metrics, github.Repr()
      ensures tag == AnswerFor(group[0], AnswersOf(cache0, github.world, w.calls))
      ensures CacheKept(left, subs, github.Contents(), cache0)
      ensures github.Contents() == Asked(old(github.Contents()), group[0], w.calls)
      ensures Seen() == LookupSeen(old(Seen()), repo)
    {
      metrics.repositories := metrics.repositories + 1;
      var repoOwner, repoName := group[0].repoOwner, group[0].repoName;
      ghost var before := github.Contents();
      var c := w.calls(repoOwner, repoName);
      var answer := github.LatestReleaseTag(repoOwner, repoName, c);
      lookedUp := lookedUp + [repo];
      assert group[0].Repo() in [repo] + left;
      LookupKeeps(subs, group[0], left, before, cache0, github.world, c);
      tag := ToResult(answer);
    }

    /** The lookup for one group, and the group itself if there is a tag. */
    method StepGroup(group: seq<Subscription>, repo: string, ghost left: seq<string>, ghost subs: seq<Subscription>,
                     w: PassWorld, ghost cache0: Option<GitHub.Cache>)
      requires Valid() && repo in Repos(subs) && repo !in left && group == Keep(subs, {repo})
      requires forall x | x in subs :: WellFormed(x)
      requires CacheKept([repo] + left, subs, github.Contents(), cache0)
      modifies this, store.server.store, publisher, metrics, github.Repr()
      ensures Valid() && CacheKept(left, subs, github.Contents(), cache0)
      ensures group != [] && github.Contents() == Asked(old(github.Contents()), group[0], w.calls)
      ensures Seen() == Advance(old(Seen()), [repo], group, AnswersOf(cache0, github.world, w.calls), w.faults)
    {
      ghost var ans := AnswersOf(cache0, github.world, w.calls);
      ghost var v := Seen();
      OneAnswerPerGroup(subs, repo, ans);
      var tag := LookupGroup(group, repo, left, subs, w, cache0);
      LookupAdvances(v, repo, group, ans, w.faults);
      if tag.Ok? && tag.value != "" {
        ProcessGroup(group, tag.value, w.faults, ans);
      } else {
        NothingAdvances(LookupSeen(v, repo), group, ans, w.faults);
      }
    }

    /** The order in which the map yields its keys: any order. */
    static method RangeOrder(repoGroups: map<string, seq<Subscription>>) returns (order: seq<string>)
      ensures Distinct(order) && forall k :: k in order <==> k in repoGroups
    {
      order := [];
      var left := repoGroups.Keys;
      while left != {}
        invariant left <= repoGroups.Keys && Distinct(order)
        invariant forall k :: k in order <==> k in repoGroups && k !in left
      {
        ghost var next := Member(left);
        var repo :| repo in left;
        left := left - {repo};
        order := order + [repo];
      }
    }

    /** The first groups of the order are done, and nothing else is. */
    ghost predicate GroupsDone(v: View, cache0: Option<GitHub.Cache>, order: seq<string>, i: nat,
                               subs: seq<Subscription>, w: PassWorld)
      requires i <= |order|
      reads this, store.server.store, publisher, metrics, github.Repr()
    {
      && Valid() && CacheKept(order[i..], subs, github.Contents(), cache0)
      && Seen() == Advance(v, order[..i], Grouped(order[..i], subs), AnswersOf(cache0, github.world, w.calls), w.faults)
      && github.Contents() == CacheAfter(cache0, github.world, w.calls, Heads(order[..i], subs))
    }

    /** All of them. */
    lemma GroupsAllDone(v: View, cache0: Option<GitHub.Cache>, order: seq<string>, subs: seq<Subscription>,
                        w: PassWorld)
      requires GroupsDone(v, cache0, order, |order|, subs, w)
      ensures Valid() && github.Contents() == CacheAfter(cache0, github.world, w.calls, Heads(order, subs))
      ensures Seen() == Advance(v, order, Grouped(order, subs), AnswersOf(cache0, github.world, w.calls), w.faults)
    {
      assert order[..|order|] == order;
    }

    /** The group at a position of the order, the groups before it done. */
    method GroupAt(group: seq<Subscription>, order: seq<string>, i: nat, ghost v: View, ghost subs: seq<Subscription>,
                   w: PassWorld, ghost cache0: Option<GitHub.Cache>)
      requires i < |order| && Distinct(order) && order[i] in Repos(subs) && group == Keep(subs, {order[i]})
      requires forall x | x in subs :: WellFormed(x)
      requires GroupsDone(v, cache0, order, i, subs, w)
      modifies this, store.server.store, publisher, metrics, github.Repr()
      ensures GroupsDone(v, cache0, order, i + 1, subs, w)
    {
      AdvanceGroup(v, order, i, subs, AnswersOf(cache0, github.world, w.calls), w.faults);
      StepGroup(group, order[i], order[i + 1..], subs, w, cache0);
      CacheAfterGroup(cache0, github.world, w.calls, order, i, subs);
    }

    /** The loop over the groups. */
    method ProcessGroups(repoGroups: map<string, seq<Subscription>>, order: seq<string>,
                         ghost subs: seq<Subscription>, w: PassWorld)
      requires Valid() && IsOrder(order, subs) && forall x | x in subs :: WellFormed(x)
      requires forall k | k in order :: k in repoGroups && repoGroups[k] == Keep(subs, {k})
      modifies this, store.server.store, publisher, metrics, github.Repr()
      ensures GroupsDone(old(Seen()), old(github.Contents()), order, |order|, subs, w)
    {
      ghost var cache0 := github.Contents();
      ghost var v := Seen();
      assert GroupsDone(v, cache0, order, 0, subs, w) by {
        AdvanceNone(v, AnswersOf(cache0, github.world, w.calls), w.faults);
        assert order[..0] == [];
      }
      for i := 0 to |order|
        invariant GroupsDone(v, cache0, order, i, subs, w)
      {
        GroupAt(repoGroups[order[i]], order, i, v, subs, w, cache0);
      }
    }

    /** All groups, in an order that the map yields. */
    method ProcessMap(repoGroups: map<string, seq<Subscription>>, ghost subs: seq<Subscription>, w: PassWorld)
      returns (ghost order: seq<string>)
      requires Valid() && forall x | x in subs :: WellFormed(x)
      requires repoGroups.Keys == Repos(subs) && forall k | k in repoGroups :: repoGroups[k] == Keep(subs, {k})
      modifies this, store.server.store, publisher, metrics, github.Repr()
      ensures Valid() && IsOrder(order, subs)
      ensures Seen() == Advance(old(Seen()), order, Grouped(order, subs),
                                AnswersOf(old(github.Contents()), github.world, w.calls), w.faults)
      ensures github.Contents() == CacheAfter(old(github.Contents()), github.world, w.calls, Heads(order, subs))
    {
      ghost var v, cache0 := Seen(), github.Contents();
      var range := RangeOrder(repoGroups);
      ProcessGroups(repoGroups, range, subs, w);
      GroupsAllDone(v, cache0, range, subs, w);
      order := range;
    }

    /** One pass. */
    method RunOnce(w: PassWorld)
      returns (r: Result<(), AppError>, ghost subs: seq<Subscription>, ghost order: seq<string>)
      requires Valid()
      modifies this, store.server.store, publisher, metrics, github.Repr()
      ensures Valid() && (r.Err? <==> w.listing.Fails())
      ensures r.Err? ==>
        Seen() == old(Seen()).(errorRuns := old(Seen()).errorRuns + 1) && github.Contents() == old(github.Contents())
      ensures r.Ok? ==>
        && IsSnapshot(old(Tab()), subs)
        && PassResult(old(Seen()), Seen(), subs, order,
                      AnswersOf(old(github.Contents()), github.world, w.calls), w.faults)
        && github.Contents() == CacheAfter(old(github.Contents()), github.world, w.calls, Heads(order, subs))
    {
      order, subs := [], [];
      var listed := store.ListConfirmedForScan(w.listing);
      if listed.Err? {
        metrics.errorRuns := metrics.errorRuns + 1;
        return Err(listed.error), [], [];
      }
      subs := listed.value;
      var repoGroups := GroupByRepo(listed.value);
      ghost var v, ans := Seen(), AnswersOf(github.Contents(), github.world, w.calls);
      order := ProcessMap(repoGroups, subs, w);
      PassResultHolds(v, subs, order, ans, w.faults);
      ghost var v' := Seen();
      metrics.successRuns := metrics.successRuns + 1;
      assert Seen() == v'.(successRuns := v'.successRuns + 1);
      r := Ok(());
    }

    /** What the scanner sees at a moment: everything a pass changes, and the cache. */
    ghost function Scene(): (View, Option<GitHub.Cache>)
      reads this, store.server.store, publisher, metrics, github.Repr()
    {
      (Seen(), github.Contents())
    }

    /** One pass, as the loop sees it. */
    method Pass(w: PassWorld)
      requires Valid()
      modifies this, store.server.store, publisher, metrics, github.Repr()
      ensures Valid() && Passed(old(Scene()), Scene(), github.world, w)
    {
      var _, subs, order := RunOnce(w);
    }

    /** The ticker loop: a pass at the start and one per tick until the context is
        done. Each is a pass from where the one before it ended, and one that fails
        stops nothing. */
    method Run(first: PassWorld, ticks: seq<PassWorld>) returns (ghost trace: seq<(View, Option<GitHub.Cache>)>)
      requires Valid()
      modifies this, store.server.store, publisher, metrics, github.Repr()
      ensures Valid() && Chain(trace, github.world, [first] + ticks)
      ensures trace[0] == old(Scene()) && trace[|ticks| + 1] == Scene()
    {
      ghost var start := Scene();
      Pass(first);
      ghost var now := Scene();
      trace := [start, now];
      for i := 0 to |ticks|
        invariant Valid() && Chain(trace, github.world, [first] + ticks[..i])
        invariant trace[0] == start && trace[i + 1] == now == Scene()
      {
        Pass(ticks[i]);
        ChainSnoc(trace, Scene(), github.world, [first] + ticks[..i], ticks[i]);
        now := Scene();
        trace := trace + [now];
        TakeOneMore(first, ticks, i);
      }
      assert ticks[..|ticks|] == ticks;
    }
  }
}

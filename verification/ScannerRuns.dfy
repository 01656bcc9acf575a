/** The scanner's code in the interleaved system: what RunOnce promises of a pass, with
    its lookups at any times and any of its calls failing, is a run of it. */
module ScannerRuns {
  import opened Common
  import opened Domain
  import opened Bags
  import opened SubscriptionTable
  import opened ScanPass
  import opened Announcements
  import GitHub
  import Cache = CacheProtocol
  import Release = ReleaseProtocol
  import PassRefinement
  import Postgres
  import Scanner
  import SubscriptionService

  // ----- runs of one side are runs -----

  function Nets(steps: seq<Cache.Step>): seq<Act> { seq(|steps|, k requires 0 <= k < |steps| => Net(steps[k])) }

  function Moves(moves: seq<Release.Step>): seq<Act> { seq(|moves|, k requires 0 <= k < |moves| => Db(moves[k])) }

  lemma {:induction false} NetsRun(w: GitHub.World, s: Sys, steps: seq<Cache.Step>)
    requires Cache.Runs(w, s.net, steps)
    ensures Runs(w, s, Nets(steps)) && After(w, s, Nets(steps)) == s.(net := Cache.After(w, s.net, steps))
    decreases |steps|
  {
    if steps != [] {
      NetsRun(w, Apply(w, s, Net(steps[0])), steps[1..]);
      assert Nets(steps)[1..] == Nets(steps[1..]);
    }
  }

  /** The scanner's moves leave the cache and its place in the answers alone. */
  ghost predicate Moved(s: Sys, s': Sys) {
    s'.net == s.net && s'.looked == s.looked && s'.seeds == s.seeds && s'.next >= s.next
  }

  lemma {:induction false} MovesRun(w: GitHub.World, s: Sys, moves: seq<Release.Step>)
    requires Release.Runs(s.rel, moves) && PassRefinement.Plain(moves) && s.next <= |s.net.served|
    ensures Runs(w, s, Moves(moves))
    ensures After(w, s, Moves(moves)).rel == Release.After(s.rel, moves) && Moved(s, After(w, s, Moves(moves)))
    ensures After(w, s, Moves(moves)).next <= |s.net.served|
    decreases |moves|
  {
    if moves != [] {
      assert PassRefinement.Plain(moves[1..]);
      DbFrame(s, moves[0]);
      MovesRun(w, ApplyDb(s, moves[0]), moves[1..]);
      assert Moves(moves)[1..] == Moves(moves[1..]);
    }
  }

  // ----- a group -----

  function GroupActs(nets: seq<Cache.Step>, repo: string, i: nat, moves: seq<Release.Step>): seq<Act> {
    Nets(nets) + ([Looks(repo, i)] + Moves(moves))
  }

  /** A lookup, and then what the scanner does with its answer. */
  lemma GroupActsRun(w: GitHub.World, s: Sys, nets: seq<Cache.Step>, repo: string, i: nat, moves: seq<Release.Step>)
    requires Cache.Runs(w, s.net, nets)
    requires var s1 := s.(net := Cache.After(w, s.net, nets));
      && Enabled(s1, Looks(repo, i))
      && var s2 := ApplyLooks(s1, repo, i);
      && Release.Runs(s2.rel, moves) && PassRefinement.Plain(moves)
    ensures Runs(w, s, GroupActs(nets, repo, i, moves))
    ensures var s' := After(w, s, GroupActs(nets, repo, i, moves));
      var answer := Cache.After(w, s.net, nets).served[i].answer;
      && s'.rel == Release.After(Release.Apply(s.rel, Release.Lookup(repo, Scanner.ToResult(answer))), moves)
      && s'.net == Cache.After(w, s.net, nets) && i < s'.next <= |s'.net.served|
      && s'.looked <= s.looked + {i} && s'.seeds == s.seeds
  {
    var s1 := s.(net := Cache.After(w, s.net, nets));
    var s2 := ApplyLooks(s1, repo, i);
    NetsRun(w, s, nets);
    RunsOne(w, s1, Looks(repo, i));
    MovesRun(w, s2, moves);
    RunsAppend(w, s1, [Looks(repo, i)], Moves(moves));
    RunsAppend(w, s, Nets(nets), [Looks(repo, i)] + Moves(moves));
  }

  lemma GroupRuns(w: GitHub.World, s: Sys, repo: string, c: GitHub.Call, ans: Answers, fs: Faults)
    returns (nets: seq<Cache.Step>, moves: seq<Release.Step>)
    requires s.rel.pc.Choosing? && repo in s.rel.pc.left && repo in Repos(s.rel.snapshot)
    requires forall x | x in s.rel.snapshot :: WellFormed(x)
    requires s.next <= |s.net.served| && Cache.InOrder(s.net.clock, c) && Keep(s.rel.snapshot, {repo}) != []
    requires var first := Keep(s.rel.snapshot, {repo})[0];
      AnswerFor(first, ans) == Scanner.ToResult(GitHub.Lookup(Some(s.net.cache), w, Scanner.QuestionFor(first), c).1)
    ensures var first := Keep(s.rel.snapshot, {repo})[0];
      var q, i := Scanner.QuestionFor(first), |s.net.served|;
      var acts := GroupActs(nets, repo, i, moves);
      && Cache.Runs(w, s.net, nets) && Cache.After(w, s.net, nets) == Cache.Looked(w, s.net, q, c)
      && PassRefinement.Plain(moves) && Runs(w, s, acts)
      && var s' := After(w, s, acts);
      && PassRefinement.Progress(s.rel, s'.rel, Keep(s.rel.snapshot, {repo}), ans, fs)
      && s'.rel.pc == Release.Choosing(s.rel.pc.left - {repo})
      && s'.net == Cache.Looked(w, s.net, q, c) && s'.next <= |s'.net.served|
      && s'.looked <= s.looked + {i} && s'.seeds == s.seeds
  {
    var first := Keep(s.rel.snapshot, {repo})[0];
    var q := Scanner.QuestionFor(first);
    KeepMembers(s.rel.snapshot, {repo});
    assert first in s.rel.snapshot;
    var id := Cache.UnusedId(s.net.calls);
    nets := Cache.LookupIsRun(w, s.net, q, id, c);
    moves := PassRefinement.GroupSteps(s.rel, repo, ans, fs);
    GroupActsRun(w, s, nets, repo, |s.net.served|, moves);
  }

  // ----- a pass -----

  function CallFor(calls: Scanner.Calls, x: Subscription): GitHub.Call { calls(x.repoOwner, x.repoName) }

  /** When the last of some lookups, made one after the other, is over at the latest. */
  function LastAt(now: int, asked: seq<Subscription>, calls: Scanner.Calls): int {
    if asked == [] then now else CallFor(calls, asked[|asked| - 1]).writeAt
  }

  /** Each starts when the one before it is over. */
  predicate InSequence(now: int, asked: seq<Subscription>, calls: Scanner.Calls) {
    asked == [] ||
      var n := |asked| - 1;
      InSequence(now, asked[..n], calls) && Cache.InOrder(LastAt(now, asked[..n], calls), CallFor(calls, asked[n]))
  }

  /** One more group asks about its first member. */
  lemma HeadsSnoc(order: seq<string>, subs: seq<Subscription>)
    requires order != [] && Keep(subs, {order[|order| - 1]}) != []
    ensures var n := |order| - 1;
      && Heads(order, subs) == Heads(order[..n], subs) + [Keep(subs, {order[n]})[0]]
      && Heads(order, subs)[..|Heads(order, subs)| - 1] == Heads(order[..n], subs)
  {
  }

  /** A group is answered as from the cache the pass found. */
  lemma AnsweredAsAtStart(w: GitHub.World, cache0: GitHub.Cache, cache: GitHub.Cache, calls: Scanner.Calls,
                          subs: seq<Subscription>, order: seq<string>, i: nat)
    requires i < |order| && Distinct(order) && (forall y | y in subs :: WellFormed(y)) && Keep(subs, {order[i]}) != []
    requires Some(cache) == Scanner.CacheAfter(Some(cache0), w, calls, Heads(order[..i], subs))
    ensures var first := Keep(subs, {order[i]})[0];
      Scanner.ToResult(GitHub.Lookup(Some(cache), w, Scanner.QuestionFor(first), CallFor(calls, first)).1)
        == AnswerFor(first, Scanner.AnswersOf(Some(cache0), w, calls))
  {
    var first := Keep(subs, {order[i]})[0];
    var q := Scanner.QuestionFor(first);
    Scanner.GroupAsksAnew(subs, order, i, first);
    Scanner.CacheAfterKeeps(Some(cache0), w, calls, Heads(order[..i], subs), q);
    GitHub.LookupIsLocal(Some(cache), Some(cache0), w, q, CallFor(calls, first), GitHub.Key(q));
  }

  /** Where a pass is after some of its groups. */
  ghost predicate GroupsDone(w: GitHub.World, s: Sys, s': Sys, order: seq<string>, calls: Scanner.Calls, fs: Faults) {
    var subs := s.rel.snapshot;
    && PassRefinement.Progress(s.rel, s'.rel, Grouped(order, subs), Scanner.AnswersOf(Some(s.net.cache), w, calls), fs)
    && s.rel.pc.Choosing? && s'.rel.pc == Release.Choosing(s.rel.pc.left - set k | k in order)
    && Some(s'.net.cache) == Scanner.CacheAfter(Some(s.net.cache), w, calls, Heads(order, subs))
    && s'.net.clock <= LastAt(s.net.clock, Heads(order, subs), calls)
    && s'.net.calls == s.net.calls && s'.next <= |s'.net.served| && s'.seeds == s.seeds
  }

  /** The cache and the clock after one more lookup. */
  lemma LookupsSnoc(w: GitHub.World, net: Cache.State, net1: Cache.State, calls: Scanner.Calls,
                    subs: seq<Subscription>, order: seq<string>)
    requires order != [] && Keep(subs, {order[|order| - 1]}) != []
    requires InSequence(net.clock, Heads(order, subs), calls)
    requires var before := Heads(order[..|order| - 1], subs);
      && Some(net1.cache) == Scanner.CacheAfter(Some(net.cache), w, calls, before)
      && net1.clock <= LastAt(net.clock, before, calls)
    ensures var first := Keep(subs, {order[|order| - 1]})[0];
      var net2 := Cache.Looked(w, net1, Scanner.QuestionFor(first), CallFor(calls, first));
      && Cache.InOrder(net1.clock, CallFor(calls, first))
      && Some(net2.cache) == Scanner.CacheAfter(Some(net.cache), w, calls, Heads(order, subs))
      && net2.clock <= LastAt(net.clock, Heads(order, subs), calls) && net2.calls == net1.calls
  {
    HeadsSnoc(order, subs);
  }

  lemma LeftSnoc(left: set<string>, order: seq<string>)
    requires order != []
    ensures var n := |order| - 1;
      left - (set k | k in order[..n]) - {order[n]} == left - set k | k in order
  {
    assert order == order[..|order| - 1] + [order[|order| - 1]];
  }

  lemma GroupsDoneSnoc(w: GitHub.World, s: Sys, s1: Sys, s2: Sys, order: seq<string>, calls: Scanner.Calls, fs: Faults)
    requires order != [] && Keep(s.rel.snapshot, {order[|order| - 1]}) != []
    requires GroupsDone(w, s, s1, order[..|order| - 1], calls, fs)
    requires InSequence(s.net.clock, Heads(order, s.rel.snapshot), calls)
    requires var subs, repo := s.rel.snapshot, order[|order| - 1];
      var first := Keep(subs, {repo})[0];
      && PassRefinement.Progress(s1.rel, s2.rel, Keep(subs, {repo}), Scanner.AnswersOf(Some(s.net.cache), w, calls), fs)
      && s2.rel.pc == Release.Choosing(s1.rel.pc.left - {repo})
      && s2.net == Cache.Looked(w, s1.net, Scanner.QuestionFor(first), CallFor(calls, first))
      && s2.next <= |s2.net.served| && s2.seeds == s1.seeds
    ensures GroupsDone(w, s, s2, order, calls, fs)
  {
    var n := |order| - 1;
    var subs, repo := s.rel.snapshot, order[n];
    LookupsSnoc(w, s.net, s1.net, calls, subs, order);
    PassRefinement.ProgressTrans(s.rel, s1.rel, s2.rel, Grouped(order[..n], subs), Keep(subs, {repo}),
                                 Scanner.AnswersOf(Some(s.net.cache), w, calls), fs);
    LeftSnoc(s.rel.pc.left, order);
  }

  lemma NextGroup(w: GitHub.World, s: Sys, s1: Sys, order: seq<string>, calls: Scanner.Calls, fs: Faults)
    returns (acts: seq<Act>)
    requires order != [] && Distinct(order)
    requires s.rel.pc.Choosing? && (forall k | k in order :: k in s.rel.pc.left && k in Repos(s.rel.snapshot))
    requires forall x | x in s.rel.snapshot :: WellFormed(x)
    requires InSequence(s.net.clock, Heads(order, s.rel.snapshot), calls)
    requires GroupsDone(w, s, s1, order[..|order| - 1], calls, fs)
    ensures Runs(w, s1, acts) && GroupsDone(w, s, After(w, s1, acts), order, calls, fs)
  {
    var n := |order| - 1;
    var subs, repo := s.rel.snapshot, order[n];
    var ans := Scanner.AnswersOf(Some(s.net.cache), w, calls);
    assert repo in order && repo !in order[..n];
    KeepSome(subs, repo);
    LookupsSnoc(w, s.net, s1.net, calls, subs, order);
    AnsweredAsAtStart(w, s.net.cache, s1.net.cache, calls, subs, order, n);
    var nets, moves := GroupRuns(w, s1, repo, CallFor(calls, Keep(subs, {repo})[0]), ans, fs);
    acts := GroupActs(nets, repo, |s1.net.served|, moves);
    GroupsDoneSnoc(w, s, s1, After(w, s1, acts), order, calls, fs);
  }

  lemma {:induction false} GroupsRun(w: GitHub.World, s: Sys, order: seq<string>, calls: Scanner.Calls, fs: Faults)
    returns (acts: seq<Act>)
    requires Distinct(order) && s.next <= |s.net.served|
    requires s.rel.pc.Choosing? && (forall k | k in order :: k in s.rel.pc.left && k in Repos(s.rel.snapshot))
    requires forall x | x in s.rel.snapshot :: WellFormed(x)
    requires InSequence(s.net.clock, Heads(order, s.rel.snapshot), calls)
    ensures Runs(w, s, acts) && GroupsDone(w, s, After(w, s, acts), order, calls, fs)
    decreases |order|
  {
    acts := [];
    if order == [] {
      assert s.rel.pc.left - (set k | k in order) == s.rel.pc.left;
    } else {
      var n := |order| - 1;
      assert order[n] in order && forall k | k in order[..n] :: k in order;
      KeepSome(s.rel.snapshot, order[n]);
      HeadsSnoc(order, s.rel.snapshot);
      acts := GroupsRun(w, s, order[..n], calls, fs);
      var more := NextGroup(w, s, After(w, s, acts), order, calls, fs);
      RunsAppend(w, s, acts, more);
      acts := acts + more;
    }
  }

  /** From the snapshot to the end of the last group. */
  lemma BegunPass(w: GitHub.World, s: Sys, subs: seq<Subscription>, order: seq<string>, calls: Scanner.Calls,
                  fs: Faults)
    returns (acts: seq<Act>)
    requires s.rel.pc.Idle? && IsSnapshot(s.rel.db, subs) && AllWellFormed(s.rel.db) && IsOrder(order, subs)
    requires InSequence(s.net.clock, Heads(order, subs), calls)
    ensures Runs(w, s, acts)
    ensures var s' := After(w, s, acts);
      var ans := Scanner.AnswersOf(Some(s.net.cache), w, calls);
      && s'.rel.pc == Release.Choosing({})
      && s'.rel.db == RunTable(s.rel.db, Grouped(order, subs), ans, fs)
      && s'.rel.log == s.rel.log + RunLog(Grouped(order, subs), ans, fs)
      && Some(s'.net.cache) == Scanner.CacheAfter(Some(s.net.cache), w, calls, Heads(order, subs))
      && s'.net.calls == s.net.calls && s'.net.clock <= LastAt(s.net.clock, Heads(order, subs), calls)
  {
    var begin := Db(Release.Begin(subs));
    var s1 := Apply(w, s, begin);
    RunsOne(w, s, begin);
    var groups := GroupsRun(w, s1, order, calls, fs);
    assert s1.rel.pc.left - (set k | k in order) == {};
    RunsAppend(w, s, [begin], groups);
    acts := [begin] + groups;
  }

  lemma FinishedPass(w: GitHub.World, s: Sys)
    requires s.rel.pc == Release.Choosing({})
    ensures var finish := Db(Release.Finish);
      && Runs(w, s, [finish])
      && After(w, s, [finish]) == s.(rel := s.rel.(pc := Release.Idle))
  {
    RunsOne(w, s, Db(Release.Finish));
  }

  /** A whole pass, for any snapshot and group order, its lookups at any times one
      after the other, and any outcomes of its calls: a run of the interleaved system
      with the table, the events and the cache that RunOnce promises. */
  lemma PassIsRun(w: GitHub.World, s: Sys, subs: seq<Subscription>, order: seq<string>, calls: Scanner.Calls,
                  fs: Faults)
    returns (acts: seq<Act>)
    requires s.rel.pc.Idle? && IsSnapshot(s.rel.db, subs) && AllWellFormed(s.rel.db) && IsOrder(order, subs)
    requires InSequence(s.net.clock, Heads(order, subs), calls)
    ensures Runs(w, s, acts)
    ensures var s' := After(w, s, acts);
      var ans := Scanner.AnswersOf(Some(s.net.cache), w, calls);
      && s'.rel.pc.Idle?
      && s'.rel.db == RunTable(s.rel.db, subs, ans, fs)
      && s'.rel.log == s.rel.log + RunLog(Grouped(order, subs), ans, fs)
      && Some(s'.net.cache) == Scanner.CacheAfter(Some(s.net.cache), w, calls, Heads(order, subs))
      && s'.net.calls == s.net.calls && s'.net.clock <= LastAt(s.net.clock, Heads(order, subs), calls)
  {
    acts := BegunPass(w, s, subs, order, calls, fs);
    FinishedPass(w, After(w, s, acts));
    RunsAppend(w, s, acts, [Db(Release.Finish)]);
    GroupingRefinesPlainLoop(s.rel.db, order, subs, Scanner.AnswersOf(Some(s.net.cache), w, calls), fs);
    acts := acts + [Db(Release.Finish)];
  }

  // ----- Subscribe -----

  /** One lookup of the API. */
  lemma LookupRuns(w: GitHub.World, s: Sys, q: GitHub.Question, c: GitHub.Call) returns (acts: seq<Act>)
    requires GitHub.Clean(q) && Cache.InOrder(s.net.clock, c)
    ensures Runs(w, s, acts) && After(w, s, acts) == s.(net := Cache.Looked(w, s.net, q, c))
    ensures var net := Cache.Looked(w, s.net, q, c);
      && (Some(net.cache), net.served[|s.net.served|].answer) == GitHub.Lookup(Some(s.net.cache), w, q, c)
      && |net.served| == |s.net.served| + 1 && net.served[|s.net.served|].q == q && net.clock <= c.writeAt
  {
    var id := Cache.UnusedId(s.net.calls);
    var steps := Cache.LookupIsRun(w, s.net, q, id, c);
    NetsRun(w, s, steps);
    acts := Nets(steps);
  }

  /** Two of them, about one repository. */
  lemma TwoLookups(w: GitHub.World, s: Sys, owner: string, name: string, c1: GitHub.Call, c2: GitHub.Call)
    returns (acts: seq<Act>)
    requires '/' !in owner && Cache.InOrder(s.net.clock, c1) && Cache.InOrder(c1.writeAt, c2)
    ensures Runs(w, s, acts)
    ensures var (cache1, there) := GitHub.Lookup(Some(s.net.cache), w, GitHub.Question(GitHub.Exists, owner, name), c1);
      var q := GitHub.Question(GitHub.Latest, owner, name);
      var net := After(w, s, acts).net;
      && After(w, s, acts) == s.(net := net) && net.clock <= c2.writeAt && net.served != []
      && (Some(net.cache), net.served[|net.served| - 1].answer) == GitHub.Lookup(cache1, w, q, c2)
      && net.served[|net.served| - 1].q == q
  {
    acts := LookupRuns(w, s, GitHub.Question(GitHub.Exists, owner, name), c1);
    var more := LookupRuns(w, After(w, s, acts), GitHub.Question(GitHub.Latest, owner, name), c2);
    RunsAppend(w, s, acts, more);
    acts := acts + more;
  }

  /** The two lookups of a Subscribe that gets as far as its insert, and the answer
      that becomes the seed. */
  lemma PrepareRuns(w: GitHub.World, s: Sys, sw: SubscriptionService.SubscribeWorld, cache: Option<GitHub.Cache>,
                    p: Params)
    returns (acts: seq<Act>, i: nat)
    requires '/' !in p.repoOwner && SubscriptionService.LookedUp(Some(s.net.cache), w, p, sw, cache)
    requires Cache.InOrder(s.net.clock, sw.exists_) && Cache.InOrder(sw.exists_.writeAt, sw.latest)
    ensures Runs(w, s, acts)
    ensures var s' := After(w, s, acts);
      && s'.rel == s.rel && Some(s'.net.cache) == cache && s'.net.clock <= sw.latest.writeAt
      && Says(s'.net, i, QuestionOf(p), p.lastSeenTag)
  {
    acts := TwoLookups(w, s, p.repoOwner, p.repoName, sw.exists_, sw.latest);
    i := |After(w, s, acts).net.served| - 1;
  }

  /** Insert, mail and undo, for any outcomes. */
  lemma InsertAndUndo(w: GitHub.World, s: Sys, p: Params, i: nat, sw: SubscriptionService.SubscribeWorld)
    returns (acts: seq<Act>)
    requires WellFormed(NewRow(s.rel.db.nextId, p)) && Says(s.net, i, QuestionOf(p), p.lastSeenTag)
    ensures Runs(w, s, acts)
    ensures var s' := After(w, s, acts);
      && s'.rel.db == SubscriptionService.CreateAndMail(s.rel.db, p, sw).0
      && s'.rel.log == s.rel.log && s'.rel.pc == s.rel.pc && s'.net == s.net
  {
    acts := [];
    if sw.create.Applied() {
      var insert := Subscribe(p, i);
      RunsOne(w, s, insert);
      acts := [insert];
      var r := Postgres.InsertOver(s.rel.db, p, sw.create).1;
      if r.Ok? && !sw.mailWorks && sw.delete.Applied() {
        var s1 := Apply(w, s, insert);
        var remove := Db(Release.Remove(r.value.id));
        RunsOne(w, s1, remove);
        RunsAppend(w, s, [insert], [remove]);
        acts := [insert] + [remove];
      }
    }
  }

  /** A Subscribe that gets as far as its insert, whole. */
  lemma SubscribeIsRun(w: GitHub.World, s: Sys, email: string, repo: string, parses: string -> bool,
                       sw: SubscriptionService.SubscribeWorld, cache: Option<GitHub.Cache>, p: Params)
    returns (acts: seq<Act>)
    requires SubscriptionService.Prepare(email, repo, parses, Some(s.net.cache), w, sw) == (cache, Ok(p))
    requires Cache.InOrder(s.net.clock, sw.exists_) && Cache.InOrder(sw.exists_.writeAt, sw.latest)
    ensures Runs(w, s, acts)
    ensures var s' := After(w, s, acts);
      && s'.rel.db == SubscriptionService.CreateAndMail(s.rel.db, p, sw).0
      && s'.rel.log == s.rel.log && s'.rel.pc == s.rel.pc && Some(s'.net.cache) == cache
  {
    SubscriptionService.PreparedNames(email, repo, parses, Some(s.net.cache), w, sw);
    SubscriptionService.PreparedLooksUp(email, repo, parses, Some(s.net.cache), w, sw, cache, p);
    var before, i := PrepareRuns(w, s, sw, cache, p);
    SubscriptionService.PreparedIsWellFormed(email, repo, parses, Some(s.net.cache), w, sw, s.rel.db.nextId);
    var more := InsertAndUndo(w, After(w, s, before), p, i, sw);
    RunsAppend(w, s, before, more);
    acts := before + more;
  }
}

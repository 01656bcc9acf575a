/** Runs in which a subscriber is told a tag again although GitHub replaced tags once
    and for all: for every gap between lookups that is not long enough. */
module Repeats {
  import opened Common
  import opened Domain
  import opened SubscriptionTable
  import opened ScanPass
  import opened Announcements
  import opened Spacing
  import opened ScannerRuns
  import GitHub
  import Cache = CacheProtocol
  import Release = ReleaseProtocol
  import Scanner

  // ----- pieces of runs -----

  lemma {:induction false} MeetsAppend(w: GitHub.World, s: Sys, acts: seq<Act>, more: seq<Act>, t: Terms)
    requires Runs(w, s, acts) && MeetsRun(w, s, acts, t)
    requires Runs(w, After(w, s, acts), more) && MeetsRun(w, After(w, s, acts), more, t)
    ensures Runs(w, s, acts + more) && MeetsRun(w, s, acts + more, t)
    ensures After(w, s, acts + more) == After(w, After(w, s, acts), more)
    decreases |acts|
  {
    RunsAppend(w, s, acts, more);
    if acts == [] {
      assert acts + more == more;
    } else {
      assert (acts + more)[0] == acts[0] && (acts + more)[1..] == acts[1..] + more;
      MeetsAppend(w, Apply(w, s, acts[0]), acts[1..], more, t);
    }
  }

  lemma MeetsOne(w: GitHub.World, s: Sys, act: Act, t: Terms)
    requires Enabled(s, act) && Meets(s, act, t)
    ensures Runs(w, s, [act]) && MeetsRun(w, s, [act], t) && After(w, s, [act]) == Apply(w, s, act)
  {
    RunsOne(w, s, act);
    assert [act][1..] == [];
  }

  lemma {:induction false} NetsMeet(w: GitHub.World, s: Sys, steps: seq<Cache.Step>, t: Terms)
    requires Cache.Runs(w, s.net, steps) && Cache.OnTimeRun(w, s.net, steps, t.lag)
    ensures Runs(w, s, Nets(steps)) && MeetsRun(w, s, Nets(steps), t)
    decreases |steps|
  {
    NetsRun(w, s, steps);
    if steps != [] {
      NetsMeet(w, Apply(w, s, Net(steps[0])), steps[1..], t);
      assert Nets(steps)[1..] == Nets(steps[1..]);
    }
  }

  lemma {:induction false} MovesMeet(w: GitHub.World, s: Sys, moves: seq<Release.Step>, t: Terms)
    requires Runs(w, s, Moves(moves))
    ensures MeetsRun(w, s, Moves(moves), t)
    decreases |moves|
  {
    if moves != [] {
      assert Moves(moves)[1..] == Moves(moves[1..]);
      MovesMeet(w, Apply(w, s, Moves(moves)[0]), moves[1..], t);
    }
  }

  /** Nothing fails in the step. */
  predicate Succeeds(act: Act) {
    match act
    case Net(step) => (step.Begin? ==> !step.readFails) && (step.Finish? ==> !step.writeFails)
    case Db(move) =>
      !move.Crash? && (move.Update? || move.Compensate? ==> move.o.Done?) && (move.Publish? ==> move.accepted)
    case _ => true
  }

  predicate NoFailures(acts: seq<Act>) { forall i | 0 <= i < |acts| :: Succeeds(acts[i]) }

  lemma NoFailuresAppend(a: seq<Act>, b: seq<Act>)
    requires NoFailures(a) && NoFailures(b)
    ensures NoFailures(a + b)
  {
  }

  /** A whole lookup outside the scanner. */
  lemma LookupMeets(w: GitHub.World, s: Sys, q: GitHub.Question, c: GitHub.Call, t: Terms) returns (acts: seq<Act>)
    requires GitHub.Clean(q) && Cache.InOrder(s.net.clock, c) && c.writeAt - c.askAt <= t.lag
    ensures Runs(w, s, acts) && MeetsRun(w, s, acts, t)
    ensures After(w, s, acts) == s.(net := Cache.Looked(w, s.net, q, c))
    ensures !c.readFails && !c.writeFails ==> NoFailures(acts)
  {
    var id := Cache.UnusedId(s.net.calls);
    var steps := Cache.LookupIsRun(w, s.net, q, id, c);
    Cache.LookupOnTime(w, s.net, q, id, c, t.lag, steps);
    NetsRun(w, s, steps);
    NetsMeet(w, s, steps, t);
    acts := Nets(steps);
  }

  // ----- a pass over the only row -----

  const SENT := [Release.Update(Done), Release.Publish(true), Release.EndGroup]

  /** The group's saga goes through. */
  lemma SentGroup(rel: Release.State, row: Subscription)
    requires rel.pc.InGroup? && rel.pc.rest == [row] && rel.pc.tag != row.lastSeenTag
    requires rel.db.rows == map[row.id := row]
    ensures Release.Runs(rel, SENT)
    ensures var rel' := Release.After(rel, SENT);
      && rel'.pc == Release.Choosing(rel.pc.left)
      && rel'.db == rel.db.(rows := map[row.id := row.(lastSeenTag := rel.pc.tag)])
      && rel'.log == rel.log + [Entry(row.id, EventFor(row, rel.pc.tag))] && rel'.origin == rel.origin
  {
    var rel1 := Release.Apply(rel, Release.Update(Done));
    var rel2 := Release.Apply(rel1, Release.Publish(true));
    Release.RunsOne(rel2, Release.EndGroup);
    Release.RunsPair(rel1, Release.Publish(true), [Release.EndGroup]);
    Release.RunsPair(rel, Release.Update(Done), [Release.Publish(true)] + [Release.EndGroup]);
    assert [Release.Update(Done)] + ([Release.Publish(true)] + [Release.EndGroup]) == SENT;
  }

  /** The only row, confirmed, between two passes. */
  ghost predicate Sole(s: Sys, row: Subscription) {
    && s.rel.pc.Idle? && s.rel.db.rows == map[row.id := row] && row.confirmed
    && GitHub.Clean(Scanner.QuestionFor(row)) && s.next <= |s.net.served|
    && forall j | j in s.looked :: j < |s.net.served|
  }

  /** A lookup at this time keeps the terms. */
  ghost predicate InTerms(s: Sys, row: Subscription, c: GitHub.Call, t: Terms) {
    && Cache.InOrder(s.net.clock, c) && c.writeAt - c.askAt <= t.lag
    && (forall j | j in s.looked && j < |s.net.served| :: s.net.served[j].at + t.gap <= c.readAt)
    && (t.seedGap.Some? && t.id in s.seeds ==>
          s.seeds[t.id] < |s.net.served| && s.net.served[s.seeds[t.id]].at + t.seedGap.value <= c.readAt)
  }

  /** The pass told the row the tag. */
  ghost predicate Passed(w: GitHub.World, s: Sys, s': Sys, row: Subscription, tag: string, c: GitHub.Call) {
    && Sole(s', row.(lastSeenTag := tag))
    && s'.rel.log == s.rel.log + [Entry(row.id, EventFor(row, tag))] && s'.rel.origin == s.rel.origin
    && s'.net == Cache.Looked(w, s.net, Scanner.QuestionFor(row), c)
    && s'.seeds == s.seeds && s'.looked <= s.looked + {|s.net.served|}
  }

  /** The snapshot, and the lookup for its one group. */
  lemma AskInPass(w: GitHub.World, s: Sys, row: Subscription, c: GitHub.Call, t: Terms) returns (acts: seq<Act>)
    requires Sole(s, row) && Cache.InOrder(s.net.clock, c) && c.writeAt - c.askAt <= t.lag
    ensures Runs(w, s, acts) && MeetsRun(w, s, acts, t)
    ensures After(w, s, acts) ==
      s.(rel := s.rel.(pc := Release.Choosing({row.Repo()}), snapshot := [row], eligible := s.rel.presented),
         net := Cache.Looked(w, s.net, Scanner.QuestionFor(row), c), next := |s.net.served|)
    ensures !c.readFails && !c.writeFails ==> NoFailures(acts)
  {
    var begin := Db(Release.Begin([row]));
    SoleGroup(row);
    MeetsOne(w, s, begin, t);
    var s1 := Apply(w, s, begin);
    var lookup := LookupMeets(w, s1, Scanner.QuestionFor(row), c, t);
    MeetsAppend(w, s, [begin], lookup, t);
    acts := [begin] + lookup;
    if !c.readFails && !c.writeFails { NoFailuresAppend([begin], lookup); }
  }

  /** The answer opens the group. */
  lemma LooksOpens(w: GitHub.World, s: Sys, s1: Sys, row: Subscription, tag: string, c: GitHub.Call, t: Terms)
    requires Sole(s, row) && InTerms(s, row, c, t) && tag != ""
    requires GitHub.Lookup(Some(s.net.cache), w, Scanner.QuestionFor(row), c).1 == GitHub.Tag(tag)
    requires s1.net == Cache.Looked(w, s.net, Scanner.QuestionFor(row), c)
    requires s1.looked == s.looked && s1.seeds == s.seeds && s1.next == |s.net.served|
    requires s1.rel.pc == Release.Choosing({row.Repo()}) && s1.rel.snapshot == [row]
    ensures var looks := Looks(row.Repo(), |s.net.served|);
      && Enabled(s1, looks) && Meets(s1, looks, t)
      && var s2 := ApplyLooks(s1, row.Repo(), |s.net.served|);
      && s2.rel == s1.rel.(pc := Release.InGroup({}, row.Repo(), tag, [row]))
      && s2.net == s1.net && s2.seeds == s1.seeds && s2.looked == s1.looked + {|s.net.served|}
      && s2.next <= |s2.net.served|
  {
    SoleGroup(row);
    assert {row.Repo()} - {row.Repo()} == {};
  }

  /** From the snapshot to the group. */
  lemma OpenPass(w: GitHub.World, s: Sys, row: Subscription, tag: string, c: GitHub.Call, t: Terms)
    returns (acts: seq<Act>)
    requires Sole(s, row) && InTerms(s, row, c, t) && tag != ""
    requires GitHub.Lookup(Some(s.net.cache), w, Scanner.QuestionFor(row), c).1 == GitHub.Tag(tag)
    ensures Runs(w, s, acts) && MeetsRun(w, s, acts, t)
    ensures var s' := After(w, s, acts);
      && s'.rel.pc == Release.InGroup({}, row.Repo(), tag, [row])
      && s'.rel.db == s.rel.db && s'.rel.log == s.rel.log && s'.rel.origin == s.rel.origin
      && s'.net == Cache.Looked(w, s.net, Scanner.QuestionFor(row), c)
      && s'.seeds == s.seeds && s'.looked <= s.looked + {|s.net.served|} && s'.next <= |s'.net.served|
    ensures !c.readFails && !c.writeFails ==> NoFailures(acts)
  {
    var ask := AskInPass(w, s, row, c, t);
    var s1 := After(w, s, ask);
    var looks := Looks(row.Repo(), |s.net.served|);
    LooksOpens(w, s, s1, row, tag, c, t);
    MeetsOne(w, s1, looks, t);
    MeetsAppend(w, s, ask, [looks], t);
    acts := ask + [looks];
    if !c.readFails && !c.writeFails { NoFailuresAppend(ask, [looks]); }
  }

  /** The saga of the group's one member, and the end of the group. */
  lemma SagaInPass(w: GitHub.World, s: Sys, row: Subscription, t: Terms) returns (acts: seq<Act>)
    requires s.rel.pc.InGroup? && s.rel.pc.rest == [row] && s.rel.pc.tag != row.lastSeenTag
    requires s.rel.db.rows == map[row.id := row] && s.next <= |s.net.served|
    ensures Runs(w, s, acts) && MeetsRun(w, s, acts, t) && NoFailures(acts)
    ensures After(w, s, acts).rel == Release.After(s.rel, SENT) && Release.Runs(s.rel, SENT)
    ensures Moved(s, After(w, s, acts)) && After(w, s, acts).next <= |s.net.served|
  {
    SentGroup(s.rel, row);
    MovesRun(w, s, SENT);
    MovesMeet(w, s, SENT, t);
    acts := Moves(SENT);
  }

  lemma FinishMeets(w: GitHub.World, s: Sys, t: Terms)
    requires s.rel.pc == Release.Choosing({})
    ensures var finish := [Db(Release.Finish)];
      && Runs(w, s, finish) && MeetsRun(w, s, finish, t)
      && After(w, s, finish) == s.(rel := s.rel.(pc := Release.Idle))
  {
    MeetsOne(w, s, Db(Release.Finish), t);
  }

  lemma ClosePass(w: GitHub.World, s: Sys, row: Subscription, t: Terms) returns (acts: seq<Act>)
    requires s.rel.pc.InGroup? && s.rel.pc.left == {} && s.rel.pc.rest == [row] && s.rel.pc.tag != row.lastSeenTag
    requires s.rel.db.rows == map[row.id := row] && s.next <= |s.net.served|
    ensures Runs(w, s, acts) && MeetsRun(w, s, acts, t) && NoFailures(acts)
    ensures var s' := After(w, s, acts);
      && s'.rel.pc.Idle? && s'.rel.db.rows == map[row.id := row.(lastSeenTag := s.rel.pc.tag)]
      && s'.rel.log == s.rel.log + [Entry(row.id, EventFor(row, s.rel.pc.tag))] && s'.rel.origin == s.rel.origin
      && Moved(s, s') && s'.next <= |s.net.served|
  {
    SentGroup(s.rel, row);
    var saga := SagaInPass(w, s, row, t);
    FinishMeets(w, After(w, s, saga), t);
    MeetsAppend(w, s, saga, [Db(Release.Finish)], t);
    NoFailuresAppend(saga, [Db(Release.Finish)]);
    acts := saga + [Db(Release.Finish)];
  }

  lemma SolePass(w: GitHub.World, s: Sys, row: Subscription, tag: string, c: GitHub.Call, t: Terms)
    returns (acts: seq<Act>)
    requires Sole(s, row) && InTerms(s, row, c, t) && tag != "" && tag != row.lastSeenTag
    requires GitHub.Lookup(Some(s.net.cache), w, Scanner.QuestionFor(row), c).1 == GitHub.Tag(tag)
    ensures Runs(w, s, acts) && MeetsRun(w, s, acts, t) && Passed(w, s, After(w, s, acts), row, tag, c)
    ensures !c.readFails && !c.writeFails ==> NoFailures(acts)
  {
    var open := OpenPass(w, s, row, tag, c, t);
    var close := ClosePass(w, After(w, s, open), row, t);
    MeetsAppend(w, s, open, close, t);
    acts := open + close;
    if !c.readFails && !c.writeFails { NoFailuresAppend(open, close); }
  }

  // ----- an old reply on its way -----

  /** GitHub replaces the earlier tag by the later at time 1, once and for all. */
  ghost predicate ReplacedOnce(w: GitHub.World, q: GitHub.Question, earlier: string, later: string) {
    && earlier != later && earlier != "" && later != "" && GitHub.Clean(q) && q.query.Latest?
    && (forall t | t < 1 :: IsLatest(w, q, t, earlier)) && (forall t | t >= 1 :: IsLatest(w, q, t, later))
  }

  lemma ReplacedNeverReturns(w: GitHub.World, q: GitHub.Question, earlier: string, later: string)
    requires ReplacedOnce(w, q, earlier, later)
    ensures NoReturn(w, q)
  {
    forall t, tag | IsLatest(w, q, t, tag) ensures tag == if t < 1 then earlier else later {
      if t < 1 { assert IsLatest(w, q, t, earlier); } else { assert IsLatest(w, q, t, later); }
    }
  }

  lemma LatestIsStored(w: GitHub.World, q: GitHub.Question, t: int, tag: string)
    requires IsLatest(w, q, t, tag) && tag != "" && q.query.Latest?
    ensures GitHub.ToStore(q.query, w(q, t)) == Some(GitHub.Release(tag, true))
  {
  }

  /** At time 1 the reply of time 0 is in the cache, if it had to be written at once,
      or still on its way there. */
  ghost predicate Primed(net: Cache.State, q: GitHub.Question, earlier: string, lag: int) {
    && net.clock == 1
    && (lag == 0 ==>
          && GitHub.Key(q) in net.cache
          && net.cache[GitHub.Key(q)] == GitHub.CacheEntry(GitHub.Release(earlier, true), GitHub.CACHE_TTL))
    && (lag > 0 ==> 0 in net.calls && net.calls[0] == Cache.Replying(q, 0, 0))
  }

  predicate Extends(served: seq<Cache.Served>, served': seq<Cache.Served>) {
    |served| <= |served'| && forall j | 0 <= j < |served| :: served'[j] == served[j]
  }

  /** Two steps of the cache. */
  lemma NetPair(w: GitHub.World, s: Sys, a: Cache.Step, b: Cache.Step, t: Terms) returns (acts: seq<Act>)
    requires Enabled(s, Net(a)) && Cache.OnTime(s.net, a, t.lag)
    requires var s1 := Apply(w, s, Net(a)); Enabled(s1, Net(b)) && Cache.OnTime(s1.net, b, t.lag)
    requires Succeeds(Net(a)) && Succeeds(Net(b))
    ensures Runs(w, s, acts) && MeetsRun(w, s, acts, t) && NoFailures(acts)
    ensures After(w, s, acts) == Apply(w, Apply(w, s, Net(a)), Net(b))
  {
    MeetsOne(w, s, Net(a), t);
    MeetsOne(w, Apply(w, s, Net(a)), Net(b), t);
    MeetsAppend(w, s, [Net(a)], [Net(b)], t);
    acts := [Net(a)] + [Net(b)];
  }

  /** A second lookup asks at time 0 and does not write yet. */
  lemma AskEarly(w: GitHub.World, s: Sys, q: GitHub.Question, t: Terms) returns (acts: seq<Act>)
    requires s.net.clock == 0 && 0 !in s.net.calls && GitHub.Clean(q)
    ensures Runs(w, s, acts) && MeetsRun(w, s, acts, t) && NoFailures(acts)
    ensures var s' := After(w, s, acts);
      s' == s.(net := s'.net) && s'.net.served == s.net.served && s'.net.clock == 1
      && 0 in s'.net.calls && s'.net.calls[0] == Cache.Replying(q, 0, 0) && GitHub.Key(q) !in s'.net.cache
  {
    var s1 := Apply(w, s, Net(Cache.Evict(GitHub.Key(q))));
    acts := NetPair(w, s, Cache.Evict(GitHub.Key(q)), Cache.Begin(0, q, false), t);
    var s2 := After(w, s, acts);
    assert s2.net.calls == s.net.calls[0 := Cache.Asking(q, 0)] && s2.net.served == s.net.served;
    var more := NetPair(w, s2, Cache.Ask(0), Cache.Tick(1), t);
    MeetsAppend(w, s, acts, more, t);
    NoFailuresAppend(acts, more);
    acts := acts + more;
  }

  lemma Prime(w: GitHub.World, q: GitHub.Question, earlier: string, later: string, t: Terms) returns (acts: seq<Act>)
    requires ReplacedOnce(w, q, earlier, later) && t.lag >= 0
    ensures Runs(w, START, acts) && MeetsRun(w, START, acts, t) && NoFailures(acts)
    ensures var s := After(w, START, acts);
      && s == START.(net := s.net) && Primed(s.net, q, earlier, t.lag)
      && (t.lag > 0 ==> GitHub.Key(q) !in s.net.cache)
      && |s.net.served| == 1 && Says(s.net, 0, q, earlier) && s.net.served[0].at == 0
  {
    LatestIsStored(w, q, 0, earlier);
    acts := LookupMeets(w, START, q, Cache.Instantly(0), t);
    var s := After(w, START, acts);
    var more: seq<Act>;
    if t.lag == 0 {
      more := [Net(Cache.Tick(1))];
      MeetsOne(w, s, more[0], t);
    } else {
      more := AskEarly(w, s, q, t);
    }
    MeetsAppend(w, START, acts, more, t);
    NoFailuresAppend(acts, more);
    acts := acts + more;
  }

  /** The older reply reaches the cache as late as it may and can still be read. */
  lemma WriteLate(w: GitHub.World, s: Sys, q: GitHub.Question, earlier: string, later: string, g: int, t: Terms)
    returns (acts: seq<Act>)
    requires ReplacedOnce(w, q, earlier, later) && Primed(s.net, q, earlier, t.lag)
    requires t.lag >= 0 && 0 <= g && !LongEnough(g, t.lag)
    ensures Runs(w, s, acts) && MeetsRun(w, s, acts, t) && NoFailures(acts)
    ensures var s' := After(w, s, acts);
      && s' == s.(net := s'.net) && s'.net.clock == 1 + g && Extends(s.net.served, s'.net.served)
      && GitHub.Live(s'.net.cache, GitHub.Key(q), 1 + g)
      && s'.net.cache[GitHub.Key(q)].value == GitHub.Release(earlier, true)
  {
    if t.lag == 0 {
      acts := [Net(Cache.Tick(g))];
      MeetsOne(w, s, acts[0], t);
    } else {
      LatestIsStored(w, q, 0, earlier);
      var at := if t.lag <= 1 + g then t.lag else 1 + g;
      acts := NetPair(w, s, Cache.Tick(at - 1), Cache.Finish(0, false), t);
      var last := [Net(Cache.Tick(1 + g - at))];
      MeetsOne(w, After(w, s, acts), last[0], t);
      MeetsAppend(w, s, acts, last, t);
      NoFailuresAppend(acts, last);
      acts := acts + last;
    }
  }

  /** Everything the scanner and the seed rest on was answered by then. */
  ghost predicate AnsweredBy(s: Sys, t: Terms, at: int) {
    && (forall j | j in s.looked :: j < |s.net.served| && s.net.served[j].at + t.gap <= at)
    && (t.seedGap.Some? && t.id in s.seeds ==>
          s.seeds[t.id] < |s.net.served| && s.net.served[s.seeds[t.id]].at + t.seedGap.value <= at)
  }

  /** The row holds the later tag; a pass then reads the old reply and announces the
      earlier one. */
  lemma EarlierAgain(w: GitHub.World, s: Sys, row: Subscription, earlier: string, later: string, g: int, t: Terms)
    returns (acts: seq<Act>)
    requires var q := Scanner.QuestionFor(row); ReplacedOnce(w, q, earlier, later) && Primed(s.net, q, earlier, t.lag)
    requires t.lag >= 0 && 0 <= g && !LongEnough(g, t.lag)
    requires Sole(s, row) && row.lastSeenTag == later && AnsweredBy(s, t, 1 + g)
    ensures Runs(w, s, acts) && MeetsRun(w, s, acts, t) && NoFailures(acts)
    ensures var s' := After(w, s, acts);
      && Sole(s', row.(lastSeenTag := earlier)) && s'.net.clock == 1 + g
      && s'.rel.log == s.rel.log + [Entry(row.id, EventFor(row, earlier))] && s'.rel.origin == s.rel.origin
      && s'.seeds == s.seeds
      && (forall j | j in s'.looked ::
            j < |s'.net.served| && (s'.net.served[j].at == 1 + g || s'.net.served[j].at + t.gap <= 1 + g))
      && (t.seedGap.Some? && t.id in s.seeds ==>
            s.seeds[t.id] < |s'.net.served| && s'.net.served[s.seeds[t.id]].at + t.seedGap.value <= 1 + g)
  {
    var q := Scanner.QuestionFor(row);
    var write := WriteLate(w, s, q, earlier, later, g, t);
    var s1 := After(w, s, write);
    var pass := SolePass(w, s1, row, earlier, Cache.Instantly(1 + g), t);
    MeetsAppend(w, s, write, pass, t);
    NoFailuresAppend(write, pass);
    acts := write + pass;
  }

  /** The old entry goes, and a pass some time later announces the later tag again. */
  lemma LaterAgain(w: GitHub.World, s: Sys, row: Subscription, earlier: string, later: string, d: nat, t: Terms)
    returns (acts: seq<Act>)
    requires ReplacedOnce(w, Scanner.QuestionFor(row), earlier, later) && t.lag >= 0 && s.net.clock >= 1
    requires Sole(s, row) && row.lastSeenTag == earlier && AnsweredBy(s, t, s.net.clock + d)
    ensures Runs(w, s, acts) && MeetsRun(w, s, acts, t) && NoFailures(acts)
    ensures var s' := After(w, s, acts);
      && s'.rel.log == s.rel.log + [Entry(row.id, EventFor(row, later))]
      && s'.rel.origin == s.rel.origin && s'.seeds == s.seeds
  {
    var q := Scanner.QuestionFor(row);
    var wait := NetPair(w, s, Cache.Evict(GitHub.Key(q)), Cache.Tick(d), t);
    var s1 := After(w, s, wait);
    assert IsLatest(w, q, s1.net.clock, later);
    var pass := SolePass(w, s1, row, later, Cache.Instantly(s1.net.clock), t);
    MeetsAppend(w, s, wait, pass, t);
    NoFailuresAppend(wait, pass);
    acts := wait + pass;
  }

  /** Both. */
  lemma EarlierThenLater(w: GitHub.World, s: Sys, row: Subscription, earlier: string, later: string, g: int, d: nat,
                         t: Terms)
    returns (acts: seq<Act>)
    requires var q := Scanner.QuestionFor(row); ReplacedOnce(w, q, earlier, later) && Primed(s.net, q, earlier, t.lag)
    requires t.lag >= 0 && 0 <= g && !LongEnough(g, t.lag) && t.gap <= d
    requires Sole(s, row) && row.lastSeenTag == later && AnsweredBy(s, t, 1 + g)
    ensures Runs(w, s, acts) && MeetsRun(w, s, acts, t) && NoFailures(acts)
    ensures var s' := After(w, s, acts);
      && s'.rel.log == s.rel.log + [Entry(row.id, EventFor(row, earlier))] + [Entry(row.id, EventFor(row, later))]
      && s'.rel.origin == s.rel.origin && s'.seeds == s.seeds
  {
    var first := EarlierAgain(w, s, row, earlier, later, g, t);
    var second := LaterAgain(w, After(w, s, first), row.(lastSeenTag := earlier), earlier, later, d, t);
    MeetsAppend(w, s, first, second, t);
    NoFailuresAppend(first, second);
    acts := first + second;
  }

  // ----- the runs -----

  /** The first row is inserted, seeded with a served answer, and confirmed. */
  lemma Enroll(w: GitHub.World, s: Sys, p: Params, i: nat, t: Terms) returns (acts: seq<Act>)
    requires s == START.(net := s.net) && WellFormed(NewRow(1, p)) && Says(s.net, i, QuestionOf(p), p.lastSeenTag)
    ensures Runs(w, s, acts) && MeetsRun(w, s, acts, t) && NoFailures(acts)
    ensures var s' := After(w, s, acts);
      && Sole(s', Release.SoleRow(p)) && s'.net == s.net && s'.looked == {} && s'.seeds == map[1 := i]
      && s'.rel.log == [] && s'.rel.origin == map[1 := NewRow(1, p)]
  {
    var insert, confirm := Subscribe(p, i), Db(Release.Confirm(p.confirmToken));
    MeetsOne(w, s, insert, t);
    var s1 := Apply(w, s, insert);
    assert s1.rel.db.rows == map[1 := NewRow(1, p)];
    MeetsOne(w, s1, confirm, t);
    assert Apply(w, s1, confirm).rel.db.rows == map[1 := Release.SoleRow(p)];
    MeetsAppend(w, s, [insert], [confirm], t);
    acts := [insert] + [confirm];
  }

  /** A lookup at time 1 that does not see the old reply: without a lag its read and
      its write fail, otherwise the reply is not there yet. */
  function FreshCall(lag: int): GitHub.Call { GitHub.Call(1, 1, 1, lag == 0, lag == 0) }

  lemma FreshAnswer(w: GitHub.World, net: Cache.State, q: GitHub.Question, earlier: string, later: string, lag: int)
    requires ReplacedOnce(w, q, earlier, later) && Primed(net, q, earlier, lag) && lag >= 0
    requires lag > 0 ==> GitHub.Key(q) !in net.cache
    ensures Cache.InOrder(net.clock, FreshCall(lag))
    ensures GitHub.Lookup(Some(net.cache), w, q, FreshCall(lag)).1 == GitHub.Tag(later)
    ensures var net' := Cache.Looked(w, net, q, FreshCall(lag));
      && Primed(net', q, earlier, lag) && Extends(net.served, net'.served)
      && Says(net', |net.served|, q, later) && net'.served[|net.served|].at == 1
  {
    assert IsLatest(w, q, 1, later);
  }

  /** A subscriber seeded with the earlier tag is told the later, while the old reply
      is still to come. */
  lemma LaterFirst(w: GitHub.World, p: Params, earlier: string, later: string, t: Terms) returns (acts: seq<Act>)
    requires ReplacedOnce(w, QuestionOf(p), earlier, later) && t.lag >= 0 && t.seedGap.None?
    requires WellFormed(NewRow(1, p)) && p.lastSeenTag == earlier
    ensures Runs(w, START, acts) && MeetsRun(w, START, acts, t) && (t.lag > 0 ==> NoFailures(acts))
    ensures var s, row := After(w, START, acts), Release.SoleRow(p);
      && Sole(s, row.(lastSeenTag := later)) && Primed(s.net, QuestionOf(p), earlier, t.lag)
      && s.rel.origin == map[1 := NewRow(1, p)] && s.rel.log == [Entry(1, EventFor(row, later))]
      && (forall j | j in s.looked :: j < |s.net.served| && s.net.served[j].at == 1)
  {
    var q := QuestionOf(p);
    acts := Prime(w, q, earlier, later, t);
    var enroll := Enroll(w, After(w, START, acts), p, 0, t);
    MeetsAppend(w, START, acts, enroll, t);
    NoFailuresAppend(acts, enroll);
    acts := acts + enroll;
    var s := After(w, START, acts);
    FreshAnswer(w, s.net, q, earlier, later, t.lag);
    var pass := SolePass(w, s, Release.SoleRow(p), later, FreshCall(t.lag), t);
    MeetsAppend(w, START, acts, pass, t);
    if t.lag > 0 { NoFailuresAppend(acts, pass); }
    acts := acts + pass;
  }

  /** For every gap between the scanner's lookups that is not long enough there is a
      run with at least this gap between them in which a subscriber is told the later
      tag, the earlier one, and the later one again. It needs no failure unless
      replies are written at once. */
  lemma CloserLookupsRepeat(w: GitHub.World, p: Params, earlier: string, later: string, lag: nat, gap: nat)
    returns (acts: seq<Act>)
    requires ReplacedOnce(w, QuestionOf(p), earlier, later) && !LongEnough(gap, lag)
    requires WellFormed(NewRow(1, p)) && p.lastSeenTag == earlier
    ensures NoReturn(w, QuestionOf(p)) && (lag > 0 ==> NoFailures(acts))
    ensures Runs(w, START, acts) && MeetsRun(w, START, acts, Terms(lag, gap, None, 1))
    ensures var s := After(w, START, acts);
      var row := NewRow(1, p);
      && s.rel.origin == map[1 := row]
      && s.rel.log == [Entry(1, EventFor(row, later)), Entry(1, EventFor(row, earlier)), Entry(1, EventFor(row, later))]
  {
    var t := Terms(lag, gap, None, 1);
    var row := Release.SoleRow(p).(lastSeenTag := later);
    ReplacedNeverReturns(w, QuestionOf(p), earlier, later);
    var first := LaterFirst(w, p, earlier, later, t);
    var again := EarlierThenLater(w, After(w, START, first), row, earlier, later, gap, gap, t);
    MeetsAppend(w, START, first, again, t);
    if lag > 0 { NoFailuresAppend(first, again); }
    acts := first + again;
  }

  /** And for every gap between a seed and the scanner's first lookup that is not long
      enough, however far apart the scanner's own lookups are, there is a run in which
      a new subscriber is told a tag older than its seed, and then its seed. */
  lemma CloserSeedRepeats(w: GitHub.World, p: Params, earlier: string, later: string, lag: nat, seedGap: nat, gap: nat)
    returns (acts: seq<Act>)
    requires ReplacedOnce(w, QuestionOf(p), earlier, later) && !LongEnough(seedGap, lag)
    requires WellFormed(NewRow(1, p)) && p.lastSeenTag == later
    ensures NoReturn(w, QuestionOf(p)) && (lag > 0 ==> NoFailures(acts))
    ensures Runs(w, START, acts) && MeetsRun(w, START, acts, Terms(lag, gap, Some(seedGap), 1))
    ensures var s := After(w, START, acts);
      var row := NewRow(1, p);
      && s.rel.origin == map[1 := row]
      && s.rel.log == [Entry(1, EventFor(row, earlier)), Entry(1, EventFor(row, later))]
  {
    var t := Terms(lag, gap, Some(seedGap), 1);
    var q, row := QuestionOf(p), Release.SoleRow(p);
    ReplacedNeverReturns(w, q, earlier, later);
    acts := Prime(w, q, earlier, later, t);
    var s := After(w, START, acts);
    FreshAnswer(w, s.net, q, earlier, later, lag);
    var lookup := LookupMeets(w, s, q, FreshCall(lag), t);
    MeetsAppend(w, START, acts, lookup, t);
    if lag > 0 { NoFailuresAppend(acts, lookup); }
    acts := acts + lookup;
    var enroll := Enroll(w, After(w, START, acts), p, 1, t);
    MeetsAppend(w, START, acts, enroll, t);
    if lag > 0 { NoFailuresAppend(acts, enroll); }
    acts := acts + enroll;
    var again := EarlierThenLater(w, After(w, START, acts), row, earlier, later, seedGap, gap, t);
    MeetsAppend(w, START, acts, again, t);
    if lag > 0 { NoFailuresAppend(acts, again); }
    acts := acts + again;
  }
}

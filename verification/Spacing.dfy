/** When the answers the scanner gets never go back: enough time between its lookups
    of a repository, lookups that neither overlap nor fail to read the cache, or
    replies stored at once. */
module Spacing {
  import Common
  import opened Announcements
  import opened ScanPass
  import GitHub
  import Cache = CacheProtocol
  import Release = ReleaseProtocol
  import Scanner

  // ----- time between lookups -----

  /** lag bounds the time from GitHub's reply to its entry; gap is the time from the
      answer to one of the scanner's lookups of a repository to the start of the
      next; seedGap, if given, the time from the seed of the row id on. */
  datatype Terms = Terms(lag: int, gap: int, seedGap: Common.Option<int>, id: int)

  /** The lookup of the answer started some time after the other answer was given. */
  predicate Apart(net: Cache.State, j: nat, i: nat, gap: int) {
    j < |net.served| && i < |net.served| ==> net.served[j].at + gap <= net.served[i].began
  }

  ghost predicate Meets(s: Sys, act: Act, t: Terms)
    requires Enabled(s, act)
  {
    && (act.Net? ==> Cache.OnTime(s.net, act.step, t.lag))
    && (act.Looks? ==>
          forall j | j in s.looked && j < |s.net.served| && s.net.served[j].q == s.net.served[act.i].q ::
            Apart(s.net, j, act.i, t.gap))
    && (act.Looks? && t.seedGap.Some? && t.id in s.seeds ==>
          forall x | x in Keep(s.rel.snapshot, {act.repo}) && x.id == t.id ::
            Apart(s.net, s.seeds[t.id], act.i, t.seedGap.value))
  }

  ghost predicate MeetsRun(w: GitHub.World, s: Sys, acts: seq<Act>, t: Terms)
    requires Runs(w, s, acts)
    decreases |acts|
  {
    acts == [] || (Meets(s, acts[0], t) && MeetsRun(w, Apply(w, s, acts[0]), acts[1..], t))
  }

  /** No entry written after an answer was given, or before, can serve a lookup that
      starts so much later with a reply older than that answer's. */
  predicate LongEnough(gap: int, lag: int) { gap >= GitHub.CACHE_TTL + lag - 1 }

  ghost predicate PromptInv(s: Sys, lag: int) { Cache.Prompt(s.net, lag) && Cache.PromptServed(s.net.served, lag) }

  lemma PromptKept(w: GitHub.World, s: Sys, act: Act, t: Terms)
    requires Sane(w, s) && PromptInv(s, t.lag) && Enabled(s, act) && Meets(s, act, t)
    ensures PromptInv(Apply(w, s, act), t.lag)
  {
    match act
    case Net(step) =>
      Cache.PromptStep(w, s.net, step, t.lag);
      Cache.PromptServedStep(w, s.net, step, t.lag);
    case Db(move) => DbFrame(s, move);
    case _ =>
  }

  /** Answers far enough apart come in the order of their samples. */
  lemma ApartIsOnward(w: GitHub.World, net: Cache.State, j: nat, i: nat, gap: int, lag: nat)
    requires Cache.Honest(w, net) && Cache.PromptServed(net.served, lag) && j < |net.served| && i < |net.served|
    requires Apart(net, j, i, gap) && LongEnough(gap, lag)
    ensures SampledAt(net, j) <= SampledAt(net, i)
  {
    assert Cache.Sound(w, net.served[j]) && Cache.Sound(w, net.served[i]);
    Cache.SampleBound(w, net.served[j], lag);
    Cache.SampleBound(w, net.served[i], lag);
  }

  lemma MeetsIsOnward(w: GitHub.World, s: Sys, act: Act, t: Terms)
    requires Sane(w, s) && PromptInv(s, t.lag) && Enabled(s, act) && Meets(s, act, t)
    requires t.lag >= 0 && LongEnough(t.gap, t.lag)
    ensures Onward(s, act)
    ensures t.seedGap.Some? && LongEnough(t.seedGap.value, t.lag) ==> AfterSeed(s, act, t.id)
  {
    if act.Looks? {
      forall j | j in s.looked && j < |s.net.served| && s.net.served[j].q == s.net.served[act.i].q
        ensures SampledAt(s.net, j) <= SampledAt(s.net, act.i)
      {
        ApartIsOnward(w, s.net, j, act.i, t.gap, t.lag);
      }
      if t.seedGap.Some? && LongEnough(t.seedGap.value, t.lag) && t.id in s.seeds {
        forall x | x in Keep(s.rel.snapshot, {act.repo}) && x.id == t.id
          ensures SampledAt(s.net, s.seeds[t.id]) <= SampledAt(s.net, act.i)
        {
          ApartIsOnward(w, s.net, s.seeds[t.id], act.i, t.seedGap.value, t.lag);
        }
      }
    }
  }

  lemma {:induction false} SpacedIsOnward(w: GitHub.World, s: Sys, acts: seq<Act>, t: Terms)
    requires Sane(w, s) && PromptInv(s, t.lag) && Runs(w, s, acts) && MeetsRun(w, s, acts, t)
    requires t.lag >= 0 && LongEnough(t.gap, t.lag)
    ensures OnwardRun(w, s, acts)
    ensures t.seedGap.Some? && LongEnough(t.seedGap.value, t.lag) ==> AfterSeedRun(w, s, acts, t.id)
    decreases |acts|
  {
    if acts != [] {
      MeetsIsOnward(w, s, acts[0], t);
      SaneStep(w, s, acts[0]);
      PromptKept(w, s, acts[0], t);
      SpacedIsOnward(w, Apply(w, s, acts[0]), acts[1..], t);
    }
  }

  /** With lookups of a repository far enough apart no subscription to it is told a
      tag twice, over any run and whatever fails; nor its seed, if the seed was
      looked up that much earlier too. */
  lemma ToldOnceWhenSpaced(w: GitHub.World, acts: seq<Act>, t: Terms)
    requires Runs(w, START, acts) && MeetsRun(w, START, acts, t)
    requires t.lag >= 0 && LongEnough(t.gap, t.lag) && (t.seedGap.Some? ==> LongEnough(t.seedGap.value, t.lag))
    requires t.id in After(w, START, acts).rel.origin
    requires NoReturn(w, Scanner.QuestionFor(After(w, START, acts).rel.origin[t.id]))
    ensures |After(w, START, acts).rel.log| == |After(w, START, acts).uses|
    ensures DistinctTags(AllHeard(After(w, START, acts), t.id, t.seedGap.Some?))
  {
    SpacedIsOnward(w, START, acts, t);
    ToldOnce(w, acts, t.id, t.seedGap.Some?);
  }

  // ----- answers served in the order of their samples -----

  /** The cache's part of a run. */
  function NetSteps(acts: seq<Act>): seq<Cache.Step> {
    if acts == [] then [] else (if acts[0].Net? then [acts[0].step] else []) + NetSteps(acts[1..])
  }

  lemma NetUnlessNet(w: GitHub.World, s: Sys, act: Act)
    requires Enabled(s, act)
    ensures Apply(w, s, act).net == if act.Net? then Cache.Apply(w, s.net, act.step) else s.net
  {
    if act.Db? { DbFrame(s, act.move); }
  }

  lemma {:induction false} NetIsRun(w: GitHub.World, s: Sys, acts: seq<Act>)
    requires Runs(w, s, acts)
    ensures Cache.Runs(w, s.net, NetSteps(acts))
    ensures Cache.After(w, s.net, NetSteps(acts)) == After(w, s, acts).net
    decreases |acts|
  {
    if acts != [] {
      NetUnlessNet(w, s, acts[0]);
      NetIsRun(w, Apply(w, s, acts[0]), acts[1..]);
      if acts[0].Net? {
        Cache.RunsThen(w, s.net, acts[0].step, NetSteps(acts[1..]));
      } else {
        assert NetSteps(acts) == NetSteps(acts[1..]);
      }
    }
  }

  /** What was served stays served. */
  lemma {:induction false} ServedOverRun(w: GitHub.World, s: Sys, acts: seq<Act>)
    requires Runs(w, s, acts)
    ensures var served := After(w, s, acts).net.served;
      |s.net.served| <= |served| && forall j | 0 <= j < |s.net.served| :: served[j] == s.net.served[j]
    decreases |acts|
  {
    if acts != [] {
      NetUnlessNet(w, s, acts[0]);
      if acts[0].Net? { ServedGrows(w, s.net, acts[0].step); }
      ServedOverRun(w, Apply(w, s, acts[0]), acts[1..]);
    }
  }

  /** A tag is a definite answer. */
  lemma TagIsDefinite(w: GitHub.World, r: Cache.Served)
    requires Cache.Sound(w, r) && r.answer.Tag?
    ensures Cache.Definite(w, r)
  {
    GitHub.StoredRepeatsAnswer(r.q.query, w(r.q, r.sampledAt));
  }

  lemma ForwardIsOnward(w: GitHub.World, s: Sys, act: Act, id: int)
    requires Sane(w, s) && Enabled(s, act) && Cache.ForwardDefinite(w, s.net.served)
    ensures Onward(s, act) && AfterSeed(s, act, id)
  {
    if act.Looks? && s.net.served[act.i].answer.Tag? {
      forall j | 0 <= j < |s.net.served| && s.net.served[j].answer.Tag? ensures Cache.Definite(w, s.net.served[j]) {
        TagIsDefinite(w, s.net.served[j]);
      }
      KeepMembers(s.rel.snapshot, {act.repo});
      forall x | x in Keep(s.rel.snapshot, {act.repo}) && x.id == id && id in s.seeds
        ensures SampledAt(s.net, s.seeds[id]) <= SampledAt(s.net, act.i)
      {
        OneQuestion(s, act.repo, x, Keep(s.rel.snapshot, {act.repo})[0]);
      }
    }
  }

  lemma {:induction false} ForwardIsOnwardRun(w: GitHub.World, s: Sys, acts: seq<Act>, id: int)
    requires Sane(w, s) && Runs(w, s, acts) && Cache.ForwardDefinite(w, After(w, s, acts).net.served)
    ensures OnwardRun(w, s, acts) && AfterSeedRun(w, s, acts, id)
    decreases |acts|
  {
    if acts != [] {
      ServedOverRun(w, s, acts);
      ForwardIsOnward(w, s, acts[0], id);
      SaneStep(w, s, acts[0]);
      ForwardIsOnwardRun(w, Apply(w, s, acts[0]), acts[1..], id);
    }
  }

  lemma ToldOnceWhenForward(w: GitHub.World, acts: seq<Act>, id: int)
    requires Runs(w, START, acts) && Cache.ForwardDefinite(w, After(w, START, acts).net.served)
    requires id in After(w, START, acts).rel.origin
    requires NoReturn(w, Scanner.QuestionFor(After(w, START, acts).rel.origin[id]))
    ensures |After(w, START, acts).rel.log| == |After(w, START, acts).uses|
    ensures DistinctTags(AllHeard(After(w, START, acts), id, true))
  {
    ForwardIsOnwardRun(w, START, acts, id);
    ToldOnce(w, acts, id, true);
  }

  /** If no cache read fails and lookups of one question do not overlap, nobody is
      told a tag twice, the seed included, at any spacing. */
  lemma ToldOnceWhenPlain(w: GitHub.World, acts: seq<Act>, id: int)
    requires Runs(w, START, acts) && id in After(w, START, acts).rel.origin
    requires NoReturn(w, Scanner.QuestionFor(After(w, START, acts).rel.origin[id]))
    requires Cache.Runs(w, START.net, NetSteps(acts)) && Cache.PlainRun(w, START.net, NetSteps(acts))
    ensures |After(w, START, acts).rel.log| == |After(w, START, acts).uses|
    ensures DistinctTags(AllHeard(After(w, START, acts), id, true))
  {
    NetIsRun(w, START, acts);
    Cache.MonotoneSampling(w, START.net, NetSteps(acts));
    ToldOnceWhenForward(w, acts, id);
  }

  /** Nor if no cache write fails and every reply is written as soon as it comes,
      though lookups overlap and reads fail. */
  lemma ToldOnceWhenStoredAtOnce(w: GitHub.World, acts: seq<Act>, id: int)
    requires Runs(w, START, acts) && id in After(w, START, acts).rel.origin
    requires NoReturn(w, Scanner.QuestionFor(After(w, START, acts).rel.origin[id]))
    requires Cache.Runs(w, START.net, NetSteps(acts)) && Cache.AtOnceRun(w, START.net, NetSteps(acts))
    ensures |After(w, START, acts).rel.log| == |After(w, START, acts).uses|
    ensures DistinctTags(AllHeard(After(w, START, acts), id, true))
  {
    NetIsRun(w, START, acts);
    Cache.StoredAtOnceGoesForward(w, START.net, NetSteps(acts));
    ToldOnceWhenForward(w, acts, id);
  }
}

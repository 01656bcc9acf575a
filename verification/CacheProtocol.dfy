/** Lookups by several clients over one shared cache, step by step. A lookup
    reads the cache, asks GitHub and writes the cache at three different times;
    any of these can fail, a lookup can be given up, an entry can be evicted, and
    lookups interleave at will.

    Where an entry came from (origin) and what was served (served) are recorded
    for the statements; no step depends on them. */
module CacheProtocol {
  import opened Common
  import opened GitHub

  /** The reply behind a cache entry: the question, when GitHub gave it, and when
      it was written. */
  datatype Sample = Sample(q: Question, at: int, recordedAt: int)

  /** A lookup that missed the cache, before and after GitHub's reply. */
  datatype Phase = Asking(q: Question, began: int) | Replying(q: Question, began: int, at: int)

  datatype Source = Fresh | FromCache(recordedAt: int)

  /** An answer given to a caller at a time, and the time GitHub gave it. */
  datatype Served = Served(q: Question, answer: Answer, began: int, at: int, sampledAt: int, source: Source)

  datatype State = State(
    cache: Cache,
    origin: map<string, Sample>,
    clock: int,
    calls: map<int, Phase>,
    served: seq<Served>)

  datatype Step =
    | Tick(d: nat)
    | Begin(id: int, q: Question, readFails: bool)
    | Ask(id: int)
    | Finish(id: int, writeFails: bool)
    | Abort(id: int)
    | Evict(key: string)

  predicate Enabled(s: State, step: Step) {
    match step
    case Begin(id, q, _) => id !in s.calls && Clean(q)
    case Ask(id) => id in s.calls && s.calls[id].Asking?
    case Finish(id, _) => id in s.calls && s.calls[id].Replying?
    case _ => true
  }

  /** The write of a finishing lookup takes effect. */
  predicate Stores(w: World, call: Phase, writeFails: bool)
    requires call.Replying?
  {
    !writeFails && ToStore(call.q.query, w(call.q, call.at)).Some?
  }

  function Apply(w: World, s: State, step: Step): State
    requires Enabled(s, step)
  {
    match step
    case Tick(d) => s.(clock := s.clock + d)
    case Begin(id, q, readFails) =>
      (match Read(s.cache, q, s.clock, readFails)
       case None => s.(calls := s.calls[id := Asking(q, s.clock)])
       case Some(a) =>
         var o := if Key(q) in s.origin then s.origin[Key(q)] else Sample(q, s.clock, s.clock);
         s.(served := s.served + [Served(q, a, s.clock, s.clock, o.at, FromCache(o.recordedAt))]))
    case Ask(id) => s.(calls := s.calls[id := Replying(s.calls[id].q, s.calls[id].began, s.clock)])
    case Finish(id, writeFails) =>
      var call := s.calls[id];
      var r := w(call.q, call.at);
      State(
        Write(s.cache, call.q, s.clock, r, writeFails),
        if Stores(w, call, writeFails) then s.origin[Key(call.q) := Sample(call.q, call.at, s.clock)] else s.origin,
        s.clock,
        s.calls - {id},
        s.served + [Served(call.q, Uncached(call.q.query, r), call.began, s.clock, call.at, Fresh)])
    case Abort(id) => s.(calls := s.calls - {id})
    case Evict(key) => s.(cache := s.cache - {key})
  }

  ghost predicate Runs(w: World, s: State, steps: seq<Step>)
    decreases |steps|
  {
    steps == [] || (Enabled(s, steps[0]) && Runs(w, Apply(w, s, steps[0]), steps[1..]))
  }

  ghost function After(w: World, s: State, steps: seq<Step>): State
    requires Runs(w, s, steps)
    decreases |steps|
  {
    if steps == [] then s else After(w, Apply(w, s, steps[0]), steps[1..])
  }

  ghost predicate Init(s: State) { s.cache == map[] && s.calls == map[] && s.served == [] }

  /** A run extended by a run is a run. */
  lemma {:induction false} RunsAppend(w: World, s: State, steps: seq<Step>, more: seq<Step>)
    requires Runs(w, s, steps) && Runs(w, After(w, s, steps), more)
    ensures Runs(w, s, steps + more) && After(w, s, steps + more) == After(w, After(w, s, steps), more)
    decreases |steps|
  {
    if steps == [] {
      assert steps + more == more;
    } else {
      RunsAppend(w, Apply(w, s, steps[0]), steps[1..], more);
      assert (steps + more)[1..] == steps[1..] + more;
    }
  }

  lemma RunsOne(w: World, s: State, step: Step)
    requires Enabled(s, step)
    ensures Runs(w, s, [step]) && After(w, s, [step]) == Apply(w, s, step)
  {
    assert [step][1..] == [];
    assert Runs(w, Apply(w, s, step), []);
  }

  // ----- bounded staleness -----

  /** What can be said of one served answer: GitHub gave it for this question,
      during the lookup itself or less than CACHE_TTL after being recorded. */
  predicate Sound(w: World, r: Served) {
    && Clean(r.q)
    && r.answer == Uncached(r.q.query, w(r.q, r.sampledAt))
    && r.began <= r.at
    && match r.source
       case Fresh => r.began <= r.sampledAt <= r.at
       case FromCache(recordedAt) =>
         && r.sampledAt <= recordedAt <= r.at < recordedAt + CACHE_TTL
         && ToStore(r.q.query, w(r.q, r.sampledAt)).Some?
  }

  ghost predicate HonestEntry(w: World, s: State, key: string)
    requires key in s.cache
  {
    && key in s.origin
    && var o := s.origin[key];
    && Clean(o.q) && Key(o.q) == key
    && ToStore(o.q.query, w(o.q, o.at)) == Some(s.cache[key].value)
    && o.at <= o.recordedAt <= s.clock
    && s.cache[key].expiresAt == o.recordedAt + CACHE_TTL
  }

  ghost predicate Honest(w: World, s: State) {
    && (forall key | key in s.cache :: HonestEntry(w, s, key))
    && (forall id | id in s.calls ::
          && Clean(s.calls[id].q) && s.calls[id].began <= s.clock
          && (s.calls[id].Replying? ==> s.calls[id].began <= s.calls[id].at <= s.clock))
    && (forall i | 0 <= i < |s.served| :: Sound(w, s.served[i]) && s.served[i].at <= s.clock)
  }

  /** A hit repeats the answer GitHub gave to the same question. */
  lemma HitIsHonest(w: World, s: State, q: Question)
    requires Honest(w, s) && Clean(q) && Key(q) in s.cache
    ensures s.origin[Key(q)].q == q
    ensures Decode(q.query, s.cache[Key(q)].value) == Some(Uncached(q.query, w(q, s.origin[Key(q)].at)))
  {
    assert HonestEntry(w, s, Key(q));
    var o := s.origin[Key(q)];
    KeysDistinct(o.q, q);
    StoredRepeatsAnswer(q.query, w(q, o.at));
  }

  lemma HonestStep(w: World, s: State, step: Step)
    requires Honest(w, s) && Enabled(s, step)
    ensures Honest(w, Apply(w, s, step))
  {
    var s' := Apply(w, s, step);
    if step.Begin? && Read(s.cache, step.q, s.clock, step.readFails).Some? {
      assert HonestEntry(w, s, Key(step.q));
      HitIsHonest(w, s, step.q);
    }
    forall key | key in s'.cache ensures HonestEntry(w, s', key) {
      if key in s.cache { assert HonestEntry(w, s, key); }
    }
  }

  /** Bounded staleness: in every run, however reads and writes fail, every
      answer served is sound. */
  lemma {:induction false} BoundedStaleness(w: World, s: State, steps: seq<Step>)
    requires Honest(w, s) && Runs(w, s, steps)
    ensures Honest(w, After(w, s, steps))
    ensures forall r | r in After(w, s, steps).served :: Sound(w, r)
    decreases |steps|
  {
    if steps != [] {
      HonestStep(w, s, steps[0]);
      BoundedStaleness(w, Apply(w, s, steps[0]), steps[1..]);
    }
  }

  // ----- agreement with the client without a cache -----

  /** A reply that says nothing about the repository. */
  predicate Transient(query: Query, r: Response) {
    Uncached(query, r) == Fail(RateLimited) || Uncached(query, r) == Fail(Failure)
  }

  /** Over a span of time GitHub gives one answer, transient errors aside. */
  ghost predicate Steady(w: World, q: Question, a: Answer, since: int, until: int) {
    forall t | since <= t <= until :: Uncached(q.query, w(q, t)) == a || Transient(q.query, w(q, t))
  }

  /** If GitHub was steady from the sample behind an answer up to the moment the
      answer was given, the answer is what the client without a cache gets at that
      moment; only a hit may differ, and then by hiding a transient error behind
      the steady answer. */
  lemma AgreesWithUncached(w: World, s: State, steps: seq<Step>, r: Served, a: Answer)
    requires Honest(w, s) && Runs(w, s, steps) && r in After(w, s, steps).served
    requires Steady(w, r.q, a, r.sampledAt, r.at)
    ensures var now := if r.source.Fresh? then r.sampledAt else r.at;
      r.answer == Uncached(r.q.query, w(r.q, now))
      || (r.source.FromCache? && r.answer == a && Transient(r.q.query, w(r.q, now)))
  {
    BoundedStaleness(w, s, steps);
  }

  // ----- order of the samples behind successive answers -----

  /** Lookups of one question do not overlap, and a lookup that reached GitHub
      either stores its reply or leaves no older entry that can still be read. */
  ghost predicate Calm(w: World, s: State, step: Step)
    requires Enabled(s, step)
  {
    match step
    case Begin(_, q, _) => forall id | id in s.calls :: s.calls[id].q != q
    case Finish(id, writeFails) =>
      Stores(w, s.calls[id], writeFails) || !Live(s.cache, Key(s.calls[id].q), s.clock)
    case _ => true
  }

  ghost predicate CalmRun(w: World, s: State, steps: seq<Step>)
    requires Runs(w, s, steps)
    decreases |steps|
  {
    steps == [] || (Calm(w, s, steps[0]) && CalmRun(w, Apply(w, s, steps[0]), steps[1..]))
  }

  /** Successive answers to one question rest on samples that never go back. */
  ghost predicate Forward(served: seq<Served>) {
    forall i, j | 0 <= i < j < |served| && served[i].q == served[j].q :: served[i].sampledAt <= served[j].sampledAt
  }

  ghost predicate Ordered(s: State) {
    && Forward(s.served)
    && (forall i, j | i in s.calls && j in s.calls && i != j :: s.calls[i].q != s.calls[j].q)
    && (forall i | 0 <= i < |s.served| && Live(s.cache, Key(s.served[i].q), s.clock) ::
          Key(s.served[i].q) in s.origin && s.served[i].sampledAt <= s.origin[Key(s.served[i].q)].at)
    && (forall i, id | 0 <= i < |s.served| && id in s.calls && s.calls[id].Replying?
                       && s.calls[id].q == s.served[i].q ::
          s.served[i].sampledAt <= s.calls[id].at)
  }

  /** One more answer keeps the order when its sample is no older than the earlier ones. */
  lemma ForwardAppend(served: seq<Served>, r: Served)
    requires Forward(served)
    requires forall i | 0 <= i < |served| && served[i].q == r.q :: served[i].sampledAt <= r.sampledAt
    ensures Forward(served + [r])
  {
  }

  lemma OrderedFinish(w: World, s: State, id: int, writeFails: bool)
    requires Honest(w, s) && Ordered(s) && Enabled(s, Finish(id, writeFails)) && Calm(w, s, Finish(id, writeFails))
    ensures Ordered(Apply(w, s, Finish(id, writeFails)))
  {
    var call := s.calls[id];
    var s' := Apply(w, s, Finish(id, writeFails));
    var r := s'.served[|s.served|];
    ForwardAppend(s.served, r);
    forall i | 0 <= i < |s'.served| && Live(s'.cache, Key(s'.served[i].q), s'.clock)
      ensures Key(s'.served[i].q) in s'.origin && s'.served[i].sampledAt <= s'.origin[Key(s'.served[i].q)].at
    {
      var q := s'.served[i].q;
      assert i < |s.served| ==> Sound(w, s.served[i]);
      KeysDistinct(q, call.q);
    }
  }

  lemma OrderedBegin(w: World, s: State, step: Step)
    requires Honest(w, s) && Ordered(s) && step.Begin? && Enabled(s, step) && Calm(w, s, step)
    ensures Ordered(Apply(w, s, step))
  {
    var s' := Apply(w, s, step);
    if Read(s.cache, step.q, s.clock, step.readFails).Some? {
      HitIsHonest(w, s, step.q);
      ForwardAppend(s.served, s'.served[|s.served|]);
    } else {
      assert s'.served == s.served && s'.cache == s.cache;
    }
  }

  lemma OrderedStep(w: World, s: State, step: Step)
    requires Honest(w, s) && Ordered(s) && Enabled(s, step) && Calm(w, s, step)
    ensures Ordered(Apply(w, s, step))
  {
    match step
    case Begin(_, _, _) => OrderedBegin(w, s, step);
    case Finish(id, writeFails) => OrderedFinish(w, s, id, writeFails);
    case Ask(_) =>
      forall i | 0 <= i < |s.served| ensures s.served[i].sampledAt <= s.clock { assert Sound(w, s.served[i]); }
    case _ =>
  }

  /** In a calm run the samples behind the answers to one question never go back,
      whatever else fails. */
  lemma {:induction false} CalmRunsGoForward(w: World, s: State, steps: seq<Step>)
    requires Honest(w, s) && Ordered(s) && Runs(w, s, steps) && CalmRun(w, s, steps)
    ensures Forward(After(w, s, steps).served)
    decreases |steps|
  {
    if steps != [] {
      HonestStep(w, s, steps[0]);
      OrderedStep(w, s, steps[0]);
      CalmRunsGoForward(w, Apply(w, s, steps[0]), steps[1..]);
    }
  }

  /** No cache read fails, and a lookup starts only when none of the same question
      is under way. */
  predicate Plain(s: State, step: Step) {
    step.Begin? ==> !step.readFails && forall id | id in s.calls :: s.calls[id].q != step.q
  }

  ghost predicate PlainRun(w: World, s: State, steps: seq<Step>)
    requires Runs(w, s, steps)
    decreases |steps|
  {
    steps == [] || (Plain(s, steps[0]) && PlainRun(w, Apply(w, s, steps[0]), steps[1..]))
  }

  /** No entry could answer a lookup that is under way. */
  ghost predicate Quiet(s: State) { forall id | id in s.calls :: !Live(s.cache, Key(s.calls[id].q), s.clock) }

  /** A plain step is calm, and nothing but the lookup itself writes under its key. */
  lemma PlainStep(w: World, s: State, step: Step)
    requires Honest(w, s) && Ordered(s) && Quiet(s) && Enabled(s, step) && Plain(s, step)
    ensures Calm(w, s, step) && Quiet(Apply(w, s, step))
  {
    match step
    case Begin(_, q, _) => if Key(q) in s.cache { HitIsHonest(w, s, q); }
    case Finish(id, _) =>
      forall i | i in s.calls && i != id ensures Key(s.calls[i].q) != Key(s.calls[id].q) {
        KeysDistinct(s.calls[i].q, s.calls[id].q);
      }
    case _ =>
  }

  lemma {:induction false} PlainIsCalm(w: World, s: State, steps: seq<Step>)
    requires Honest(w, s) && Ordered(s) && Quiet(s) && Runs(w, s, steps) && PlainRun(w, s, steps)
    ensures CalmRun(w, s, steps)
    decreases |steps|
  {
    if steps != [] {
      PlainStep(w, s, steps[0]);
      HonestStep(w, s, steps[0]);
      OrderedStep(w, s, steps[0]);
      PlainIsCalm(w, Apply(w, s, steps[0]), steps[1..]);
    }
  }

  /** Monotone sampling: when lookups of one question do not overlap and no cache
      read fails, the samples behind its answers never go back. Cache writes and
      requests to GitHub may fail, lookups be given up and entries be evicted at will. */
  lemma MonotoneSampling(w: World, s: State, steps: seq<Step>)
    requires Init(s) && Runs(w, s, steps) && PlainRun(w, s, steps)
    ensures Forward(After(w, s, steps).served)
  {
    PlainIsCalm(w, s, steps);
    CalmRunsGoForward(w, s, steps);
  }

  /** Nothing weaker will do: after a finish that is not calm, with a reply newer
      than the entry it leaves, the very next lookup of the question steps back. */
  lemma UncalmFinishGoesBack(w: World, s: State, id: int, writeFails: bool)
    requires Honest(w, s) && Enabled(s, Finish(id, writeFails)) && !Calm(w, s, Finish(id, writeFails))
    requires s.origin[Key(s.calls[id].q)].at < s.calls[id].at
    ensures var q := s.calls[id].q;
      var steps := [Finish(id, writeFails), Begin(id, q, false)];
      Runs(w, s, steps) && !Forward(After(w, s, steps).served)
  {
    var q := s.calls[id].q;
    var s1 := Apply(w, s, Finish(id, writeFails));
    HitIsHonest(w, s, q);
    assert s1.cache == s.cache && s1.origin == s.origin;
    var b := Begin(id, q, false);
    var s2 := Apply(w, s1, b);
    var n := |s.served|;
    assert Read(s1.cache, q, s1.clock, false).Some?;
    assert s2.served[n].q == q && s2.served[n + 1].q == q;
    assert s2.served[n + 1].sampledAt < s2.served[n].sampledAt;
    RunsOne(w, s, Finish(id, writeFails));
    RunsOne(w, s1, b);
    RunsAppend(w, s, [Finish(id, writeFails)], [b]);
    assert [Finish(id, writeFails)] + [b] == [Finish(id, writeFails), b];
  }

  /** One lookup without faults, from a miss. */
  function FullLookup(id: int, q: Question): seq<Step> { [Begin(id, q, false), Ask(id), Finish(id, false)] }

  const START := State(map[], map[], 0, map[], [])

  lemma FirstLookup(w: World, q: Question)
    requires Clean(q) && ToStore(q.query, w(q, 0)).Some?
    ensures Runs(w, START, FullLookup(0, q))
    ensures var s := After(w, START, FullLookup(0, q));
      && Honest(w, s) && s.clock == 0 && s.calls == map[]
      && Key(q) in s.cache && s.cache[Key(q)].expiresAt == CACHE_TTL && s.origin[Key(q)].at == 0
  {
    var s1 := Apply(w, START, Begin(0, q, false));
    var s2 := Apply(w, s1, Ask(0));
    RunsOne(w, START, Begin(0, q, false));
    RunsOne(w, s1, Ask(0));
    RunsOne(w, s2, Finish(0, false));
    RunsAppend(w, s1, [Ask(0)], [Finish(0, false)]);
    RunsAppend(w, START, [Begin(0, q, false)], [Ask(0)] + [Finish(0, false)]);
    assert [Begin(0, q, false)] + ([Ask(0)] + [Finish(0, false)]) == FullLookup(0, q);
    BoundedStaleness(w, START, FullLookup(0, q));
  }

  /** Such a finish does occur, with no two lookups overlapping: an answer is
      stored, a later read and its write both fail, and the next lookup exposes
      the older answer. */
  lemma FaultsExposeOlderAnswer(w: World, q: Question) returns (steps: seq<Step>)
    requires Clean(q) && ToStore(q.query, w(q, 0)).Some?
    ensures Runs(w, START, steps) && !Forward(After(w, START, steps).served)
  {
    FirstLookup(w, q);
    steps := FullLookup(0, q);
    var s := After(w, START, steps);
    var more := [Tick(1), Begin(0, q, true), Ask(0)];
    var s1 := Apply(w, s, more[0]);
    var s2 := Apply(w, s1, more[1]);
    var s3 := Apply(w, s2, more[2]);
    RunsOne(w, s, more[0]);
    RunsOne(w, s1, more[1]);
    RunsOne(w, s2, more[2]);
    RunsAppend(w, s, [more[0]], [more[1]]);
    RunsAppend(w, s, [more[0]] + [more[1]], [more[2]]);
    assert [more[0]] + [more[1]] + [more[2]] == more;
    RunsAppend(w, START, steps, more);
    BoundedStaleness(w, START, steps + more);
    UncalmFinishGoesBack(w, s3, 0, true);
    RunsAppend(w, START, steps + more, [Finish(0, true), Begin(0, q, false)]);
    steps := steps + more + [Finish(0, true), Begin(0, q, false)];
  }

  /** Two lookups of one question that both reached GitHub, finishing in the wrong order. */
  lemma CrossedFinishesGoBack(w: World, s: State, q: Question, i: int, j: int)
    requires i in s.calls && j in s.calls && i != j && s.calls[i].Replying? && s.calls[j].Replying?
    requires s.calls[i].q == q && s.calls[j].q == q && s.calls[i].at < s.calls[j].at
    ensures var steps := [Finish(j, false), Finish(i, false)];
      Runs(w, s, steps) && !Forward(After(w, s, steps).served)
  {
    var steps := [Finish(j, false), Finish(i, false)];
    var s1 := Apply(w, s, steps[0]);
    var s2 := Apply(w, s1, steps[1]);
    RunsOne(w, s1, steps[1]);
    assert steps[1..] == [steps[1]];
    RunsCons(w, s, steps);
    var n := |s.served|;
    assert s2.served[n + 1].sampledAt < s2.served[n].sampledAt && s2.served[n + 1].q == s2.served[n].q;
  }

  /** Nor can the lookups be let overlap: without any fault, one that asked GitHub
      earlier can answer later. */
  lemma OverlapGoesBack(w: World, q: Question) returns (steps: seq<Step>)
    requires Clean(q)
    ensures Runs(w, START, steps) && !Forward(After(w, START, steps).served)
    ensures forall step | step in steps :: !(step.Begin? && step.readFails) && !(step.Finish? && step.writeFails)
  {
    var ask := [Begin(0, q, false), Begin(1, q, false), Ask(0), Tick(1), Ask(1)];
    var s1 := Apply(w, START, ask[0]);
    var s2 := Apply(w, s1, ask[1]);
    var s3 := Apply(w, s2, ask[2]);
    var s4 := Apply(w, s3, ask[3]);
    var s5 := Apply(w, s4, ask[4]);
    RunsCons(w, s4, ask[4..]);
    RunsCons(w, s3, ask[3..]);
    RunsCons(w, s2, ask[2..]);
    RunsCons(w, s1, ask[1..]);
    RunsCons(w, START, ask);
    CrossedFinishesGoBack(w, s5, q, 0, 1);
    RunsAppend(w, START, ask, [Finish(1, false), Finish(0, false)]);
    steps := ask + [Finish(1, false), Finish(0, false)];
  }

  lemma RunsCons(w: World, s: State, steps: seq<Step>)
    requires steps != [] && Enabled(s, steps[0]) && Runs(w, Apply(w, s, steps[0]), steps[1..])
    ensures Runs(w, s, steps) && After(w, s, steps) == After(w, Apply(w, s, steps[0]), steps[1..])
  {
  }

  // ----- replies written in time -----

  /** A finishing lookup writes its reply within lag of getting it. */
  predicate OnTime(s: State, step: Step, lag: int)
    requires Enabled(s, step)
  {
    step.Finish? ==> s.clock - s.calls[step.id].at <= lag
  }

  /** Every entry was written within lag of GitHub's reply. */
  ghost predicate Prompt(s: State, lag: int) {
    forall key | key in s.cache && key in s.origin :: s.origin[key].recordedAt - s.origin[key].at <= lag
  }

  lemma PromptStep(w: World, s: State, step: Step, lag: int)
    requires Honest(w, s) && Enabled(s, step) && OnTime(s, step, lag) && Prompt(s, lag)
    ensures Prompt(Apply(w, s, step), lag)
  {
    assert forall key | key in s.cache :: HonestEntry(w, s, key);
  }

  ghost predicate OnTimeRun(w: World, s: State, steps: seq<Step>, lag: int)
    requires Runs(w, s, steps)
    decreases |steps|
  {
    steps == [] || (OnTime(s, steps[0], lag) && OnTimeRun(w, Apply(w, s, steps[0]), steps[1..], lag))
  }

  /** Every hit was on an entry written within lag of GitHub's reply. */
  ghost predicate PromptServed(served: seq<Served>, lag: int) {
    forall i | 0 <= i < |served| && served[i].source.FromCache? ::
      served[i].source.recordedAt - served[i].sampledAt <= lag
  }

  lemma PromptServedStep(w: World, s: State, step: Step, lag: int)
    requires Honest(w, s) && Enabled(s, step) && Prompt(s, lag) && PromptServed(s.served, lag)
    ensures PromptServed(Apply(w, s, step).served, lag)
  {
    if step.Begin? && Key(step.q) in s.cache { assert HonestEntry(w, s, Key(step.q)); }
  }

  /** Then an answer rests on a sample not much older than the start of its lookup. */
  lemma SampleBound(w: World, r: Served, lag: nat)
    requires Sound(w, r) && (r.source.FromCache? ==> r.source.recordedAt - r.sampledAt <= lag)
    ensures r.began - CACHE_TTL - lag < r.sampledAt <= r.at
  {
  }

  // ----- replies stored at once -----

  /** The reply behind an answer is one that is stored: no error, and no failure to say. */
  predicate Definite(w: World, r: Served) { ToStore(r.q.query, w(r.q, r.sampledAt)).Some? }

  /** Successive definite answers to one question rest on samples that never go back. */
  ghost predicate ForwardDefinite(w: World, served: seq<Served>) {
    forall i, j | 0 <= i < j < |served| && served[i].q == served[j].q
                  && Definite(w, served[i]) && Definite(w, served[j]) :: served[i].sampledAt <= served[j].sampledAt
  }

  /** No write fails, and none is made later than the reply. */
  predicate AtOnce(s: State, step: Step)
    requires Enabled(s, step)
  {
    step.Finish? ==> !step.writeFails && s.calls[step.id].at == s.clock
  }

  ghost predicate AtOnceRun(w: World, s: State, steps: seq<Step>)
    requires Runs(w, s, steps)
    decreases |steps|
  {
    steps == [] || (AtOnce(s, steps[0]) && AtOnceRun(w, Apply(w, s, steps[0]), steps[1..]))
  }

  /** A readable entry rests on a sample no older than any definite answer. */
  ghost predicate Newest(w: World, s: State) {
    forall i | 0 <= i < |s.served| && Definite(w, s.served[i]) && Live(s.cache, Key(s.served[i].q), s.clock) ::
      Key(s.served[i].q) in s.origin && s.served[i].sampledAt <= s.origin[Key(s.served[i].q)].at
  }

  lemma DefiniteAppend(w: World, served: seq<Served>, r: Served)
    requires ForwardDefinite(w, served)
    requires forall i | 0 <= i < |served| && served[i].q == r.q && Definite(w, served[i]) ::
      served[i].sampledAt <= r.sampledAt
    ensures ForwardDefinite(w, served + [r])
  {
  }

  lemma AtOnceFinish(w: World, s: State, id: int)
    requires Honest(w, s) && ForwardDefinite(w, s.served) && Newest(w, s)
    requires Enabled(s, Finish(id, false)) && AtOnce(s, Finish(id, false))
    ensures var s' := Apply(w, s, Finish(id, false)); ForwardDefinite(w, s'.served) && Newest(w, s')
  {
    var s' := Apply(w, s, Finish(id, false));
    var q := s.calls[id].q;
    forall i | 0 <= i < |s.served| ensures s.served[i].sampledAt <= s.clock && Clean(s.served[i].q) {
      assert Sound(w, s.served[i]);
    }
    DefiniteAppend(w, s.served, s'.served[|s.served|]);
    forall i | 0 <= i < |s'.served| ensures Key(s'.served[i].q) == Key(q) <==> s'.served[i].q == q {
      KeysDistinct(s'.served[i].q, q);
    }
  }

  lemma AtOnceStep(w: World, s: State, step: Step)
    requires Honest(w, s) && ForwardDefinite(w, s.served) && Newest(w, s) && Enabled(s, step) && AtOnce(s, step)
    ensures var s' := Apply(w, s, step); ForwardDefinite(w, s'.served) && Newest(w, s')
  {
    match step
    case Finish(id, _) => AtOnceFinish(w, s, id);
    case Begin(_, q, fails) =>
      if Read(s.cache, q, s.clock, fails).Some? {
        HitIsHonest(w, s, q);
        DefiniteAppend(w, s.served, Apply(w, s, step).served[|s.served|]);
      }
    case _ =>
  }

  lemma {:induction false} AtOnceKeeps(w: World, s: State, steps: seq<Step>)
    requires Honest(w, s) && ForwardDefinite(w, s.served) && Newest(w, s) && Runs(w, s, steps) && AtOnceRun(w, s, steps)
    ensures ForwardDefinite(w, After(w, s, steps).served)
    decreases |steps|
  {
    if steps != [] {
      HonestStep(w, s, steps[0]);
      AtOnceStep(w, s, steps[0]);
      AtOnceKeeps(w, Apply(w, s, steps[0]), steps[1..]);
    }
  }

  /** When every reply is written as soon as it comes and no write fails, the samples
      behind definite answers never go back, though lookups overlap and reads fail. */
  lemma StoredAtOnceGoesForward(w: World, s: State, steps: seq<Step>)
    requires Init(s) && Runs(w, s, steps) && AtOnceRun(w, s, steps)
    ensures ForwardDefinite(w, After(w, s, steps).served)
  {
    AtOnceKeeps(w, s, steps);
  }

  // ----- the client's lookup is a run -----

  lemma UnusedId(calls: map<int, Phase>) returns (id: int)
    ensures id !in calls
  {
    id := BeyondAll(calls.Keys);
  }

  /** A call that starts no earlier than now and keeps its own order. */
  predicate InOrder(now: int, c: Call) { now <= c.readAt <= c.askAt <= c.writeAt }

  /** The steps of a lookup with the times and the faults of a call, under an unused call id. */
  function LookupSteps(s: State, q: Question, id: int, c: Call): seq<Step>
    requires InOrder(s.clock, c)
  {
    [Tick(c.readAt - s.clock)] + ([Begin(id, q, c.readFails)] + AfterRead(s, q, id, c))
  }

  /** A hit is the end of it. */
  function AfterRead(s: State, q: Question, id: int, c: Call): seq<Step>
    requires InOrder(s.clock, c)
  {
    if Read(s.cache, q, c.readAt, c.readFails).Some? then [] else AfterMiss(id, c)
  }

  function AfterMiss(id: int, c: Call): seq<Step>
    requires c.readAt <= c.askAt <= c.writeAt
  {
    [Tick(c.askAt - c.readAt)] + ([Ask(id)] + ([Tick(c.writeAt - c.askAt)] + [Finish(id, c.writeFails)]))
  }

  /** Their effect. */
  function Looked(w: World, s: State, q: Question, c: Call): State {
    match Read(s.cache, q, c.readAt, c.readFails)
    case Some(a) =>
      var o := if Key(q) in s.origin then s.origin[Key(q)] else Sample(q, c.readAt, c.readAt);
      s.(clock := c.readAt,
         served := s.served + [Served(q, a, c.readAt, c.readAt, o.at, FromCache(o.recordedAt))])
    case None =>
      var r := w(q, c.askAt);
      s.(clock := c.writeAt,
         cache := Write(s.cache, q, c.writeAt, r, c.writeFails),
         origin := if !c.writeFails && ToStore(q.query, r).Some? then s.origin[Key(q) := Sample(q, c.askAt, c.writeAt)]
                   else s.origin,
         served := s.served + [Served(q, Uncached(q.query, r), c.readAt, c.writeAt, c.askAt, Fresh)])
  }

  lemma RunsThen(w: World, s: State, step: Step, more: seq<Step>)
    requires Enabled(s, step) && Runs(w, Apply(w, s, step), more)
    ensures Runs(w, s, [step] + more) && After(w, s, [step] + more) == After(w, Apply(w, s, step), more)
  {
    RunsOne(w, s, step);
    RunsAppend(w, s, [step], more);
  }

  /** From the miss on. */
  lemma MissRuns(w: World, s: State, q: Question, id: int, c: Call)
    requires Clean(q) && id !in s.calls && InOrder(s.clock, c)
    requires Read(s.cache, q, c.readAt, c.readFails).None?
    ensures var s1 := s.(clock := c.readAt, calls := s.calls[id := Asking(q, c.readAt)]);
      Runs(w, s1, AfterMiss(id, c)) && After(w, s1, AfterMiss(id, c)) == Looked(w, s, q, c)
  {
    var s1 := s.(clock := c.readAt, calls := s.calls[id := Asking(q, c.readAt)]);
    var s2 := s1.(clock := c.askAt);
    var s3 := s2.(calls := s.calls[id := Replying(q, c.readAt, c.askAt)]);
    var s4 := s3.(clock := c.writeAt);
    assert Apply(w, s2, Ask(id)).calls == s3.calls;
    assert Apply(w, s4, Finish(id, c.writeFails)).calls == s.calls;
    RunsOne(w, s4, Finish(id, c.writeFails));
    RunsThen(w, s3, Tick(c.writeAt - c.askAt), [Finish(id, c.writeFails)]);
    RunsThen(w, s2, Ask(id), [Tick(c.writeAt - c.askAt)] + [Finish(id, c.writeFails)]);
    RunsThen(w, s1, Tick(c.askAt - c.readAt), [Ask(id)] + ([Tick(c.writeAt - c.askAt)] + [Finish(id, c.writeFails)]));
  }

  /** The read is a hit, and the lookup over, or a miss. */
  lemma BeginLeads(w: World, s: State, q: Question, id: int, c: Call)
    requires Clean(q) && id !in s.calls && InOrder(s.clock, c)
    ensures var s1 := Apply(w, s, Tick(c.readAt - s.clock));
      && Enabled(s1, Begin(id, q, c.readFails))
      && Apply(w, s1, Begin(id, q, c.readFails)) ==
           if Read(s.cache, q, c.readAt, c.readFails).Some? then Looked(w, s, q, c)
           else s.(clock := c.readAt, calls := s.calls[id := Asking(q, c.readAt)])
  {
  }

  lemma RunsTwice(w: World, s: State, a: Step, b: Step, more: seq<Step>)
    requires Enabled(s, a) && Enabled(Apply(w, s, a), b) && Runs(w, Apply(w, Apply(w, s, a), b), more)
    ensures Runs(w, s, [a] + ([b] + more))
    ensures After(w, s, [a] + ([b] + more)) == After(w, Apply(w, Apply(w, s, a), b), more)
  {
    RunsThen(w, Apply(w, s, a), b, more);
    RunsThen(w, s, a, [b] + more);
  }

  lemma ReadLeadsOn(w: World, s: State, q: Question, id: int, c: Call)
    requires Clean(q) && id !in s.calls && InOrder(s.clock, c)
    ensures var (tick, begin) := (Tick(c.readAt - s.clock), Begin(id, q, c.readFails));
      && Enabled(Apply(w, s, tick), begin)
      && var s2 := Apply(w, Apply(w, s, tick), begin);
      && Runs(w, s2, AfterRead(s, q, id, c)) && After(w, s2, AfterRead(s, q, id, c)) == Looked(w, s, q, c)
  {
    BeginLeads(w, s, q, id, c);
    if Read(s.cache, q, c.readAt, c.readFails).None? { MissRuns(w, s, q, id, c); }
  }

  /** What the client does in one piece - and proves of its code - is a run of the
      step relation, for any times and any faults: the same cache afterwards, and
      one more answer served, the client's. */
  lemma LookupIsRun(w: World, s: State, q: Question, id: int, c: Call) returns (steps: seq<Step>)
    requires Clean(q) && id !in s.calls && InOrder(s.clock, c)
    ensures Runs(w, s, steps) && After(w, s, steps) == Looked(w, s, q, c)
    ensures steps == LookupSteps(s, q, id, c)
    ensures var s' := Looked(w, s, q, c);
      && (Some(s'.cache), s'.served[|s.served|].answer) == Lookup(Some(s.cache), w, q, c)
      && |s'.served| == |s.served| + 1 && s'.served[..|s.served|] == s.served && s'.served[|s.served|].q == q
      && s'.calls == s.calls
  {
    ReadLeadsOn(w, s, q, id, c);
    RunsTwice(w, s, Tick(c.readAt - s.clock), Begin(id, q, c.readFails), AfterRead(s, q, id, c));
    steps := [Tick(c.readAt - s.clock)] + ([Begin(id, q, c.readFails)] + AfterRead(s, q, id, c));
  }

  lemma OnTimeThen(w: World, s: State, step: Step, more: seq<Step>, lag: int)
    requires Enabled(s, step) && Runs(w, Apply(w, s, step), more)
    requires OnTime(s, step, lag) && OnTimeRun(w, Apply(w, s, step), more, lag)
    ensures Runs(w, s, [step] + more) && OnTimeRun(w, s, [step] + more, lag)
  {
    assert ([step] + more)[1..] == more;
  }

  lemma MissOnTime(w: World, s: State, q: Question, id: int, c: Call, lag: int)
    requires Clean(q) && id !in s.calls && InOrder(s.clock, c) && c.writeAt - c.askAt <= lag
    requires Read(s.cache, q, c.readAt, c.readFails).None?
    ensures var s1 := s.(clock := c.readAt, calls := s.calls[id := Asking(q, c.readAt)]);
      Runs(w, s1, AfterMiss(id, c)) && OnTimeRun(w, s1, AfterMiss(id, c), lag)
  {
    var s1 := s.(clock := c.readAt, calls := s.calls[id := Asking(q, c.readAt)]);
    var s2 := s1.(clock := c.askAt);
    var s3 := s2.(calls := s.calls[id := Replying(q, c.readAt, c.askAt)]);
    var s4 := s3.(clock := c.writeAt);
    assert Apply(w, s2, Ask(id)).calls == s3.calls;
    OnTimeThen(w, s4, Finish(id, c.writeFails), [], lag);
    assert [Finish(id, c.writeFails)] + [] == [Finish(id, c.writeFails)];
    OnTimeThen(w, s3, Tick(c.writeAt - c.askAt), [Finish(id, c.writeFails)], lag);
    OnTimeThen(w, s2, Ask(id), [Tick(c.writeAt - c.askAt)] + [Finish(id, c.writeFails)], lag);
    OnTimeThen(w, s1, Tick(c.askAt - c.readAt),
               [Ask(id)] + ([Tick(c.writeAt - c.askAt)] + [Finish(id, c.writeFails)]), lag);
  }

  lemma LookupOnTime(w: World, s: State, q: Question, id: int, c: Call, lag: int, steps: seq<Step>)
    requires Clean(q) && id !in s.calls && InOrder(s.clock, c) && c.writeAt - c.askAt <= lag
    requires steps == LookupSteps(s, q, id, c)
    ensures Runs(w, s, steps) && OnTimeRun(w, s, steps, lag)
  {
    var tick, begin := Tick(c.readAt - s.clock), Begin(id, q, c.readFails);
    ReadLeadsOn(w, s, q, id, c);
    BeginLeads(w, s, q, id, c);
    if Read(s.cache, q, c.readAt, c.readFails).None? { MissOnTime(w, s, q, id, c, lag); }
    OnTimeThen(w, Apply(w, s, tick), begin, AfterRead(s, q, id, c), lag);
    OnTimeThen(w, s, tick, [begin] + AfterRead(s, q, id, c), lag);
  }

  /** So the client's own answer is sound, wherever the shared cache has been:
      GitHub gave it, during this lookup or, recorded less than CACHE_TTL ago, before. */
  lemma LookupIsSound(w: World, s: State, q: Question, id: int, c: Call)
    requires Honest(w, s) && Clean(q) && id !in s.calls && InOrder(s.clock, c)
    ensures Honest(w, Looked(w, s, q, c))
    ensures var r := Looked(w, s, q, c).served[|s.served|];
      && Sound(w, r) && r.q == q && r.answer == Lookup(Some(s.cache), w, q, c).1
      && c.readAt <= r.at <= c.writeAt
  {
    var steps := LookupIsRun(w, s, q, id, c);
    BoundedStaleness(w, s, steps);
    assert Looked(w, s, q, c).served[|s.served|] in Looked(w, s, q, c).served;
  }

  // ----- lookups that take no time -----

  function Instantly(now: int): Call { Call(now, now, now, false, false) }

  /** What a lookup without faults answers at this moment. */
  function AnswerNow(w: World, s: State, q: Question): Answer {
    Lookup(Some(s.cache), w, q, Instantly(s.clock)).1
  }

  /** A lookup that takes no time leaves every answer of the moment as it was. */
  lemma LookedKeepsAnswers(w: World, s: State, q: Question, p: Question)
    requires Clean(p) && Clean(q)
    ensures AnswerNow(w, Looked(w, s, q, Instantly(s.clock)), p) == AnswerNow(w, s, p)
  {
    KeysDistinct(p, q);
    StoredRepeatsAnswer(q.query, w(q, s.clock));
  }
}

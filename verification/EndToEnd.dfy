/** From a release on GitHub to the event: passes on a schedule, over the shared
    cache, with the API at work in between. Passes take no time; every call of
    theirs can fail. The API's lookups can be slow and fail, but write a reply
    within lag of getting it. */
module EndToEnd {
  import opened Common
  import opened Domain
  import opened SubscriptionTable
  import opened ScanPass
  import opened Bags
  import GitHub
  import Cache = CacheProtocol
  import Scanner

  /** Fifteen minutes. */
  const DEFAULT_INTERVAL := 900_000

  function EffectiveInterval(interval: int): int { if interval <= 0 then DEFAULT_INTERVAL else interval }

  /** The interval as configured, or a quarter of an hour. */
  lemma IntervalIs(interval: int)
    ensures EffectiveInterval(interval) == if interval > 0 then interval else 15 * 60 * 1000
  {
  }

  datatype Config = Config(world: GitHub.World, interval: int, lag: nat)

  /** due is the time of the next pass. */
  datatype Sys = Sys(db: Table, log: seq<Entry>, net: Cache.State, due: int)

  datatype Act =
    | Net(step: Cache.Step)
    | Api(next: Table)
    | Pass(subs: seq<Subscription>, order: seq<string>, calls: Scanner.Calls, faults: Faults)
    | Unlisted

  /** The lookups of a pass take no time; which of their cache operations fail is open. */
  ghost predicate Instant(calls: Scanner.Calls, now: int) {
    forall owner: string, name: string ::
      var call := calls(owner, name);
      call.readAt == now && call.askAt == now && call.writeAt == now
  }

  /** What the API may do to the table: anything its statements do. */
  ghost predicate ApiMove(t: Table, t': Table) {
    && Valid(t') && AllWellFormed(t')
    && t.nextId <= t'.nextId && (forall id | id in t'.rows :: id in t.rows || id >= t.nextId)
    && forall id | id in t.rows && id in t'.rows ::
         && SameIdentity(t'.rows[id], t.rows[id]) && t'.rows[id].lastSeenTag == t.rows[id].lastSeenTag
         && (t.rows[id].confirmed ==> t'.rows[id].confirmed)
  }

  lemma InsertIsApiMove(t: Table, p: Params)
    requires Valid(t) && AllWellFormed(t) && WellFormed(NewRow(t.nextId, p))
    ensures ApiMove(t, Insert(t, p).0)
  {
    InsertKeeps(t, p);
    InsertKeepsShape(t, p);
  }

  lemma ConfirmIsApiMove(t: Table, token: string)
    requires Valid(t) && AllWellFormed(t)
    ensures ApiMove(t, Confirm(t, token))
  {
    ConfirmKeeps(t, token);
  }

  lemma DeletesAreApiMoves(t: Table, id: int, token: string)
    requires Valid(t) && AllWellFormed(t)
    ensures ApiMove(t, Delete(t, id)) && ApiMove(t, Unsubscribe(t, token))
  {
    DeletesKeep(t, id, token);
  }

  lemma StatementsAreApiMoves(t: Table, p: Params, id: int, token: string)
    requires Valid(t) && AllWellFormed(t) && WellFormed(NewRow(t.nextId, p))
    ensures ApiMove(t, Insert(t, p).0) && ApiMove(t, Delete(t, id))
    ensures ApiMove(t, Confirm(t, token)) && ApiMove(t, Unsubscribe(t, token))
  {
    InsertIsApiMove(t, p);
    ConfirmIsApiMove(t, token);
    DeletesAreApiMoves(t, id, token);
  }

  ghost predicate Enabled(c: Config, s: Sys, act: Act) {
    match act
    case Net(step) =>
      && Cache.Enabled(s.net, step)
      && (step.Tick? ==> s.net.clock + step.d <= s.due)
      && Cache.OnTime(s.net, step, c.lag)
    case Api(next) => ApiMove(s.db, next)
    case Pass(subs, order, calls, _) =>
      s.net.clock == s.due && IsSnapshot(s.db, subs) && IsOrder(order, subs) && Instant(calls, s.net.clock)
    case Unlisted => s.net.clock == s.due
  }

  /** The answers of a pass at this moment. */
  function AnswersNow(c: Config, net: Cache.State, calls: Scanner.Calls): Answers {
    Scanner.AnswersOf(Some(net.cache), c.world, calls)
  }

  /** What the pass's lookup for a row's repository answers. */
  function AnswerNow(c: Config, net: Cache.State, calls: Scanner.Calls, q: GitHub.Question): GitHub.Answer {
    GitHub.Lookup(Some(net.cache), c.world, q, calls(q.owner, q.name)).1
  }

  lemma AnswerForRow(c: Config, net: Cache.State, calls: Scanner.Calls, x: Subscription)
    ensures AnswerFor(x, AnswersNow(c, net, calls))
      == Scanner.ToResult(AnswerNow(c, net, calls, Scanner.QuestionFor(x)))
  {
  }

  function LookUpAll(c: Config, net: Cache.State, calls: Scanner.Calls, subs: seq<Subscription>): Cache.State {
    if subs == [] then net
    else
      var n := |subs| - 1;
      Cache.Looked(c.world, LookUpAll(c, net, calls, subs[..n]), Scanner.QuestionFor(subs[n]),
                   calls(subs[n].repoOwner, subs[n].repoName))
  }

  function Apply(c: Config, s: Sys, act: Act): Sys
    requires Enabled(c, s, act)
  {
    match act
    case Net(step) => s.(net := Cache.Apply(c.world, s.net, step))
    case Api(next) => s.(db := next)
    case Pass(subs, order, calls, faults) =>
      var ans := AnswersNow(c, s.net, calls);
      Sys(RunTable(s.db, Grouped(order, subs), ans, faults),
          s.log + RunLog(Grouped(order, subs), ans, faults),
          LookUpAll(c, s.net, calls, Heads(order, subs)),
          s.due + EffectiveInterval(c.interval))
    case Unlisted => s.(due := s.due + EffectiveInterval(c.interval))
  }

  ghost predicate Runs(c: Config, s: Sys, acts: seq<Act>)
    decreases |acts|
  {
    acts == [] || (Enabled(c, s, acts[0]) && Runs(c, Apply(c, s, acts[0]), acts[1..]))
  }

  ghost function After(c: Config, s: Sys, acts: seq<Act>): Sys
    requires Runs(c, s, acts)
    decreases |acts|
  {
    if acts == [] then s else After(c, Apply(c, s, acts[0]), acts[1..])
  }

  // ----- the invariant -----

  ghost predicate Inv(c: Config, s: Sys) {
    && Valid(s.db) && AllWellFormed(s.db)
    && Cache.Honest(c.world, s.net) && Cache.Prompt(s.net, c.lag)
    && s.net.clock <= s.due
  }

  lemma LookedKeeps(c: Config, net: Cache.State, q: GitHub.Question, call: GitHub.Call)
    requires Cache.Honest(c.world, net) && Cache.Prompt(net, c.lag) && GitHub.Clean(q)
    requires call.readAt == net.clock && call.askAt == net.clock && call.writeAt == net.clock
    ensures var net' := Cache.Looked(c.world, net, q, call);
      Cache.Honest(c.world, net') && Cache.Prompt(net', c.lag) && net'.clock == net.clock
  {
    var id := Cache.UnusedId(net.calls);
    Cache.LookupIsSound(c.world, net, q, id, call);
  }

  lemma {:induction false} LookUpAllKeeps(c: Config, net: Cache.State, calls: Scanner.Calls, subs: seq<Subscription>)
    requires Cache.Honest(c.world, net) && Cache.Prompt(net, c.lag) && Instant(calls, net.clock)
    requires forall x | x in subs :: WellFormed(x)
    ensures var net' := LookUpAll(c, net, calls, subs);
      Cache.Honest(c.world, net') && Cache.Prompt(net', c.lag) && net'.clock == net.clock
  {
    if subs != [] {
      var n := |subs| - 1;
      assert subs[n] in subs;
      LookUpAllKeeps(c, net, calls, subs[..n]);
      LookedKeeps(c, LookUpAll(c, net, calls, subs[..n]), Scanner.QuestionFor(subs[n]),
                  calls(subs[n].repoOwner, subs[n].repoName));
    }
  }

  lemma {:induction false} CacheAfterLookUps(c: Config, net: Cache.State, calls: Scanner.Calls, subs: seq<Subscription>)
    ensures Scanner.CacheAfter(Some(net.cache), c.world, calls, subs) == Some(LookUpAll(c, net, calls, subs).cache)
  {
    if subs != [] { CacheAfterLookUps(c, net, calls, subs[..|subs| - 1]); }
  }

  /** Within a pass a lookup answers what it would have answered first, so the
      answers of the moment are those of the pass. */
  lemma AnswersHold(c: Config, net: Cache.State, calls: Scanner.Calls, subs: seq<Subscription>, q: GitHub.Question)
    requires GitHub.Clean(q) && forall x | x in subs :: WellFormed(x) && Scanner.QuestionFor(x) != q
    ensures AnswerNow(c, LookUpAll(c, net, calls, subs), calls, q) == AnswerNow(c, net, calls, q)
  {
    CacheAfterLookUps(c, net, calls, subs);
    Scanner.CacheAfterKeeps(Some(net.cache), c.world, calls, subs, q);
    GitHub.LookupIsLocal(Some(LookUpAll(c, net, calls, subs).cache), Some(net.cache), c.world, q,
                         calls(q.owner, q.name), GitHub.Key(q));
  }

  // ----- the pass is the scanner's -----

  /** What a pass appends to the accepted events. */
  lemma PassAppends(c: Config, s: Sys, act: Act)
    requires Enabled(c, s, act) && act.Pass?
    ensures Apply(c, s, act).log[|s.log|..] ==
      RunLog(Grouped(act.order, act.subs), AnswersNow(c, s.net, act.calls), act.faults)
  {
  }

  /** What the scanner's RunOnce promises, started on the table and the cache of
      this state at its time, with any faults, is a pass of the run: the same table,
      the same events, the same cache, and every group answered in turn as at the
      start of the pass. */
  lemma PassIsRunOnce(c: Config, s: Sys, subs: seq<Subscription>, order: seq<string>, w: Scanner.PassWorld,
                      v: Scanner.View, v': Scanner.View)
    requires Inv(c, s) && s.net.clock == s.due && IsSnapshot(s.db, subs) && v.table == s.db
    requires !w.listing.Fails() && Instant(w.calls, s.net.clock)
    requires Scanner.PassResult(v, v', subs, order, Scanner.AnswersOf(Some(s.net.cache), c.world, w.calls), w.faults)
    ensures Enabled(c, s, Pass(subs, order, w.calls, w.faults))
    ensures var s' := Apply(c, s, Pass(subs, order, w.calls, w.faults));
      && s'.db == v'.table
      && v'.accepted == v.accepted + Scanner.Messages(s'.log[|s.log|..])
      && Some(s'.net.cache) == Scanner.CacheAfter(Some(s.net.cache), c.world, w.calls, Heads(order, subs))
    ensures forall i | 0 <= i < |order| ::
      var before := LookUpAll(c, s.net, w.calls, Heads(order[..i], subs));
      forall x | x in Keep(subs, {order[i]}) ::
        Scanner.ToResult(AnswerNow(c, before, w.calls, Scanner.QuestionFor(x)))
          == AnswerFor(x, AnswersNow(c, s.net, w.calls))
  {
    PassAppends(c, s, Pass(subs, order, w.calls, w.faults));
    GroupingRefinesPlainLoop(s.db, order, subs, AnswersNow(c, s.net, w.calls), w.faults);
    CacheAfterLookUps(c, s.net, w.calls, Heads(order, subs));
    forall i, x | 0 <= i < |order| && x in Keep(subs, {order[i]})
      ensures Scanner.ToResult(AnswerNow(c, LookUpAll(c, s.net, w.calls, Heads(order[..i], subs)), w.calls,
                                         Scanner.QuestionFor(x)))
        == AnswerFor(x, AnswersNow(c, s.net, w.calls))
    {
      Scanner.GroupAsksAnew(subs, order, i, x);
      AnswersHold(c, s.net, w.calls, Heads(order[..i], subs), Scanner.QuestionFor(x));
    }
  }

  lemma Preserved(c: Config, s: Sys, act: Act)
    requires Inv(c, s) && Enabled(c, s, act)
    ensures Inv(c, Apply(c, s, act))
  {
    match act
    case Net(step) => NetKeeps(c, s, step);
    case Api(_) =>
    case Pass(_, _, _, _) => PassKeepsInv(c, s, act);
    case Unlisted =>
  }

  lemma NetKeeps(c: Config, s: Sys, step: Cache.Step)
    requires Inv(c, s) && Enabled(c, s, Net(step))
    ensures Inv(c, Apply(c, s, Net(step)))
  {
    Cache.HonestStep(c.world, s.net, step);
    Cache.PromptStep(c.world, s.net, step, c.lag);
  }

  lemma PassKeepsInv(c: Config, s: Sys, act: Act)
    requires Inv(c, s) && Enabled(c, s, act) && act.Pass?
    ensures Inv(c, Apply(c, s, act))
  {
    HeadsAreMembers(act.order, act.subs);
    LookUpAllKeeps(c, s.net, act.calls, Heads(act.order, act.subs));
    PassKeeps(s.db, Grouped(act.order, act.subs), AnswersNow(c, s.net, act.calls), act.faults);
  }

  // ----- what a pass reads and delivers -----

  /** GitHub fails to say, at a time, what it would say of q. */
  predicate Unsure(w: GitHub.World, q: GitHub.Question, t: int) { Cache.Transient(q.query, w(q, t)) }

  /** A tag that has been the latest for longer than an entry can live, transient
      errors aside, is what a pass reads at a moment at which GitHub answers. */
  lemma PassReads(c: Config, s: Sys, calls: Scanner.Calls, q: GitHub.Question, tag: string)
    requires Inv(c, s) && GitHub.Clean(q) && Instant(calls, s.net.clock)
    requires Cache.Steady(c.world, q, GitHub.Tag(tag), s.net.clock - GitHub.CACHE_TTL - c.lag + 1, s.net.clock)
    requires !Unsure(c.world, q, s.net.clock)
    ensures AnswerNow(c, s.net, calls, q) == GitHub.Tag(tag)
  {
    if GitHub.Key(q) in s.net.cache {
      Cache.HitIsHonest(c.world, s.net, q);
      assert Cache.HonestEntry(c.world, s.net, GitHub.Key(q));
      GitHub.StoredRepeatsAnswer(q.query, c.world(q, s.net.origin[GitHub.Key(q)].at));
    }
  }

  lemma {:induction false} EventsOfAreAccepted(log: seq<Entry>, id: int)
    ensures forall e | e in EventsOf(log, id) :: e in log
  {
    if log != [] { EventsOfAreAccepted(log[..|log| - 1], id); }
  }

  /** The row holds the tag afterwards, and an event was accepted for it now unless
      it held the tag before. */
  ghost predicate RowServed(t: Table, t': Table, accepted: seq<Entry>, id: int, tag: string)
    requires id in t.rows
  {
    && id in t'.rows && t'.rows[id] == t.rows[id].(lastSeenTag := tag)
    && (t.rows[id].lastSeenTag != tag ==> Entry(id, EventFor(t.rows[id], tag)) in accepted)
    && (t.rows[id].lastSeenTag == tag ==> forall e | e in accepted :: e.id != id)
  }

  /** The pass serves every confirmed row of the repository whose saga, if it has
      one, goes through. */
  ghost predicate Delivers(c: Config, s: Sys, act: Act, q: GitHub.Question, tag: string)
    requires Enabled(c, s, act) && act.Pass?
  {
    var s' := Apply(c, s, act);
    forall id | id in s.db.rows && s.db.rows[id].confirmed && Scanner.QuestionFor(s.db.rows[id]) == q
                && (s.db.rows[id].lastSeenTag != tag ==> Sent(act.faults(id))) ::
      RowServed(s.db, s'.db, s'.log[|s.log|..], id, tag)
  }

  lemma EventsOfNone(log: seq<Entry>, id: int)
    requires EventsOf(log, id) == []
    ensures forall e | e in log :: e.id != id
  {
    if log != [] { EventsOfNone(log[..|log| - 1], id); }
  }

  lemma RowIsServed(t: Table, all: seq<Subscription>, ans: Answers, fs: Faults, id: int, tag: string)
    requires DistinctIds(all) && id in t.rows && t.rows[id].id == id && t.rows[id] in all && tag != ""
    requires AnswerFor(t.rows[id], ans) == Ok(tag) && (t.rows[id].lastSeenTag != tag ==> Sent(fs(id)))
    ensures RowServed(t, RunTable(t, all, ans, fs), RunLog(all, ans, fs), id, tag)
  {
    var row := t.rows[id];
    var log := RunLog(all, ans, fs);
    var k :| 0 <= k < |all| && all[k] == row;
    RowTouchedOnce(t, all, ans, fs, k);
    EventsOfOneSaga(all, ans, fs, k);
    if row.lastSeenTag != tag {
      EventsOfAreAccepted(log, id);
      assert Out(row, Ok(tag), fs(id))[0] in EventsOf(log, id);
    } else {
      EventsOfNone(log, id);
    }
  }

  /** Every confirmed row for which the lookup gives the tag is served, in any order of the groups. */
  lemma SnapshotIsServed(t: Table, subs: seq<Subscription>, order: seq<string>, ans: Answers, fs: Faults, id: int,
                         tag: string)
    requires Valid(t) && IsSnapshot(t, subs) && IsOrder(order, subs)
    requires id in t.rows && t.rows[id].confirmed && tag != "" && AnswerFor(t.rows[id], ans) == Ok(tag)
    requires t.rows[id].lastSeenTag != tag ==> Sent(fs(id))
    ensures var all := Grouped(order, subs);
      RowServed(t, RunTable(t, all, ans, fs), RunLog(all, ans, fs), id, tag)
  {
    var all := Grouped(order, subs);
    GroupedPermutes(order, subs);
    SameMembers(all, subs);
    PermutedDistinct(subs, all);
    RowIsServed(t, all, ans, fs, id, tag);
  }

  lemma PassDelivers(c: Config, s: Sys, act: Act, q: GitHub.Question, tag: string)
    requires Inv(c, s) && Enabled(c, s, act) && act.Pass? && tag != ""
    requires AnswerNow(c, s.net, act.calls, q) == GitHub.Tag(tag) && q.query.Latest?
    ensures Delivers(c, s, act, q, tag)
  {
    var ans := AnswersNow(c, s.net, act.calls);
    PassAppends(c, s, act);
    forall id | id in s.db.rows && s.db.rows[id].confirmed && Scanner.QuestionFor(s.db.rows[id]) == q
                && (s.db.rows[id].lastSeenTag != tag ==> Sent(act.faults(id)))
      ensures RowServed(s.db, RunTable(s.db, Grouped(act.order, act.subs), ans, act.faults),
                        RunLog(Grouped(act.order, act.subs), ans, act.faults), id, tag)
    {
      AnswerForRow(c, s.net, act.calls, s.db.rows[id]);
      SnapshotIsServed(s.db, act.subs, act.order, ans, act.faults, id, tag);
    }
  }

  // ----- the bound -----

  /** A run that outlasts the window contains a pass in it. */
  lemma {:induction false} PassInWindow(c: Config, s: Sys, acts: seq<Act>, from: int) returns (i: nat)
    requires Inv(c, s) && Runs(c, s, acts)
    requires var interval := if c.interval > 0 then c.interval else 15 * 60 * 1000;
      s.due < from + interval && After(c, s, acts).net.clock >= from + interval
    ensures i < |acts| && (acts[i].Pass? || acts[i].Unlisted?) && Runs(c, s, acts[..i])
    ensures var s1 := After(c, s, acts[..i]);
      && Inv(c, s1) && Enabled(c, s1, acts[i])
      && from <= s1.net.clock < from + if c.interval > 0 then c.interval else 15 * 60 * 1000
    decreases |acts|
  {
    assert acts != [];
    if (acts[0].Pass? || acts[0].Unlisted?) && s.net.clock >= from {
      i := 0;
      assert acts[..0] == [];
    } else {
      Preserved(c, s, acts[0]);
      var s1 := Apply(c, s, acts[0]);
      var j := PassInWindow(c, s1, acts[1..], from);
      i := j + 1;
      assert acts[..i][0] == acts[0] && acts[..i][1..] == acts[1..][..j];
    }
  }

  /** A non-empty tag that becomes the latest at time released and, transient errors
      aside, stays it for the life of a cache entry, the lag and one interval: a pass
      comes in the last interval of that span, and unless it cannot list the
      subscriptions or GitHub fails to answer at that very moment, it delivers the
      tag to every confirmed subscriber of the repository whose saga goes through. */
  lemma DeliveredInTime(c: Config, s: Sys, acts: seq<Act>, q: GitHub.Question, tag: string, released: int)
    returns (i: nat)
    requires Inv(c, s) && Runs(c, s, acts)
    requires GitHub.Clean(q) && q.query.Latest? && tag != ""
    requires var interval := if c.interval > 0 then c.interval else 15 * 60 * 1000;
      var end := released + 10 * 60 * 1000 + c.lag + interval;
      && s.due < end && After(c, s, acts).net.clock >= end
      && Cache.Steady(c.world, q, GitHub.Tag(tag), released, end - 1)
    ensures i < |acts| && (acts[i].Pass? || acts[i].Unlisted?) && Runs(c, s, acts[..i])
    ensures var s1 := After(c, s, acts[..i]);
      var from := released + 10 * 60 * 1000 + c.lag;
      && from <= s1.net.clock < from + (if c.interval > 0 then c.interval else 15 * 60 * 1000)
      && Enabled(c, s1, acts[i])
      && (acts[i].Pass? && !Unsure(c.world, q, s1.net.clock) ==> Delivers(c, s1, acts[i], q, tag))
  {
    var from := released + GitHub.CACHE_TTL + c.lag;
    i := PassInWindow(c, s, acts, from);
    var s1 := After(c, s, acts[..i]);
    if acts[i].Pass? && !Unsure(c.world, q, s1.net.clock) {
      PassReads(c, s1, acts[i].calls, q, tag);
      PassDelivers(c, s1, acts[i], q, tag);
    }
  }
}

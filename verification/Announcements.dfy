/** What a subscriber is told over time: the saga's step relation and the cache's,
    side by side. Every lookup is steps of the cache protocol, slow or quick, failing
    or not; the scanner and Subscribe use the answers that were served to them. The
    scanner's steps, the API's, faults and crashes interleave as in ReleaseProtocol.

    next and current say where the scanner is in its answers. looked, seeds, from,
    before and uses record which served answer is behind what, for the statements. */
module Announcements {
  import opened Common
  import opened Domain
  import opened SubscriptionTable
  import opened ScanPass
  import GitHub
  import Cache = CacheProtocol
  import Release = ReleaseProtocol
  import Names
  import Scanner

  datatype Sys = Sys(
    rel: Release.State,
    net: Cache.State,
    next: nat,             // the scanner's next answer is served no earlier than this one
    current: nat,          // the answer the current group was given
    looked: set<nat>,      // the answers that gave the scanner a tag
    seeds: map<int, nat>,  // the answer a row was seeded with
    from: map<int, nat>,   // the answer behind the tag last written for an id
    before: nat,           // the same for the row in the window, before its update
    uses: seq<nat>)        // the answer behind each accepted event

  datatype Act =
    | Net(step: Cache.Step)
    | Db(move: Release.Step)
    | Subscribe(p: Params, i: nat)
    | Looks(repo: string, i: nat)

  const START := Sys(Release.START, Cache.START, 0, 0, {}, map[], map[], 0, [])

  /** The served answer names tag as the latest of q. */
  predicate Says(net: Cache.State, j: nat, q: GitHub.Question, tag: string) {
    j < |net.served| && net.served[j].q == q && net.served[j].answer == GitHub.Tag(tag)
  }

  function QuestionOf(p: Params): GitHub.Question { GitHub.Question(GitHub.Latest, p.repoOwner, p.repoName) }

  /** A row is seeded with a served answer, and a group is given the answer to the
      question about its first member, served after the snapshot and after the
      answers of the groups before. */
  ghost predicate Enabled(s: Sys, act: Act) {
    match act
    case Net(step) => Cache.Enabled(s.net, step)
    case Db(move) => !move.Insert? && !move.Lookup? && Release.Enabled(s.rel, move)
    case Subscribe(p, i) => WellFormed(NewRow(s.rel.db.nextId, p)) && Says(s.net, i, QuestionOf(p), p.lastSeenTag)
    case Looks(repo, i) =>
      && s.rel.pc.Choosing? && repo in s.rel.pc.left && s.next <= i < |s.net.served|
      && Keep(s.rel.snapshot, {repo}) != []
      && s.net.served[i].q == Scanner.QuestionFor(Keep(s.rel.snapshot, {repo})[0])
  }

  function At(m: map<int, nat>, id: int): nat { if id in m then m[id] else 0 }

  function ApplyDb(s: Sys, move: Release.Step): Sys
    requires Enabled(s, Db(move))
  {
    var s' := s.(rel := Release.Apply(s.rel, move));
    match move
    case Begin(_) => s'.(next := |s.net.served|)
    case Update(o) =>
      var id := s.rel.pc.rest[0].id;
      if o.Applied() then s'.(before := At(s.from, id), from := s.from[id := s.current]) else s'
    case Publish(accepted) => if accepted then s'.(uses := s.uses + [s.current]) else s'
    case Compensate(o) => if o.Applied() then s'.(from := s.from[s.rel.pc.sub.id := s.before]) else s'
    case _ => s'
  }

  function ApplySubscribe(s: Sys, p: Params, i: nat): Sys {
    var s' := s.(rel := Release.Apply(s.rel, Release.Insert(p)));
    var r := Insert(s.rel.db, p).1;
    if r.Ok? then s'.(seeds := s.seeds[r.value.id := i], from := s.from[r.value.id := i]) else s'
  }

  function ApplyLooks(s: Sys, repo: string, i: nat): Sys
    requires Enabled(s, Looks(repo, i))
  {
    var answer := s.net.served[i].answer;
    s.(rel := Release.Apply(s.rel, Release.Lookup(repo, Scanner.ToResult(answer))),
       next := i + 1, current := i, looked := if answer.Tag? then s.looked + {i} else s.looked)
  }

  function Apply(w: GitHub.World, s: Sys, act: Act): Sys
    requires Enabled(s, act)
  {
    match act
    case Net(step) => s.(net := Cache.Apply(w, s.net, step))
    case Db(move) => ApplyDb(s, move)
    case Subscribe(p, i) => ApplySubscribe(s, p, i)
    case Looks(repo, i) => ApplyLooks(s, repo, i)
  }

  ghost predicate Runs(w: GitHub.World, s: Sys, acts: seq<Act>)
    decreases |acts|
  {
    acts == [] || (Enabled(s, acts[0]) && Runs(w, Apply(w, s, acts[0]), acts[1..]))
  }

  ghost function After(w: GitHub.World, s: Sys, acts: seq<Act>): Sys
    requires Runs(w, s, acts)
    decreases |acts|
  {
    if acts == [] then s else After(w, Apply(w, s, acts[0]), acts[1..])
  }

  // ----- what holds of all rows -----

  predicate InGroup(pc: Release.Pc) { pc.InGroup? || Release.InWindow(pc) }

  /** The members of the current group that are not done with. */
  predicate Member(rel: Release.State, x: Subscription) {
    InGroup(rel.pc) && (x in rel.pc.rest || (Release.InWindow(rel.pc) && x == rel.pc.sub))
  }

  ghost predicate SeedsInv(s: Sys) {
    && s.seeds.Keys == s.rel.origin.Keys && s.seeds.Keys <= s.from.Keys
    && forall id | id in s.seeds ::
      && WellFormed(s.rel.origin[id])
      && Says(s.net, s.seeds[id], Scanner.QuestionFor(s.rel.origin[id]), s.rel.origin[id].lastSeenTag)
  }

  ghost predicate ScanInv(s: Sys) {
    && s.next <= |s.net.served|
    && (forall j | j in s.looked :: j < s.next && s.net.served[j].answer.Tag?)
    && (!s.rel.pc.Idle? ==> forall x | x in s.rel.snapshot :: x.id in s.seeds && s.seeds[x.id] < s.next)
    && (InGroup(s.rel.pc) ==>
          && s.current in s.looked
          && forall x | Member(s.rel, x) :: Says(s.net, s.current, Scanner.QuestionFor(x), s.rel.pc.tag))
  }

  ghost predicate Sane(w: GitHub.World, s: Sys) {
    Release.Inv(s.rel) && Cache.Honest(w, s.net) && SeedsInv(s) && ScanInv(s) && |s.uses| == |s.rel.log|
  }

  lemma ServedGrows(w: GitHub.World, net: Cache.State, step: Cache.Step)
    requires Cache.Enabled(net, step)
    ensures var net' := Cache.Apply(w, net, step);
      |net.served| <= |net'.served| && forall j | 0 <= j < |net.served| :: net'.served[j] == net.served[j]
  {
  }

  lemma NetSane(w: GitHub.World, s: Sys, step: Cache.Step)
    requires Sane(w, s) && Enabled(s, Net(step))
    ensures Sane(w, Apply(w, s, Net(step)))
  {
    Cache.HonestStep(w, s.net, step);
    ServedGrows(w, s.net, step);
  }

  /** The ids of the snapshot are ids of inserted rows. */
  lemma SnapshotSeeded(s: Sys, subs: seq<Subscription>)
    requires Release.RowsInv(s.rel) && SeedsInv(s) && IsSnapshot(s.rel.db, subs)
    ensures forall x | x in subs :: x.id in s.seeds && s.seeds[x.id] < |s.net.served|
  {
  }

  /** What the moves of scanner and API leave alone. */
  lemma MoveFrame(rel: Release.State, move: Release.Step)
    requires Release.Enabled(rel, move) && !move.Insert? && !move.Lookup?
    ensures var rel' := Release.Apply(rel, move);
      && rel'.origin == rel.origin
      && (!move.Begin? ==> rel'.snapshot == rel.snapshot && (rel.pc.Idle? ==> rel'.pc.Idle?))
      && (InGroup(rel'.pc) ==> InGroup(rel.pc) && rel'.pc.tag == rel.pc.tag)
      && (forall x | Member(rel', x) :: Member(rel, x))
      && |rel'.log| == |rel.log| + if move == Release.Publish(true) then 1 else 0
  {
  }

  /** The scanner's place in its answers moves with a new snapshot only. */
  lemma DbFrame(s: Sys, move: Release.Step)
    requires Enabled(s, Db(move))
    ensures var s' := ApplyDb(s, move);
      && s'.rel == Release.Apply(s.rel, move)
      && s'.net == s.net && s'.looked == s.looked && s'.seeds == s.seeds && s'.current == s.current
      && s.from.Keys <= s'.from.Keys
      && s'.next == (if move.Begin? then |s.net.served| else s.next)
      && s'.uses == s.uses + if move == Release.Publish(true) then [s.current] else []
  {
  }

  lemma ScanKept(s: Sys, s': Sys)
    requires ScanInv(s) && s'.net == s.net && s'.looked == s.looked && s'.seeds == s.seeds && s'.current == s.current
    requires s.next <= s'.next <= |s.net.served|
    requires !s'.rel.pc.Idle? ==> forall x | x in s'.rel.snapshot :: x.id in s.seeds && s.seeds[x.id] < s'.next
    requires InGroup(s'.rel.pc) ==> InGroup(s.rel.pc) && s'.rel.pc.tag == s.rel.pc.tag
    requires forall x | Member(s'.rel, x) :: Member(s.rel, x)
    ensures ScanInv(s')
  {
  }

  lemma DbSane(w: GitHub.World, s: Sys, move: Release.Step)
    requires Sane(w, s) && Enabled(s, Db(move))
    ensures Sane(w, Apply(w, s, Db(move)))
  {
    Release.Preserved(s.rel, move);
    MoveFrame(s.rel, move);
    DbFrame(s, move);
    if move.Begin? { SnapshotSeeded(s, move.subs); }
    ScanKept(s, ApplyDb(s, move));
  }

  lemma SubscribeSane(w: GitHub.World, s: Sys, p: Params, i: nat)
    requires Sane(w, s) && Enabled(s, Subscribe(p, i))
    ensures Sane(w, Apply(w, s, Subscribe(p, i)))
  {
    Release.Preserved(s.rel, Release.Insert(p));
    InsertKeeps(s.rel.db, p);
  }

  /** All members of a group ask the same question. */
  lemma OneQuestion(s: Sys, repo: string, x: Subscription, y: Subscription)
    requires Release.Inv(s.rel) && SeedsInv(s) && s.rel.pc.Choosing? && repo in s.rel.pc.left
    requires x in Keep(s.rel.snapshot, {repo}) && y in Keep(s.rel.snapshot, {repo})
    ensures Release.Waits(s.rel, x) && Scanner.QuestionFor(x) == Scanner.QuestionFor(y)
    ensures Scanner.QuestionFor(x) == Scanner.QuestionFor(s.rel.origin[x.id])
  {
    KeepMembers(s.rel.snapshot, {repo});
    assert Release.Waits(s.rel, x) && Release.Waits(s.rel, y);
    assert Release.Known(s.rel, x) && Release.Known(s.rel, y);
    Names.RepoKeyInjective(x.repoOwner, x.repoName, y.repoOwner, y.repoName);
  }

  lemma LooksScans(s: Sys, repo: string, i: nat)
    requires Release.Inv(s.rel) && SeedsInv(s) && ScanInv(s) && Enabled(s, Looks(repo, i))
    ensures ScanInv(ApplyLooks(s, repo, i))
  {
    var group := Keep(s.rel.snapshot, {repo});
    var s' := ApplyLooks(s, repo, i);
    if InGroup(s'.rel.pc) {
      forall x | Member(s'.rel, x) ensures Says(s'.net, i, Scanner.QuestionFor(x), s'.rel.pc.tag) {
        assert x in group;
        OneQuestion(s, repo, x, group[0]);
      }
    }
  }

  lemma LooksSane(w: GitHub.World, s: Sys, repo: string, i: nat)
    requires Sane(w, s) && Enabled(s, Looks(repo, i))
    ensures Sane(w, Apply(w, s, Looks(repo, i)))
  {
    Release.Preserved(s.rel, Release.Lookup(repo, Scanner.ToResult(s.net.served[i].answer)));
    LooksScans(s, repo, i);
  }

  lemma SaneStep(w: GitHub.World, s: Sys, act: Act)
    requires Sane(w, s) && Enabled(s, act)
    ensures Sane(w, Apply(w, s, act))
  {
    match act
    case Net(step) => NetSane(w, s, step);
    case Db(move) => DbSane(w, s, move);
    case Subscribe(p, i) => SubscribeSane(w, s, p, i);
    case Looks(repo, i) => LooksSane(w, s, repo, i);
  }

  // ----- what one row hears -----

  /** A tag a subscriber knows, and the answer it came from. */
  datatype Heard = Heard(tag: string, use: nat)

  function HeardOf(log: seq<Entry>, uses: seq<nat>, id: int): seq<Heard>
    requires |log| == |uses|
  {
    if log == [] then []
    else
      var n := |log| - 1;
      HeardOf(log[..n], uses[..n], id) + if log[n].id == id then [Heard(log[n].event.tag, uses[n])] else []
  }

  /** The tags announced for a row, after the seed if that is to count. */
  function AllHeard(s: Sys, id: int, seeded: bool): seq<Heard>
    requires |s.rel.log| == |s.uses|
  {
    (if seeded && id in s.seeds then [Heard(Release.Seed(s.rel, id), s.seeds[id])] else [])
      + HeardOf(s.rel.log, s.uses, id)
  }

  ghost predicate DistinctTags(all: seq<Heard>) { forall i, j | 0 <= i < j < |all| :: all[i].tag != all[j].tag }

  /** When GitHub gave the answer. */
  function SampledAt(net: Cache.State, j: nat): int { if j < |net.served| then net.served[j].sampledAt else 0 }

  /** The answer is one of the scanner's or the row's seed, and GitHub gave none of
      those behind what was heard later. */
  ghost predicate Covers(s: Sys, id: int, seeded: bool, all: seq<Heard>, y: nat) {
    all != [] ==>
      && (y in s.looked || (seeded && id in s.seeds && y == s.seeds[id]))
      && forall h | h in all :: SampledAt(s.net, h.use) <= SampledAt(s.net, y)
  }

  /** The tag written last for a row, and what the scanner holds of it, come from
      the answer from, later than all that was heard; in the window, the answer
      before comes between. */
  ghost predicate HoldsInv(s: Sys, id: int, q: GitHub.Question, seeded: bool, all: seq<Heard>)
    requires id in s.from
  {
    && s.from[id] < |s.net.served|
    && (id in s.rel.db.rows ==> Says(s.net, s.from[id], q, s.rel.db.rows[id].lastSeenTag))
    && (forall x | Release.Waits(s.rel, x) && x.id == id :: Says(s.net, s.from[id], q, x.lastSeenTag))
    && (if Release.InFlight(s.rel, id) then
          && s.from[id] == s.current && Says(s.net, s.before, q, s.rel.pc.sub.lastSeenTag)
          && Covers(s, id, seeded, all, s.before)
          && (all != [] ==> SampledAt(s.net, s.before) <= SampledAt(s.net, s.current))
        else Covers(s, id, seeded, all, s.from[id]))
    && (forall x | InGroup(s.rel.pc) && x in s.rel.pc.rest && x.id == id && all != [] ::
          SampledAt(s.net, s.from[id]) <= SampledAt(s.net, s.current))
  }

  ghost predicate RowInv(s: Sys, id: int, seeded: bool)
    requires |s.rel.log| == |s.uses| && s.rel.origin.Keys <= s.from.Keys
  {
    id in s.rel.origin ==>
      var q := Scanner.QuestionFor(s.rel.origin[id]);
      var all := AllHeard(s, id, seeded);
      && DistinctTags(all)
      && (forall h | h in all :: Says(s.net, h.use, q, h.tag))
      && HoldsInv(s, id, q, seeded, all)
  }

  // ----- steps that tell the row nothing and leave its tag alone -----

  ghost predicate ServedKept(s: Sys, s': Sys) {
    && |s.net.served| <= |s'.net.served|
    && (forall j | 0 <= j < |s.net.served| :: s'.net.served[j] == s.net.served[j])
    && s.looked <= s'.looked && s'.current == s.current
  }

  /** Nothing the scanner holds of the row, or does to it, is new. */
  ghost predicate RowKept(s: Sys, s': Sys, id: int)
    requires id in s.from
  {
    && id in s'.from && s'.from[id] == s.from[id]
    && (id in s.seeds ==> id in s'.seeds && s'.seeds[id] == s.seeds[id])
    && (id in s'.rel.db.rows ==> id in s.rel.db.rows && s'.rel.db.rows[id].lastSeenTag == s.rel.db.rows[id].lastSeenTag)
    && (forall x | Release.Waits(s'.rel, x) && x.id == id :: Release.Waits(s.rel, x))
    && (forall x | InGroup(s'.rel.pc) && x in s'.rel.pc.rest :: InGroup(s.rel.pc) && x in s.rel.pc.rest)
    && (Release.InFlight(s'.rel, id) <==> Release.InFlight(s.rel, id))
    && (Release.InFlight(s.rel, id) ==> s'.before == s.before && s'.rel.pc.sub == s.rel.pc.sub)
  }

  lemma HoldsKept(s: Sys, s': Sys, id: int, q: GitHub.Question, seeded: bool, all: seq<Heard>)
    requires id in s.from && HoldsInv(s, id, q, seeded, all)
    requires ServedKept(s, s') && RowKept(s, s', id)
    requires forall h | h in all :: h.use < |s.net.served|
    requires s.current < |s.net.served| || !InGroup(s.rel.pc)
    ensures HoldsInv(s', id, q, seeded, all)
  {
  }

  lemma NetRow(w: GitHub.World, s: Sys, step: Cache.Step, id: int, seeded: bool)
    requires Sane(w, s) && Enabled(s, Net(step)) && id in s.rel.origin && RowInv(s, id, seeded)
    ensures RowInv(Apply(w, s, Net(step)), id, seeded)
  {
    var s' := Apply(w, s, Net(step));
    ServedGrows(w, s.net, step);
    assert AllHeard(s', id, seeded) == AllHeard(s, id, seeded);
    HoldsKept(s, s', id, Scanner.QuestionFor(s.rel.origin[id]), seeded, AllHeard(s, id, seeded));
  }

  /** Moves in which the scanner neither takes up the row nor leaves its saga. */
  predicate Elsewhere(rel: Release.State, move: Release.Step, id: int) {
    match move
    case Begin(_) => false
    case Update(_) => rel.pc.InGroup? && rel.pc.rest != [] && rel.pc.rest[0].id != id
    case Publish(accepted) => !accepted || !Release.InFlight(rel, id)
    case Compensate(_) => !Release.InFlight(rel, id)
    case Crash => !Release.InFlight(rel, id)
    case _ => true
  }

  /** Where the scanner is with the row after such a move. */
  lemma ElsewherePc(rel: Release.State, move: Release.Step, id: int)
    requires Release.Inv(rel) && Release.Enabled(rel, move) && !move.Insert? && !move.Lookup?
    requires Elsewhere(rel, move, id)
    ensures var rel' := Release.Apply(rel, move);
      && (forall x | Release.Waits(rel', x) :: Release.Waits(rel, x))
      && (forall x | InGroup(rel'.pc) && x in rel'.pc.rest :: InGroup(rel.pc) && x in rel.pc.rest)
      && (Release.InFlight(rel', id) <==> Release.InFlight(rel, id))
      && (Release.InFlight(rel, id) ==> rel'.pc.sub == rel.pc.sub)
  {
  }

  lemma ElsewhereDb(rel: Release.State, move: Release.Step, id: int)
    requires Release.Inv(rel) && Release.Enabled(rel, move) && !move.Insert? && !move.Lookup?
    requires Elsewhere(rel, move, id)
    ensures var rel' := Release.Apply(rel, move);
      id in rel'.db.rows ==> id in rel.db.rows && rel'.db.rows[id].lastSeenTag == rel.db.rows[id].lastSeenTag
  {
    if move.Confirm? { ConfirmKeeps(rel.db, move.token); }
  }

  lemma HeardSnoc(log: seq<Entry>, uses: seq<nat>, e: Entry, use: nat, id: int)
    requires |log| == |uses|
    ensures HeardOf(log + [e], uses + [use], id) ==
      HeardOf(log, uses, id) + if e.id == id then [Heard(e.event.tag, use)] else []
  {
    assert (log + [e])[..|log|] == log && (uses + [use])[..|uses|] == uses;
  }

  lemma MoveLog(rel: Release.State, move: Release.Step)
    requires Release.Enabled(rel, move)
    ensures Release.Apply(rel, move).log == rel.log +
      if move == Release.Publish(true) then [Entry(rel.pc.sub.id, EventFor(rel.pc.sub, rel.pc.tag))] else []
  {
  }

  lemma HeardKept(s: Sys, s': Sys, id: int, seeded: bool)
    requires |s.rel.log| == |s.uses| && s'.rel.log == s.rel.log && s'.uses == s.uses
    requires s'.seeds == s.seeds && s'.rel.origin == s.rel.origin
    ensures AllHeard(s', id, seeded) == AllHeard(s, id, seeded)
  {
  }

  lemma HeardMore(s: Sys, s': Sys, e: Entry, use: nat, id: int, seeded: bool)
    requires |s.rel.log| == |s.uses| && s'.rel.log == s.rel.log + [e] && s'.uses == s.uses + [use]
    requires s'.seeds == s.seeds && s'.rel.origin == s.rel.origin
    ensures AllHeard(s', id, seeded) == AllHeard(s, id, seeded) + if e.id == id then [Heard(e.event.tag, use)] else []
  {
    HeardSnoc(s.rel.log, s.uses, e, use, id);
  }

  /** What one move adds to what is heard. */
  lemma MoveHeard(s: Sys, move: Release.Step, id: int, seeded: bool)
    requires Enabled(s, Db(move)) && |s.rel.log| == |s.uses|
    ensures var s' := ApplyDb(s, move);
      && |s'.rel.log| == |s'.uses|
      && AllHeard(s', id, seeded) == AllHeard(s, id, seeded) +
           if move == Release.Publish(true) && Release.InFlight(s.rel, id) then [Heard(s.rel.pc.tag, s.current)] else []
  {
    MoveLog(s.rel, move);
    MoveFrame(s.rel, move);
    DbFrame(s, move);
    if move == Release.Publish(true) {
      var sub := s.rel.pc.sub;
      HeardMore(s, ApplyDb(s, move), Entry(sub.id, EventFor(sub, s.rel.pc.tag)), s.current, id, seeded);
    } else {
      HeardKept(s, ApplyDb(s, move), id, seeded);
    }
  }

  lemma ElsewhereHistory(s: Sys, move: Release.Step, id: int)
    requires Release.Inv(s.rel) && Enabled(s, Db(move)) && Elsewhere(s.rel, move, id) && id in s.from
    ensures var s' := ApplyDb(s, move);
      && id in s'.from && s'.from[id] == s.from[id]
      && (Release.InFlight(s.rel, id) ==> s'.before == s.before)
  {
  }

  lemma ElsewhereKeeps(s: Sys, move: Release.Step, id: int)
    requires Release.Inv(s.rel) && Enabled(s, Db(move)) && Elsewhere(s.rel, move, id) && id in s.from
    ensures ServedKept(s, ApplyDb(s, move)) && RowKept(s, ApplyDb(s, move), id)
  {
    DbFrame(s, move);
    ElsewherePc(s.rel, move, id);
    ElsewhereDb(s.rel, move, id);
    ElsewhereHistory(s, move, id);
  }

  lemma ElsewhereRow(w: GitHub.World, s: Sys, move: Release.Step, id: int, seeded: bool)
    requires Sane(w, s) && Enabled(s, Db(move)) && Elsewhere(s.rel, move, id)
    requires id in s.rel.origin && RowInv(s, id, seeded)
    ensures Sane(w, ApplyDb(s, move)) && RowInv(ApplyDb(s, move), id, seeded)
  {
    var all := AllHeard(s, id, seeded);
    DbSane(w, s, move);
    MoveFrame(s.rel, move);
    MoveHeard(s, move, id, seeded);
    ElsewhereKeeps(s, move, id);
    assert all + [] == all;
    HoldsKept(s, ApplyDb(s, move), id, Scanner.QuestionFor(s.rel.origin[id]), seeded, all);
    DbFrame(s, move);
  }

  // ----- steps that concern the row -----

  /** The scanner takes the row up for a new pass. */
  lemma BeginHolds(s: Sys, subs: seq<Subscription>, id: int, q: GitHub.Question, seeded: bool, all: seq<Heard>)
    requires Release.Inv(s.rel) && Enabled(s, Db(Release.Begin(subs))) && id in s.from
    requires HoldsInv(s, id, q, seeded, all)
    ensures HoldsInv(ApplyDb(s, Release.Begin(subs)), id, q, seeded, all)
  {
  }

  /** The scanner writes the group's tag into the row, or tries to. */
  lemma UpdateHolds(s: Sys, o: Outcome, id: int, q: GitHub.Question, seeded: bool, all: seq<Heard>)
    requires Release.Inv(s.rel) && ScanInv(s) && Enabled(s, Db(Release.Update(o))) && s.rel.pc.rest[0].id == id
    requires id in s.from && HoldsInv(s, id, q, seeded, all) && Scanner.QuestionFor(s.rel.pc.rest[0]) == q
    ensures id in ApplyDb(s, Release.Update(o)).from && HoldsInv(ApplyDb(s, Release.Update(o)), id, q, seeded, all)
  {
    var sub := s.rel.pc.rest[0];
    Release.TakesFirst(s.rel, o);
    assert Release.Waits(s.rel, sub) && Member(s.rel, sub);
    assert !Release.InFlight(s.rel, id);
  }

  /** The event for the row is accepted. */
  lemma PublishHolds(s: Sys, id: int, q: GitHub.Question, seeded: bool, all: seq<Heard>)
    requires Release.Inv(s.rel) && ScanInv(s) && Enabled(s, Db(Release.Publish(true))) && Release.InFlight(s.rel, id)
    requires id in s.from && HoldsInv(s, id, q, seeded, all)
    ensures HoldsInv(ApplyDb(s, Release.Publish(true)), id, q, seeded, all + [Heard(s.rel.pc.tag, s.current)])
  {
    Release.TakenIsAlone(s.rel, s.rel.pc.sub);
  }

  /** The saga of the row ends without an event: by a revert, */
  lemma RevertHolds(s: Sys, o: Outcome, id: int, q: GitHub.Question, seeded: bool, all: seq<Heard>)
    requires Release.Inv(s.rel) && ScanInv(s) && Enabled(s, Db(Release.Compensate(o))) && Release.InFlight(s.rel, id)
    requires id in s.from && HoldsInv(s, id, q, seeded, all)
    ensures id in ApplyDb(s, Release.Compensate(o)).from
    ensures HoldsInv(ApplyDb(s, Release.Compensate(o)), id, q, seeded, all)
  {
    Release.TakenIsAlone(s.rel, s.rel.pc.sub);
  }

  /** or by a crash. */
  lemma CrashHolds(s: Sys, id: int, q: GitHub.Question, seeded: bool, all: seq<Heard>)
    requires Release.Inv(s.rel) && ScanInv(s) && Release.InFlight(s.rel, id)
    requires id in s.from && HoldsInv(s, id, q, seeded, all)
    ensures HoldsInv(ApplyDb(s, Release.Crash), id, q, seeded, all)
  {
  }

  lemma MoveHolds(s: Sys, move: Release.Step, id: int, q: GitHub.Question, seeded: bool, all: seq<Heard>)
    requires Release.Inv(s.rel) && ScanInv(s) && Enabled(s, Db(move)) && !Elsewhere(s.rel, move, id)
    requires id in s.from && HoldsInv(s, id, q, seeded, all)
    requires move.Update? ==> Scanner.QuestionFor(s.rel.pc.rest[0]) == q
    ensures var s' := ApplyDb(s, move);
      && id in s'.from
      && HoldsInv(s', id, q, seeded,
                  all + if move == Release.Publish(true) then [Heard(s.rel.pc.tag, s.current)] else [])
  {
    assert all + [] == all;
    match move
    case Begin(subs) => BeginHolds(s, subs, id, q, seeded, all);
    case Update(o) => UpdateHolds(s, o, id, q, seeded, all);
    case Publish(_) => PublishHolds(s, id, q, seeded, all);
    case Compensate(o) => RevertHolds(s, o, id, q, seeded, all);
    case Crash => CrashHolds(s, id, q, seeded, all);
  }

  /** GitHub never goes back to a tag it has replaced. */
  ghost predicate NoReturn(w: GitHub.World, q: GitHub.Question) {
    forall t1, t2, t3, tag, other | t1 <= t2 <= t3 &&
      IsLatest(w, q, t1, tag) && IsLatest(w, q, t2, other) && IsLatest(w, q, t3, tag) :: other == tag
  }

  /** At a time, GitHub's reply to q names tag as the latest. */
  predicate IsLatest(w: GitHub.World, q: GitHub.Question, t: int, tag: string) {
    GitHub.Uncached(q.query, w(q, t)) == GitHub.Tag(tag)
  }

  lemma SaysLatest(w: GitHub.World, net: Cache.State, j: nat, q: GitHub.Question, tag: string)
    requires Cache.Honest(w, net) && Says(net, j, q, tag)
    ensures IsLatest(w, q, SampledAt(net, j), tag)
  {
    assert Cache.Sound(w, net.served[j]);
  }

  /** The news of an event is no tag heard before: the row held another in between. */
  lemma NewsIsNew(w: GitHub.World, s: Sys, id: int, seeded: bool)
    requires Sane(w, s) && id in s.rel.origin && RowInv(s, id, seeded)
    requires Release.InFlight(s.rel, id) && NoReturn(w, Scanner.QuestionFor(s.rel.origin[id]))
    ensures Says(s.net, s.current, Scanner.QuestionFor(s.rel.origin[id]), s.rel.pc.tag)
    ensures DistinctTags(AllHeard(s, id, seeded) + [Heard(s.rel.pc.tag, s.current)])
  {
    var q := Scanner.QuestionFor(s.rel.origin[id]);
    var all := AllHeard(s, id, seeded);
    var sub := s.rel.pc.sub;
    assert Member(s.rel, sub) && Release.Known(s.rel, sub);
    SaysLatest(w, s.net, s.current, q, s.rel.pc.tag);
    SaysLatest(w, s.net, s.before, q, sub.lastSeenTag);
    forall k | 0 <= k < |all| ensures all[k].tag != s.rel.pc.tag {
      assert all[k] in all;
      SaysLatest(w, s.net, all[k].use, q, all[k].tag);
    }
  }

  lemma TakenQuestion(rel: Release.State, o: Outcome)
    requires Release.Inv(rel) && Release.Enabled(rel, Release.Update(o))
    ensures var sub := rel.pc.rest[0];
      sub.id in rel.origin && Scanner.QuestionFor(sub) == Scanner.QuestionFor(rel.origin[sub.id])
  {
    Release.TakesFirst(rel, o);
    assert Release.Known(rel, rel.pc.rest[0]);
  }

  /** A row that heard nothing new. */
  lemma RowUnheard(s: Sys, s': Sys, id: int, seeded: bool)
    requires |s.rel.log| == |s.uses| && s.rel.origin.Keys <= s.from.Keys && RowInv(s, id, seeded)
    requires |s'.rel.log| == |s'.uses| && s'.rel.origin.Keys <= s'.from.Keys
    requires id in s.rel.origin && s'.rel.origin == s.rel.origin && s'.net == s.net
    requires AllHeard(s', id, seeded) == AllHeard(s, id, seeded)
    requires HoldsInv(s', id, Scanner.QuestionFor(s.rel.origin[id]), seeded, AllHeard(s, id, seeded))
    ensures RowInv(s', id, seeded)
  {
  }

  /** A row that heard one more tag. */
  lemma RowHeard(s: Sys, s': Sys, id: int, seeded: bool, news: Heard)
    requires |s.rel.log| == |s.uses| && s.rel.origin.Keys <= s.from.Keys && RowInv(s, id, seeded)
    requires |s'.rel.log| == |s'.uses| && s'.rel.origin.Keys <= s'.from.Keys
    requires id in s.rel.origin && s'.rel.origin == s.rel.origin && s'.net == s.net
    requires AllHeard(s', id, seeded) == AllHeard(s, id, seeded) + [news]
    requires DistinctTags(AllHeard(s, id, seeded) + [news])
    requires Says(s.net, news.use, Scanner.QuestionFor(s.rel.origin[id]), news.tag)
    requires HoldsInv(s', id, Scanner.QuestionFor(s.rel.origin[id]), seeded, AllHeard(s, id, seeded) + [news])
    ensures RowInv(s', id, seeded)
  {
  }

  lemma MoveRow(w: GitHub.World, s: Sys, move: Release.Step, id: int, seeded: bool)
    requires Sane(w, s) && Enabled(s, Db(move)) && !Elsewhere(s.rel, move, id)
    requires id in s.rel.origin && RowInv(s, id, seeded) && NoReturn(w, Scanner.QuestionFor(s.rel.origin[id]))
    ensures Sane(w, ApplyDb(s, move)) && RowInv(ApplyDb(s, move), id, seeded)
  {
    var all := AllHeard(s, id, seeded);
    DbSane(w, s, move);
    MoveFrame(s.rel, move);
    DbFrame(s, move);
    MoveHeard(s, move, id, seeded);
    if move.Update? { TakenQuestion(s.rel, move.o); }
    MoveHolds(s, move, id, Scanner.QuestionFor(s.rel.origin[id]), seeded, all);
    if move == Release.Publish(true) {
      NewsIsNew(w, s, id, seeded);
      RowHeard(s, ApplyDb(s, move), id, seeded, Heard(s.rel.pc.tag, s.current));
    } else {
      assert all + [] == all;
      RowUnheard(s, ApplyDb(s, move), id, seeded);
    }
  }

  lemma {:induction false} HeardNone(log: seq<Entry>, uses: seq<nat>, id: int)
    requires |log| == |uses| && forall e | e in log :: e.id != id
    ensures HeardOf(log, uses, id) == []
  {
    if log != [] {
      assert log[|log| - 1] in log;
      HeardNone(log[..|log| - 1], uses[..|log| - 1], id);
    }
  }

  /** A new row has heard of its seed at most. */
  lemma NewRowHolds(s: Sys, p: Params, i: nat, seeded: bool)
    requires Release.Inv(s.rel) && SeedsInv(s) && ScanInv(s) && |s.uses| == |s.rel.log| && Enabled(s, Subscribe(p, i))
    requires Insert(s.rel.db, p).1.Ok?
    ensures var s', id := ApplySubscribe(s, p, i), s.rel.db.nextId;
      && id in s'.from
      && AllHeard(s', id, seeded) == (if seeded then [Heard(p.lastSeenTag, i)] else [])
      && HoldsInv(s', id, QuestionOf(p), seeded, AllHeard(s', id, seeded))
  {
    var s', id := ApplySubscribe(s, p, i), s.rel.db.nextId;
    forall e | e in s.rel.log ensures e.id != id {
      var k :| 0 <= k < |s.rel.log| && s.rel.log[k] == e;
    }
    HeardNone(s.rel.log, s.uses, id);
    assert !Release.InFlight(s'.rel, id);
    forall x | x in s'.rel.snapshot && !s'.rel.pc.Idle? ensures x.id != id { assert x.id in s.seeds; }
  }

  lemma SubscribeKeepsOthers(s: Sys, p: Params, i: nat, id: int, seeded: bool)
    requires Release.Inv(s.rel) && SeedsInv(s) && |s.uses| == |s.rel.log| && Enabled(s, Subscribe(p, i))
    requires id in s.rel.origin
    ensures var s' := ApplySubscribe(s, p, i);
      && ServedKept(s, s') && RowKept(s, s', id) && |s'.uses| == |s'.rel.log|
      && id in s'.rel.origin && s'.rel.origin[id] == s.rel.origin[id]
      && AllHeard(s', id, seeded) == AllHeard(s, id, seeded)
  {
    InsertKeeps(s.rel.db, p);
  }

  lemma SubscribeRow(w: GitHub.World, s: Sys, p: Params, i: nat, id: int, seeded: bool)
    requires Sane(w, s) && Enabled(s, Subscribe(p, i)) && RowInv(s, id, seeded)
    ensures Sane(w, ApplySubscribe(s, p, i)) && RowInv(ApplySubscribe(s, p, i), id, seeded)
  {
    SubscribeSane(w, s, p, i);
    InsertKeeps(s.rel.db, p);
    if id in s.rel.origin {
      SubscribeKeepsOthers(s, p, i, id, seeded);
      HoldsKept(s, ApplySubscribe(s, p, i), id, Scanner.QuestionFor(s.rel.origin[id]), seeded, AllHeard(s, id, seeded));
    } else if Insert(s.rel.db, p).1.Ok? && id == s.rel.db.nextId {
      NewRowHolds(s, p, i, seeded);
    }
  }

  // ----- answers that never go back -----

  /** The scanner's answer for a repository is no older than those it had before. */
  ghost predicate Onward(s: Sys, act: Act)
    requires Enabled(s, act)
  {
    act.Looks? && s.net.served[act.i].answer.Tag? ==>
      forall j | j in s.looked && j < |s.net.served| && s.net.served[j].q == s.net.served[act.i].q ::
        SampledAt(s.net, j) <= SampledAt(s.net, act.i)
  }

  /** Nor older than the seed of a row in the group. */
  ghost predicate AfterSeed(s: Sys, act: Act, id: int)
    requires Enabled(s, act)
  {
    act.Looks? && s.net.served[act.i].answer.Tag? && id in s.seeds ==>
      forall x | x in Keep(s.rel.snapshot, {act.repo}) && x.id == id ::
        SampledAt(s.net, s.seeds[id]) <= SampledAt(s.net, act.i)
  }

  /** What a lookup leaves alone, and the group it opens. */
  lemma LookupFrame(rel: Release.State, repo: string, ans: Result<string, AppError>)
    requires rel.pc.Choosing? && repo in rel.pc.left
    ensures var rel' := Release.Apply(rel, Release.Lookup(repo, ans));
      && rel'.db == rel.db && rel'.log == rel.log && rel'.origin == rel.origin
      && (forall x | Release.Waits(rel', x) :: Release.Waits(rel, x))
      && !Release.InWindow(rel'.pc) && (InGroup(rel'.pc) ==> ans.Ok? && rel'.pc.rest == Keep(rel.snapshot, {repo}))
  {
    KeepMembers(rel.snapshot, {repo});
  }

  lemma LooksHolds(s: Sys, repo: string, i: nat, id: int, q: GitHub.Question, seeded: bool, all: seq<Heard>)
    requires Release.Inv(s.rel) && SeedsInv(s) && ScanInv(s) && Enabled(s, Looks(repo, i))
    requires id in s.rel.origin && id in s.from && Scanner.QuestionFor(s.rel.origin[id]) == q
    requires HoldsInv(s, id, q, seeded, all)
    requires Onward(s, Looks(repo, i)) && (seeded ==> AfterSeed(s, Looks(repo, i), id))
    ensures HoldsInv(ApplyLooks(s, repo, i), id, q, seeded, all)
  {
    var answer := s.net.served[i].answer;
    LookupFrame(s.rel, repo, Scanner.ToResult(answer));
    var group := Keep(s.rel.snapshot, {repo});
    forall x | x in group && x.id == id && answer.Tag? && all != []
      ensures SampledAt(s.net, s.from[id]) <= SampledAt(s.net, i)
    {
      OneQuestion(s, repo, x, group[0]);
    }
  }

  lemma LooksRow(w: GitHub.World, s: Sys, repo: string, i: nat, id: int, seeded: bool)
    requires Sane(w, s) && Enabled(s, Looks(repo, i)) && id in s.rel.origin && RowInv(s, id, seeded)
    requires Onward(s, Looks(repo, i)) && (seeded ==> AfterSeed(s, Looks(repo, i), id))
    ensures Sane(w, ApplyLooks(s, repo, i)) && RowInv(ApplyLooks(s, repo, i), id, seeded)
  {
    LooksSane(w, s, repo, i);
    LookupFrame(s.rel, repo, Scanner.ToResult(s.net.served[i].answer));
    HeardKept(s, ApplyLooks(s, repo, i), id, seeded);
    LooksHolds(s, repo, i, id, Scanner.QuestionFor(s.rel.origin[id]), seeded, AllHeard(s, id, seeded));
  }

  // ----- nobody is told a tag twice -----

  lemma OriginKept(w: GitHub.World, s: Sys, act: Act, id: int)
    requires Sane(w, s) && Enabled(s, act) && id in s.rel.origin
    ensures id in Apply(w, s, act).rel.origin && Apply(w, s, act).rel.origin[id] == s.rel.origin[id]
  {
    if act.Db? { MoveFrame(s.rel, act.move); }
  }

  /** Only an insert makes a new row known. */
  lemma OriginNew(w: GitHub.World, s: Sys, act: Act, id: int)
    requires Sane(w, s) && Enabled(s, act) && !act.Subscribe? && id !in s.rel.origin
    ensures id !in Apply(w, s, act).rel.origin
  {
    if act.Db? { MoveFrame(s.rel, act.move); }
  }

  lemma RowStep(w: GitHub.World, s: Sys, act: Act, id: int, seeded: bool)
    requires Sane(w, s) && Enabled(s, act) && RowInv(s, id, seeded)
    requires Onward(s, act) && (seeded ==> AfterSeed(s, act, id))
    requires id in s.rel.origin ==> NoReturn(w, Scanner.QuestionFor(s.rel.origin[id]))
    ensures Sane(w, Apply(w, s, act)) && RowInv(Apply(w, s, act), id, seeded)
  {
    SaneStep(w, s, act);
    if act.Subscribe? {
      SubscribeRow(w, s, act.p, act.i, id, seeded);
    } else if id !in s.rel.origin {
      OriginNew(w, s, act, id);
    } else {
      match act
      case Net(step) => NetRow(w, s, step, id, seeded);
      case Looks(repo, i) => LooksRow(w, s, repo, i, id, seeded);
      case Db(move) =>
        if Elsewhere(s.rel, move, id) {
          ElsewhereRow(w, s, move, id, seeded);
        } else {
          MoveRow(w, s, move, id, seeded);
        }
    }
  }

  ghost predicate OnwardRun(w: GitHub.World, s: Sys, acts: seq<Act>)
    requires Runs(w, s, acts)
    decreases |acts|
  {
    acts == [] || (Onward(s, acts[0]) && OnwardRun(w, Apply(w, s, acts[0]), acts[1..]))
  }

  ghost predicate AfterSeedRun(w: GitHub.World, s: Sys, acts: seq<Act>, id: int)
    requires Runs(w, s, acts)
    decreases |acts|
  {
    acts == [] || (AfterSeed(s, acts[0], id) && AfterSeedRun(w, Apply(w, s, acts[0]), acts[1..], id))
  }

  lemma {:induction false} RowOverRun(w: GitHub.World, s: Sys, acts: seq<Act>, id: int, seeded: bool)
    requires Sane(w, s) && RowInv(s, id, seeded) && Runs(w, s, acts)
    requires OnwardRun(w, s, acts) && (seeded ==> AfterSeedRun(w, s, acts, id))
    requires var s' := After(w, s, acts); id in s'.rel.origin ==> NoReturn(w, Scanner.QuestionFor(s'.rel.origin[id]))
    ensures Sane(w, After(w, s, acts)) && RowInv(After(w, s, acts), id, seeded)
    decreases |acts|
  {
    if acts != [] {
      if id in s.rel.origin { OriginOverRun(w, s, acts, id); }
      RowStep(w, s, acts[0], id, seeded);
      RowOverRun(w, Apply(w, s, acts[0]), acts[1..], id, seeded);
    }
  }

  lemma {:induction false} OriginOverRun(w: GitHub.World, s: Sys, acts: seq<Act>, id: int)
    requires Sane(w, s) && Runs(w, s, acts) && id in s.rel.origin
    ensures id in After(w, s, acts).rel.origin && After(w, s, acts).rel.origin[id] == s.rel.origin[id]
    decreases |acts|
  {
    if acts != [] {
      SaneStep(w, s, acts[0]);
      OriginKept(w, s, acts[0], id);
      OriginOverRun(w, Apply(w, s, acts[0]), acts[1..], id);
    }
  }

  /** If the answers the scanner gets for a repository never go back in time, and its
      tags do not come back on GitHub, no subscription to it is told a tag twice,
      over any run: whatever fails, wherever the scanner crashes, however slow the
      passes are and whatever the API does. If they do not go back behind the seed
      of a row either, the row is not told its seed. */
  lemma ToldOnce(w: GitHub.World, acts: seq<Act>, id: int, seeded: bool)
    requires Runs(w, START, acts) && id in After(w, START, acts).rel.origin
    requires NoReturn(w, Scanner.QuestionFor(After(w, START, acts).rel.origin[id]))
    requires OnwardRun(w, START, acts) && (seeded ==> AfterSeedRun(w, START, acts, id))
    ensures |After(w, START, acts).rel.log| == |After(w, START, acts).uses|
    ensures DistinctTags(AllHeard(After(w, START, acts), id, seeded))
  {
    RowOverRun(w, START, acts, id, seeded);
  }

  lemma {:induction false} RunsAppend(w: GitHub.World, s: Sys, acts: seq<Act>, more: seq<Act>)
    requires Runs(w, s, acts) && Runs(w, After(w, s, acts), more)
    ensures Runs(w, s, acts + more) && After(w, s, acts + more) == After(w, After(w, s, acts), more)
    decreases |acts|
  {
    if acts == [] {
      assert acts + more == more;
    } else {
      assert (acts + more)[0] == acts[0] && (acts + more)[1..] == acts[1..] + more;
      RunsAppend(w, Apply(w, s, acts[0]), acts[1..], more);
    }
  }

  lemma RunsOne(w: GitHub.World, s: Sys, act: Act)
    requires Enabled(s, act)
    ensures Runs(w, s, [act]) && After(w, s, [act]) == Apply(w, s, act)
  {
    assert [act][1..] == [];
  }
}

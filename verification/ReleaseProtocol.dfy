/** The release saga as a step relation. The scanner's remote calls are separate
    steps; API statements fall between them at will, every call can fail or lose
    its reply, and the scanner can crash and start over anywhere. There is one
    scanner.

    origin, presented, eligible, basis, damaged and hurt record history for the
    statements; no step depends on them. */
module ReleaseProtocol {
  import opened Common
  import opened Domain
  import opened SubscriptionTable
  import opened ScanPass

  /** Where the scanner stands. left holds the repositories of the pass not yet
      looked up, rest the members of the current group not yet processed. */
  datatype Pc =
    | Idle
    | Choosing(left: set<string>)
    | InGroup(left: set<string>, cur: string, tag: string, rest: seq<Subscription>)
    | Updated(left: set<string>, cur: string, tag: string, rest: seq<Subscription>, sub: Subscription)
    | Unsent(left: set<string>, cur: string, tag: string, rest: seq<Subscription>, sub: Subscription)

  datatype State = State(
    db: Table,
    log: seq<Entry>,                 // accepted events, oldest first
    pc: Pc,
    snapshot: seq<Subscription>,     // of the current pass
    origin: map<int, Subscription>,  // every row as it was inserted
    presented: set<string>,          // tokens given to Confirm so far
    eligible: set<string>,           // those given before the current snapshot
    basis: seq<set<string>>,         // eligible at the time of each event
    damaged: set<int>,               // rows hurt and not told anything since
    hurt: set<int>)                  // rows ever hurt

  datatype Step =
    | Insert(p: Params)
    | BurnId
    | Remove(id: int)
    | Confirm(token: string)
    | Unsubscribe(token: string)
    | Begin(subs: seq<Subscription>)
    | Lookup(repo: string, ans: Result<string, AppError>)
    | Skip
    | Update(o: Outcome)
    | Publish(accepted: bool)
    | Compensate(o: Outcome)
    | EndGroup
    | Finish
    | Crash

  const START := State(EMPTY_TABLE, [], Idle, [], map[], {}, {}, [], {}, {})

  // ----- steps -----

  predicate InWindow(pc: Pc) { pc.Updated? || pc.Unsent? }

  predicate InFlight(s: State, id: int) { InWindow(s.pc) && s.pc.sub.id == id }

  ghost predicate Enabled(s: State, step: Step) {
    match step
    case Begin(subs) => s.pc.Idle? && IsSnapshot(s.db, subs)
    case Lookup(repo, _) => s.pc.Choosing? && repo in s.pc.left
    case Skip => s.pc.InGroup? && s.pc.rest != [] && s.pc.rest[0].lastSeenTag == s.pc.tag
    case Update(_) => s.pc.InGroup? && s.pc.rest != [] && s.pc.rest[0].lastSeenTag != s.pc.tag
    case Publish(_) => s.pc.Updated?
    case Compensate(_) => s.pc.Unsent?
    case EndGroup => s.pc.InGroup? && s.pc.rest == []
    case Finish => s.pc.Choosing? && s.pc.left == {}
    case _ => true
  }

  /** A stored row is left with a tag that was never announced. */
  function Hurt(s: State, id: int): State {
    if id in s.db.rows then s.(damaged := s.damaged + {id}, hurt := s.hurt + {id}) else s
  }

  function Apply(s: State, step: Step): State
    requires Enabled(s, step)
  {
    match step
    case Insert(p) =>
      var (db, r) := SubscriptionTable.Insert(s.db, p);
      s.(db := db, origin := if r.Ok? then s.origin[r.value.id := r.value] else s.origin)
    case BurnId => s.(db := s.db.(nextId := s.db.nextId + 1))
    case Remove(id) => s.(db := Delete(s.db, id))
    case Confirm(token) => s.(db := SubscriptionTable.Confirm(s.db, token), presented := s.presented + {token})
    case Unsubscribe(token) => s.(db := SubscriptionTable.Unsubscribe(s.db, token))
    case Begin(subs) => s.(pc := Choosing(Repos(subs)), snapshot := subs, eligible := s.presented)
    case Lookup(repo, ans) =>
      var left := s.pc.left - {repo};
      s.(pc := if ans.Ok? && ans.value != "" then InGroup(left, repo, ans.value, Keep(s.snapshot, {repo}))
               else Choosing(left))
    case Skip => s.(pc := InGroup(s.pc.left, s.pc.cur, s.pc.tag, s.pc.rest[1..]))
    case Update(o) =>
      var pc := s.pc;
      var next := InGroup(pc.left, pc.cur, pc.tag, pc.rest[1..]);
      var sub := pc.rest[0];
      var s' := s.(db := if o.Applied() then SetTag(s.db, sub.id, pc.tag) else s.db);
      (match o
       case Done => s'.(pc := Updated(pc.left, pc.cur, pc.tag, pc.rest[1..], sub))
       case Refused => s'.(pc := next)
       case ReplyLost => Hurt(s'.(pc := next), sub.id))
    case Publish(accepted) =>
      var pc := s.pc;
      if accepted then
        s.(log := s.log + [Entry(pc.sub.id, EventFor(pc.sub, pc.tag))],
           basis := s.basis + [s.eligible],
           pc := InGroup(pc.left, pc.cur, pc.tag, pc.rest),
           damaged := s.damaged - {pc.sub.id})
      else s.(pc := Unsent(pc.left, pc.cur, pc.tag, pc.rest, pc.sub))
    case Compensate(o) =>
      var pc := s.pc;
      var s' := s.(pc := InGroup(pc.left, pc.cur, pc.tag, pc.rest));
      if o.Applied() then s'.(db := SetTag(s.db, pc.sub.id, pc.sub.lastSeenTag)) else Hurt(s', pc.sub.id)
    case EndGroup => s.(pc := Choosing(s.pc.left))
    case Finish => s.(pc := Idle)
    case Crash =>
      var s' := s.(pc := Idle);
      if InWindow(s.pc) then Hurt(s', s.pc.sub.id) else s'
  }

  ghost predicate Runs(s: State, steps: seq<Step>)
    decreases |steps|
  {
    steps == [] || (Enabled(s, steps[0]) && Runs(Apply(s, steps[0]), steps[1..]))
  }

  ghost function After(s: State, steps: seq<Step>): State
    requires Runs(s, steps)
    decreases |steps|
  {
    if steps == [] then s else After(Apply(s, steps[0]), steps[1..])
  }

  lemma {:induction false} RunsAppend(s: State, steps: seq<Step>, more: seq<Step>)
    requires Runs(s, steps) && Runs(After(s, steps), more)
    ensures Runs(s, steps + more) && After(s, steps + more) == After(After(s, steps), more)
    decreases |steps|
  {
    if steps == [] {
      assert steps + more == more;
    } else {
      RunsAppend(Apply(s, steps[0]), steps[1..], more);
      assert (steps + more)[1..] == steps[1..] + more;
    }
  }

  lemma RunsOne(s: State, step: Step)
    requires Enabled(s, step)
    ensures Runs(s, [step]) && After(s, [step]) == Apply(s, step)
  {
    assert [step][1..] == [];
  }

  lemma RunsThen(s: State, steps: seq<Step>, step: Step)
    requires Runs(s, steps) && Enabled(After(s, steps), step)
    ensures Runs(s, steps + [step]) && After(s, steps + [step]) == Apply(After(s, steps), step)
  {
    RunsOne(After(s, steps), step);
    RunsAppend(s, steps, [step]);
  }

  // ----- the ledger -----

  /** The tag a subscriber was last told about: that of the last accepted event,
      or the seed. */
  function LastTag(log: seq<Entry>, id: int, seed: string): string {
    if log == [] then seed
    else if log[|log| - 1].id == id then log[|log| - 1].event.tag
    else LastTag(log[..|log| - 1], id, seed)
  }

  function Seed(s: State, id: int): string { if id in s.origin then s.origin[id].lastSeenTag else "" }

  function Ledger(s: State, id: int): string { LastTag(s.log, id, Seed(s, id)) }

  /** A settled row says something else than its subscriber was told. */
  predicate Broken(s: State, id: int) {
    id in s.db.rows && !InFlight(s, id) && s.db.rows[id].lastSeenTag != Ledger(s, id)
  }

  lemma LastTagSnoc(log: seq<Entry>, e: Entry, id: int, seed: string)
    ensures LastTag(log + [e], id, seed) == if e.id == id then e.event.tag else LastTag(log, id, seed)
  {
    assert (log + [e])[..|log|] == log;
  }

  lemma {:induction false} LastTagUnheard(log: seq<Entry>, id: int, seed: string)
    requires forall e | e in log :: e.id != id
    ensures LastTag(log, id, seed) == seed
  {
    if log != [] {
      assert log[|log| - 1] in log;
      LastTagUnheard(log[..|log| - 1], id, seed);
    }
  }

  // ----- the invariant -----

  ghost predicate RowsInv(s: State) {
    && Valid(s.db)
    && (forall id | id in s.origin :: s.origin[id].id == id && 1 <= id < s.db.nextId)
    && (forall id | id in s.db.rows ::
          && id in s.origin && SameIdentity(s.db.rows[id], s.origin[id])
          && (s.db.rows[id].confirmed ==> s.db.rows[id].confirmToken in s.presented))
  }

  ghost predicate PcInv(s: State) {
    && s.eligible <= s.presented
    && DistinctIds(s.snapshot)
    && (s.pc.InGroup? || InWindow(s.pc) ==>
          && s.pc.tag != "" && s.pc.cur !in s.pc.left && DistinctIds(s.pc.rest)
          && (forall x | x in s.pc.rest :: x in s.snapshot && x.Repo() == s.pc.cur))
    && (InWindow(s.pc) ==>
          && s.pc.sub in s.snapshot && s.pc.sub.Repo() == s.pc.cur && s.pc.sub.lastSeenTag != s.pc.tag
          && (forall x | x in s.pc.rest :: x.id != s.pc.sub.id))
  }

  /** Still to be processed in this pass. */
  ghost predicate Waits(s: State, x: Subscription) {
    && x in s.snapshot && !s.pc.Idle?
    && (x.Repo() in s.pc.left || (!s.pc.Choosing? && x in s.pc.rest))
  }

  /** What the scanner holds of a row that came up for this pass. */
  ghost predicate Known(s: State, x: Subscription) {
    && x.id in s.origin && SameIdentity(x, s.origin[x.id])
    && x.confirmed && x.confirmToken in s.eligible
    && (x.id !in s.damaged ==> x.lastSeenTag == Ledger(s, x.id))
  }

  ghost predicate WaitInv(s: State) {
    forall x | Waits(s, x) :: Known(s, x) && (x.id in s.db.rows ==> s.db.rows[x.id] == x)
  }

  ghost predicate FlightInv(s: State) {
    InWindow(s.pc) ==>
      && Known(s, s.pc.sub)
      && (s.pc.sub.id in s.db.rows ==> s.db.rows[s.pc.sub.id] == s.pc.sub.(lastSeenTag := s.pc.tag))
  }

  ghost predicate LedgerInv(s: State) {
    && s.damaged <= s.hurt
    && forall id | id in s.db.rows && Broken(s, id) :: id in s.damaged
  }

  /** Each event carries the identity of a row whose token had been presented
      before the snapshot of its pass. */
  ghost predicate LogInv(s: State) {
    && |s.basis| == |s.log|
    && forall k | 0 <= k < |s.log| ::
      && s.log[k].id in s.origin
      && s.log[k].event == EventFor(s.origin[s.log[k].id], s.log[k].event.tag)
      && s.log[k].event.tag != ""
      && s.origin[s.log[k].id].confirmToken in s.basis[k] && s.basis[k] <= s.presented
  }

  /** A row never hurt is never told the same tag twice in a row. */
  ghost predicate NoRepeat(s: State) {
    forall k | 0 <= k < |s.log| && s.log[k].id !in s.hurt ::
      s.log[k].event.tag != LastTag(s.log[..k], s.log[k].id, Seed(s, s.log[k].id))
  }

  ghost predicate Inv(s: State) {
    RowsInv(s) && PcInv(s) && WaitInv(s) && FlightInv(s) && LedgerInv(s) && LogInv(s) && NoRepeat(s)
  }

  // ----- every step keeps it -----

  lemma InsertKeepsRows(s: State, p: Params)
    requires RowsInv(s)
    ensures RowsInv(Apply(s, Insert(p)))
  {
    InsertKeeps(s.db, p);
  }

  /** Nobody was told anything under the new id. */
  lemma InsertKeepsHistory(s: State, p: Params)
    requires Inv(s)
    ensures var s' := Apply(s, Insert(p));
      && LogInv(s') && NoRepeat(s')
      && (forall id | id in s.origin :: Seed(s', id) == Seed(s, id))
      && (forall x | Known(s, x) :: Known(s', x))
      && Ledger(s', s.db.nextId) == Seed(s', s.db.nextId)
  {
    var s' := Apply(s, Insert(p));
    var id := s.db.nextId;
    forall e | e in s.log ensures e.id != id {
      var k :| 0 <= k < |s.log| && s.log[k] == e;
    }
    LastTagUnheard(s.log, id, Seed(s', id));
  }

  lemma InsertStep(s: State, p: Params)
    requires Inv(s)
    ensures Inv(Apply(s, Insert(p)))
  {
    InsertKeeps(s.db, p);
    InsertKeepsRows(s, p);
    InsertKeepsHistory(s, p);
    forall x | Waits(Apply(s, Insert(p)), x) ensures Waits(s, x) { }
    forall id | id in s.db.rows && Broken(Apply(s, Insert(p)), id) ensures id in s.damaged { assert Broken(s, id); }
  }

  /** Dropping rows keeps the invariant. */
  lemma DropStep(s: State, db: Table)
    requires Inv(s) && Valid(db) && db.nextId == s.db.nextId
    requires forall id | id in db.rows :: id in s.db.rows && db.rows[id] == s.db.rows[id]
    ensures Inv(s.(db := db))
  {
    var s' := s.(db := db);
    forall x | Waits(s', x) ensures Waits(s, x) { }
    forall id | id in db.rows && Broken(s', id) ensures id in s.damaged { assert Broken(s, id); }
  }

  lemma ConfirmStep(s: State, token: string)
    requires Inv(s)
    ensures Inv(Apply(s, Confirm(token)))
  {
    var s' := Apply(s, Confirm(token));
    ConfirmKeeps(s.db, token);
    forall x | Waits(s', x) ensures Waits(s, x) { }
    forall id | id in s'.db.rows && Broken(s', id) ensures id in s.damaged { assert Broken(s, id); }
  }

  lemma ApiStep(s: State, step: Step)
    requires Inv(s) && (step.BurnId? || step.Remove? || step.Confirm? || step.Unsubscribe?)
    ensures Inv(Apply(s, step))
  {
    match step
    case Remove(id) =>
      DeletesKeep(s.db, id, "");
      DropStep(s, Delete(s.db, id));
    case Unsubscribe(token) =>
      DeletesKeep(s.db, 0, token);
      DropStep(s, SubscriptionTable.Unsubscribe(s.db, token));
    case Confirm(token) => ConfirmStep(s, token);
    case BurnId =>
  }

  lemma BeginStep(s: State, subs: seq<Subscription>)
    requires Inv(s) && Enabled(s, Begin(subs))
    ensures Inv(Apply(s, Begin(subs)))
  {
    var s' := Apply(s, Begin(subs));
    forall x | x in subs ensures Known(s', x) && s.db.rows[x.id] == x {
      var i :| 0 <= i < |subs| && subs[i] == x;
      assert !Broken(s, x.id) || x.id in s.damaged;
    }
  }

  lemma LookupStep(s: State, repo: string, ans: Result<string, AppError>)
    requires Inv(s) && Enabled(s, Lookup(repo, ans))
    ensures Inv(Apply(s, Lookup(repo, ans)))
  {
    var s' := Apply(s, Lookup(repo, ans));
    KeepMembers(s.snapshot, {repo});
    KeepDistinct(s.snapshot, {repo});
    forall x | Waits(s', x) ensures Waits(s, x) { }
  }

  lemma RestShrinks(rest: seq<Subscription>)
    requires DistinctIds(rest) && rest != []
    ensures DistinctIds(rest[1..])
    ensures forall x | x in rest[1..] :: x in rest && x.id != rest[0].id
  {
    forall x | x in rest[1..] ensures x in rest && x.id != rest[0].id {
      var i :| 0 <= i < |rest| - 1 && rest[1..][i] == x;
      assert rest[i + 1] == x;
    }
  }

  /** A row taken from the group is none of those still waiting. */
  lemma TakenIsAlone(s: State, sub: Subscription)
    requires PcInv(s) && (s.pc.InGroup? || InWindow(s.pc))
    requires sub in s.snapshot && sub.Repo() == s.pc.cur && forall x | x in s.pc.rest :: x.id != sub.id
    ensures forall x | Waits(s, x) :: x.id != sub.id
  {
    forall x | Waits(s, x) ensures x.id != sub.id {
      DistinctMembers(s.snapshot, x, sub);
    }
  }

  lemma SkipStep(s: State)
    requires Inv(s) && Enabled(s, Skip)
    ensures Inv(Apply(s, Skip))
  {
    RestShrinks(s.pc.rest);
    forall x | Waits(Apply(s, Skip), x) ensures Waits(s, x) { }
  }

  /** The state after writing a tag into one row, marking the row or not. */
  function Written(s: State, id: int, tag: string, marked: bool): State {
    var w := s.(db := SetTag(s.db, id, tag));
    if marked then Hurt(w, id) else w
  }

  lemma WriteKeepsRows(s: State, id: int, tag: string, marked: bool)
    requires RowsInv(s)
    ensures var s' := Written(s, id, tag, marked);
      && RowsInv(s') && s'.db.rows.Keys == s.db.rows.Keys
      && (forall k | k in s.db.rows && k != id :: s'.db.rows[k] == s.db.rows[k])
  {
    SetTagKeeps(s.db, id, tag);
  }

  lemma WriteKeepsLog(s: State, id: int, tag: string, marked: bool)
    requires LogInv(s) && NoRepeat(s)
    ensures var s' := Written(s, id, tag, marked);
      && LogInv(s') && NoRepeat(s')
      && (forall x | Known(s, x) && x.id != id :: Known(s', x))
  {
  }

  /** The member taken up is no longer waiting, and the others still are. */
  lemma TakesFirst(s: State, o: Outcome)
    requires Inv(s) && Enabled(s, Update(o))
    ensures PcInv(Apply(s, Update(o)))
    ensures var sub := s.pc.rest[0];
      && Known(s, sub) && (sub.id in s.db.rows ==> s.db.rows[sub.id] == sub)
      && (forall x | Waits(Apply(s, Update(o)), x) :: Waits(s, x) && x.id != sub.id)
  {
    var s' := Apply(s, Update(o));
    var sub := s.pc.rest[0];
    RestShrinks(s.pc.rest);
    assert Waits(s, sub);
    forall x | Waits(s', x) ensures Waits(s, x) && x.id != sub.id {
      DistinctMembers(s.snapshot, x, sub);
    }
  }

  lemma UpdateRefusedStep(s: State)
    requires Inv(s) && Enabled(s, Update(Refused))
    ensures Inv(Apply(s, Update(Refused)))
  {
    TakesFirst(s, Refused);
  }

  /** The members still waiting are other rows than the one written. */
  lemma UpdateKeepsWaiting(s: State, o: Outcome)
    requires Inv(s) && Enabled(s, Update(o)) && o.Applied()
    ensures WaitInv(Apply(s, Update(o)))
  {
    var s' := Apply(s, Update(o));
    TakesFirst(s, o);
    WriteKeepsLog(s.(pc := s'.pc), s.pc.rest[0].id, s.pc.tag, o.ReplyLost?);
    forall x | Waits(s', x) ensures Known(s', x) && (x.id in s'.db.rows ==> s'.db.rows[x.id] == x) {
      assert Waits(s, x) && Known(s, x);
    }
  }

  lemma UpdateKeepsLedger(s: State, o: Outcome)
    requires Inv(s) && Enabled(s, Update(o)) && o.Applied()
    ensures LedgerInv(Apply(s, Update(o))) && FlightInv(Apply(s, Update(o)))
  {
    var s' := Apply(s, Update(o));
    TakesFirst(s, o);
    forall id | id in s'.db.rows && Broken(s', id) ensures id in s'.damaged {
      if id != s.pc.rest[0].id { assert Broken(s, id); }
    }
  }

  lemma UpdateAppliedStep(s: State, o: Outcome)
    requires Inv(s) && Enabled(s, Update(o)) && o.Applied()
    ensures Inv(Apply(s, Update(o)))
  {
    var s' := Apply(s, Update(o));
    TakesFirst(s, o);
    WriteKeepsRows(s.(pc := s'.pc), s.pc.rest[0].id, s.pc.tag, o.ReplyLost?);
    WriteKeepsLog(s.(pc := s'.pc), s.pc.rest[0].id, s.pc.tag, o.ReplyLost?);
    UpdateKeepsWaiting(s, o);
    UpdateKeepsLedger(s, o);
  }

  lemma PublishStep(s: State, accepted: bool)
    requires Inv(s) && Enabled(s, Publish(accepted))
    ensures Inv(Apply(s, Publish(accepted)))
  {
    var s' := Apply(s, Publish(accepted));
    var sub := s.pc.sub;
    TakenIsAlone(s, sub);
    forall x | Waits(s', x) ensures Waits(s, x) { }
    if accepted {
      var e := Entry(sub.id, EventFor(sub, s.pc.tag));
      forall id ensures Ledger(s', id) == if id == sub.id then s.pc.tag else Ledger(s, id) {
        LastTagSnoc(s.log, e, id, Seed(s, id));
      }
      forall k | 0 <= k < |s.log| ensures s'.log[..k] == s.log[..k] { }
      assert s'.log[..|s.log|] == s.log;
    }
  }

  lemma RevertedStep(s: State, o: Outcome)
    requires Inv(s) && Enabled(s, Compensate(o)) && o.Applied()
    ensures Inv(Apply(s, Compensate(o)))
  {
    var s' := Apply(s, Compensate(o));
    TakenIsAlone(s, s.pc.sub);
    forall x | Waits(s', x) ensures Waits(s, x) { }
    WriteKeepsRows(s.(pc := s'.pc), s.pc.sub.id, s.pc.sub.lastSeenTag, false);
    WriteKeepsLog(s.(pc := s'.pc), s.pc.sub.id, s.pc.sub.lastSeenTag, false);
    forall id | id in s'.db.rows && Broken(s', id) ensures id in s'.damaged {
      if id != s.pc.sub.id { assert Broken(s, id); }
    }
  }

  /** The scanner leaves the window with the tag written: a crash, or a revert refused. */
  lemma HurtStep(s: State, step: Step)
    requires Inv(s) && Enabled(s, step) && InWindow(s.pc) && (step.Crash? || step == Compensate(Refused))
    ensures Inv(Apply(s, step))
  {
    var s' := Apply(s, step);
    TakenIsAlone(s, s.pc.sub);
    forall x | Waits(s', x) ensures Waits(s, x) { }
    forall id | id in s'.db.rows && Broken(s', id) ensures id in s'.damaged {
      if id != s.pc.sub.id { assert Broken(s, id); }
    }
  }

  lemma EndStep(s: State, step: Step)
    requires Inv(s) && Enabled(s, step) && !InWindow(s.pc) && (step.EndGroup? || step.Finish? || step.Crash?)
    ensures Inv(Apply(s, step))
  {
    forall x | Waits(Apply(s, step), x) ensures Waits(s, x) { }
  }

  lemma Preserved(s: State, step: Step)
    requires Inv(s) && Enabled(s, step)
    ensures Inv(Apply(s, step))
  {
    match step
    case Insert(p) => InsertStep(s, p);
    case Begin(subs) => BeginStep(s, subs);
    case Lookup(repo, ans) => LookupStep(s, repo, ans);
    case Skip => SkipStep(s);
    case Update(o) =>
      if o.Refused? { UpdateRefusedStep(s); } else { UpdateAppliedStep(s, o); }
    case Publish(accepted) => PublishStep(s, accepted);
    case Compensate(o) =>
      if o.Applied() { RevertedStep(s, o); } else { HurtStep(s, step); }
    case EndGroup => EndStep(s, step);
    case Finish => EndStep(s, step);
    case Crash =>
      if InWindow(s.pc) { HurtStep(s, step); } else { EndStep(s, step); }
    case _ => ApiStep(s, step);
  }

  // ----- what holds over every run -----

  lemma {:induction false} Reachable(s: State, steps: seq<Step>)
    requires Inv(s) && Runs(s, steps)
    ensures Inv(After(s, steps))
    decreases |steps|
  {
    if steps != [] {
      Preserved(s, steps[0]);
      Reachable(Apply(s, steps[0]), steps[1..]);
    }
  }

  /** The ledger: in every reachable state each stored row, unless its saga is in
      the window or it is damaged, holds the tag of the last accepted event for
      its id, or its seed. */
  lemma LedgerHolds(steps: seq<Step>, id: int)
    requires Runs(START, steps) && id in After(START, steps).db.rows
    ensures var s := After(START, steps);
      !InFlight(s, id) && id !in s.damaged ==> s.db.rows[id].lastSeenTag == Ledger(s, id)
    ensures var s := After(START, steps);
      id in s.origin && SameIdentity(s.db.rows[id], s.origin[id])
  {
    Reachable(START, steps);
  }

  /** The steps that end a saga with the tag written and nothing announced. */
  predicate Breaking(s: State, step: Step, id: int) {
    || (step == Update(ReplyLost) && s.pc.InGroup? && s.pc.rest != [] && s.pc.rest[0].id == id)
    || (step == Compensate(Refused) && InFlight(s, id))
    || (step.Crash? && InFlight(s, id))
  }

  lemma BreaksInUpdate(s: State, o: Outcome, id: int)
    requires Enabled(s, Update(o)) && id in s.db.rows && id !in s.damaged
    requires s.db.rows[id].lastSeenTag == Ledger(s, id)
    requires s.pc.rest[0].id == id ==> s.db.rows[id] == s.pc.rest[0]
    ensures Broken(Apply(s, Update(o)), id) <==> Breaking(s, Update(o), id)
    ensures id in Apply(s, Update(o)).damaged <==> Breaking(s, Update(o), id)
  {
  }

  lemma BreaksInCompensate(s: State, o: Outcome, id: int)
    requires Enabled(s, Compensate(o)) && id in s.db.rows && id !in s.damaged
    requires id != s.pc.sub.id ==> s.db.rows[id].lastSeenTag == Ledger(s, id)
    requires id == s.pc.sub.id ==> s.db.rows[id].lastSeenTag != Ledger(s, id) && s.pc.sub.lastSeenTag == Ledger(s, id)
    ensures Broken(Apply(s, Compensate(o)), id) <==> Breaking(s, Compensate(o), id)
    ensures id in Apply(s, Compensate(o)).damaged <==> Breaking(s, Compensate(o), id)
  {
  }

  lemma BreaksInCrash(s: State, id: int)
    requires id in s.db.rows && id !in s.damaged
    requires s.db.rows[id].lastSeenTag == Ledger(s, id) <==> !InFlight(s, id)
    ensures Broken(Apply(s, Crash), id) <==> Breaking(s, Crash, id)
    ensures id in Apply(s, Crash).damaged <==> Breaking(s, Crash, id)
  {
  }

  lemma BreaksNowhereElse(s: State, step: Step, id: int)
    requires Enabled(s, step) && !step.Update? && !step.Compensate? && !step.Crash?
    requires LedgerInv(Apply(s, step)) && id !in s.damaged && id in Apply(s, step).db.rows
    ensures !Broken(Apply(s, step), id) && id !in Apply(s, step).damaged && !Breaking(s, step, id)
  {
  }

  /** How far "both succeed or both fail" holds: a sound row is broken by a step
      exactly when the step is one of three - an update applied with its reply
      lost, a failed compensation, a crash between the update and the end of the
      saga (before the publish, or after a failed one and before the revert). */
  lemma BreaksExactly(s: State, step: Step, id: int)
    requires Inv(s) && Enabled(s, step)
    requires id in s.db.rows && id in Apply(s, step).db.rows && id !in s.damaged
    ensures Broken(Apply(s, step), id) <==> Breaking(s, step, id)
    ensures id in Apply(s, step).damaged <==> Breaking(s, step, id)
  {
    Preserved(s, step);
    match step
    case Update(o) =>
      TakesFirst(s, o);
      assert !Broken(s, id);
      BreaksInUpdate(s, o, id);
    case Compensate(o) =>
      assert !Broken(s, id);
      BreaksInCompensate(s, o, id);
    case Crash =>
      assert !Broken(s, id);
      BreaksInCrash(s, id);
    case _ => BreaksNowhereElse(s, step, id);
  }

  /** The row and what its subscriber was told differ. */
  predicate Differs(s: State, id: int) { id in s.db.rows && s.db.rows[id].lastSeenTag != Ledger(s, id) }

  /** The steps that make them agree again: an event accepted for the row, or a
      write - the update or the revert - that happens to put back the tag the
      subscriber was told last. */
  predicate Righting(s: State, step: Step, id: int) {
    || (step == Publish(true) && InFlight(s, id))
    || (step.Update? && step.o.Applied() && s.pc.InGroup? && s.pc.rest != [] && s.pc.rest[0].id == id
          && s.pc.tag == Ledger(s, id))
    || (step.Compensate? && step.o.Applied() && InFlight(s, id) && s.pc.sub.lastSeenTag == Ledger(s, id))
  }

  lemma RightedByPublish(s: State, accepted: bool, id: int)
    requires Inv(s) && Enabled(s, Publish(accepted)) && Differs(s, id)
    ensures !Differs(Apply(s, Publish(accepted)), id) <==> Righting(s, Publish(accepted), id)
  {
    if accepted { LastTagSnoc(s.log, Entry(s.pc.sub.id, EventFor(s.pc.sub, s.pc.tag)), id, Seed(s, id)); }
  }

  lemma RightedByWrite(s: State, step: Step, id: int)
    requires Enabled(s, step) && (step.Update? || step.Compensate?) && Differs(s, id)
    ensures !Differs(Apply(s, step), id) <==> Righting(s, step, id)
  {
  }

  lemma RightedByNothingElse(s: State, step: Step, id: int)
    requires Inv(s) && Enabled(s, step) && Differs(s, id) && id in Apply(s, step).db.rows
    requires !step.Publish? && !step.Update? && !step.Compensate?
    ensures Differs(Apply(s, step), id)
  {
    if step.Insert? { InsertKeeps(s.db, step.p); }
    if step.Confirm? { ConfirmKeeps(s.db, step.token); }
  }

  /** A row that differs from the ledger agrees with it after a step exactly when
      the step is one of those. */
  lemma RightsExactly(s: State, step: Step, id: int)
    requires Inv(s) && Enabled(s, step) && Differs(s, id) && id in Apply(s, step).db.rows
    ensures !Differs(Apply(s, step), id) <==> Righting(s, step, id)
  {
    match step
    case Publish(accepted) => RightedByPublish(s, accepted, id);
    case Update(_) => RightedByWrite(s, step, id);
    case Compensate(_) => RightedByWrite(s, step, id);
    case _ => RightedByNothingElse(s, step, id);
  }

  lemma StaysBroken(s: State, step: Step, id: int)
    requires Inv(s) && Enabled(s, step) && Broken(s, id) && id in Apply(s, step).db.rows && !step.Update?
    ensures Broken(Apply(s, step), id)
  {
    RightsExactly(s, step, id);
    assert !InFlight(Apply(s, step), id);
  }

  lemma BrokenTakenUp(s: State, o: Outcome, id: int)
    requires Enabled(s, Update(o)) && Broken(s, id)
    ensures !Broken(Apply(s, Update(o)), id) <==>
      s.pc.rest[0].id == id && (o.Done? || (o.ReplyLost? && s.pc.tag == Ledger(s, id)))
  {
  }

  /** A settled row that is broken stops being so exactly when its next saga takes
      it into the window, or when that saga's update, its reply lost, puts back the
      tag the subscriber was told last. */
  lemma StopsBeingBroken(s: State, step: Step, id: int)
    requires Inv(s) && Enabled(s, step) && Broken(s, id) && id in Apply(s, step).db.rows
    ensures !Broken(Apply(s, step), id) <==>
      && step.Update? && s.pc.rest[0].id == id
      && (step.o.Done? || (step.o.ReplyLost? && s.pc.tag == Ledger(s, id)))
  {
    if step.Update? { BrokenTakenUp(s, step.o, id); } else { StaysBroken(s, step, id); }
  }

  /** The mark of a damaged row is taken off by the next event accepted for it, and
      by nothing else; the row agrees with the ledger then. */
  lemma MarkEndsExactly(s: State, step: Step, id: int)
    requires Inv(s) && Enabled(s, step) && id in s.damaged
    ensures id !in Apply(s, step).damaged <==> step == Publish(true) && InFlight(s, id)
    ensures step == Publish(true) && InFlight(s, id) ==> !Broken(Apply(s, step), id)
  {
    Preserved(s, step);
  }

  /** The tags a subscriber was told, in order. */
  function Told(log: seq<Entry>, id: int): seq<string> {
    if log == [] then []
    else Told(log[..|log| - 1], id) + if log[|log| - 1].id == id then [log[|log| - 1].event.tag] else []
  }

  ghost predicate NoEqualNeighbours(tags: seq<string>) { forall i | 0 <= i < |tags| - 1 :: tags[i] != tags[i + 1] }

  lemma {:induction false} ToldEndsInLastTag(log: seq<Entry>, id: int, seed: string)
    ensures ([seed] + Told(log, id))[|Told(log, id)|] == LastTag(log, id, seed)
  {
    if log != [] { ToldEndsInLastTag(log[..|log| - 1], id, seed); }
  }

  lemma {:induction false} NewsOnly(log: seq<Entry>, id: int, seed: string)
    requires forall k | 0 <= k < |log| && log[k].id == id :: log[k].event.tag != LastTag(log[..k], id, seed)
    ensures NoEqualNeighbours([seed] + Told(log, id))
  {
    if log != [] {
      var n := |log| - 1;
      forall k | 0 <= k < n ensures log[..n][..k] == log[..k] { }
      NewsOnly(log[..n], id, seed);
      ToldEndsInLastTag(log[..n], id, seed);
      var before, told := [seed] + Told(log[..n], id), [seed] + Told(log, id);
      if log[n].id == id {
        assert told == before + [log[n].event.tag];
        forall i | 0 <= i < |told| - 1 ensures told[i] != told[i + 1] {
          if i < |before| - 1 { assert before[i] != before[i + 1]; }
        }
      } else {
        assert told == before;
      }
    }
  }

  /** Over any run, the seed and the tags announced for a row that was never hurt
      have no two equal neighbours. */
  lemma NoBackToBackDuplicates(steps: seq<Step>, id: int)
    requires Runs(START, steps)
    requires id in After(START, steps).origin && id !in After(START, steps).hurt
    ensures var s := After(START, steps);
      NoEqualNeighbours([s.origin[id].lastSeenTag] + Told(s.log, id))
  {
    Reachable(START, steps);
    var s := After(START, steps);
    NewsOnly(s.log, id, s.origin[id].lastSeenTag);
  }

  /** Even a row that was hurt before is only repeated to while it is damaged. */
  lemma RepeatOnlyWhenDamaged(s: State)
    requires Inv(s) && s.pc.Updated? && s.pc.tag == Ledger(s, s.pc.sub.id)
    ensures s.pc.sub.id in s.damaged
  {
    assert Known(s, s.pc.sub);
  }

  /** Only confirmed subscribers are notified: every event of a run carries the
      address, repository and unsubscribe token of an inserted row whose confirm
      token was presented before the snapshot of the event's pass. */
  lemma OnlyConfirmedAreNotified(steps: seq<Step>, k: nat)
    requires Runs(START, steps) && k < |After(START, steps).log|
    ensures var s := After(START, steps);
      var e := s.log[k];
      && e.id in s.origin && |s.basis| == |s.log| && e.event.tag != ""
      && e.event.email == s.origin[e.id].email
      && e.event.repoOwner == s.origin[e.id].repoOwner && e.event.repoName == s.origin[e.id].repoName
      && e.event.unsubscribeToken == s.origin[e.id].unsubscribeToken
      && s.origin[e.id].confirmToken in s.basis[k] && s.basis[k] <= s.presented
  {
    Reachable(START, steps);
  }

  /** A row is pending, and nobody is notified for it, as long as its confirm token
      has not been presented: a row whose token never left the service stays so. */
  lemma PendingUntilPresented(steps: seq<Step>, id: int)
    requires Runs(START, steps) && id in After(START, steps).origin
    requires After(START, steps).origin[id].confirmToken !in After(START, steps).presented
    ensures var s := After(START, steps);
      && (id in s.db.rows ==> !s.db.rows[id].confirmed)
      && (forall subs: seq<Subscription>, i | IsSnapshot(s.db, subs) && 0 <= i < |subs| :: subs[i].id != id)
      && (forall e | e in s.log :: e.id != id)
  {
    Reachable(START, steps);
    var s := After(START, steps);
    forall e | e in s.log ensures e.id != id {
      var k :| 0 <= k < |s.log| && s.log[k] == e;
    }
  }

  /** A row that is gone stays gone: its id is never handed out again. */
  lemma {:induction false} GoneForGood(s: State, steps: seq<Step>, id: int)
    requires Inv(s) && Runs(s, steps) && id in s.origin && id !in s.db.rows
    ensures id !in After(s, steps).db.rows
    decreases |steps|
  {
    if steps != [] {
      Preserved(s, steps[0]);
      if steps[0].Insert? { InsertKeeps(s.db, steps[0].p); }
      GoneForGood(Apply(s, steps[0]), steps[1..], id);
    }
  }

  /** The scanner's writes reach the row they are meant for and no other, and a
      write for a row that is gone is a successful no-op after which the event is
      still published. Only the scanner moves tags. */
  lemma StaleWritesAreHarmless(s: State, step: Step, id: int)
    requires Inv(s) && Enabled(s, step) && id in s.db.rows && id in Apply(s, step).db.rows
    requires Apply(s, step).db.rows[id].lastSeenTag != s.db.rows[id].lastSeenTag
    ensures (step.Update? && s.pc.rest[0].id == id) || (step.Compensate? && s.pc.sub.id == id)
  {
    if step.Confirm? { ConfirmKeeps(s.db, step.token); }
    if step.Insert? { InsertKeeps(s.db, step.p); }
  }

  lemma StaleSagaStillPublishes(s: State)
    requires Inv(s) && Enabled(s, Update(Done)) && s.pc.rest[0].id !in s.db.rows
    ensures var steps := [Update(Done), Publish(true)];
      && Runs(s, steps)
      && After(s, steps).db == s.db
      && After(s, steps).log == s.log + [Entry(s.pc.rest[0].id, EventFor(s.pc.rest[0], s.pc.tag))]
  {
    var s1 := Apply(s, Update(Done));
    RunsOne(s, Update(Done));
    RunsOne(s1, Publish(true));
    RunsAppend(s, [Update(Done)], [Publish(true)]);
    assert [Update(Done)] + [Publish(true)] == [Update(Done), Publish(true)];
  }

  // ----- the claim does fail -----

  function SoleRow(p: Params): Subscription { NewRow(1, p).(confirmed := true) }

  /** One subscriber, confirmed and between two passes. */
  lemma RunToConfirmed(p: Params) returns (steps: seq<Step>)
    ensures Runs(START, steps)
    ensures var s := After(START, steps);
      && s.pc.Idle? && s.db.rows == map[1 := SoleRow(p)] && s.log == [] && Seed(s, 1) == p.lastSeenTag
  {
    var s1 := Apply(START, Insert(p));
    RunsOne(START, Insert(p));
    RunsThen(START, [Insert(p)], Confirm(p.confirmToken));
    steps := [Insert(p)] + [Confirm(p.confirmToken)];
    assert Apply(s1, Confirm(p.confirmToken)).db.rows == map[1 := SoleRow(p)];
  }

  /** A pass that reads the only row and gets a tag for its repository. */
  lemma RunToGroup(s: State, row: Subscription, tag: string) returns (steps: seq<Step>)
    requires s.pc.Idle? && s.db.rows == map[row.id := row] && row.confirmed && tag != ""
    ensures Runs(s, steps)
    ensures var s' := After(s, steps);
      && s'.pc.InGroup? && s'.pc.left == {} && s'.pc.tag == tag && s'.pc.rest == [row]
      && s'.db == s.db && s'.log == s.log && s'.origin == s.origin
  {
    SoleGroup(row);
    RunsOne(s, Begin([row]));
    RunsThen(s, [Begin([row])], Lookup(row.Repo(), Ok(tag)));
    steps := [Begin([row])] + [Lookup(row.Repo(), Ok(tag))];
  }

  /** A run up to the update, for one subscriber. */
  lemma RunToUpdate(p: Params, tag: string) returns (steps: seq<Step>)
    requires tag != "" && p.lastSeenTag != tag
    ensures Runs(START, steps)
    ensures var s := After(START, steps);
      && s.pc.InGroup? && s.pc.left == {} && s.pc.tag == tag && s.pc.rest == [SoleRow(p)]
      && s.db.rows == map[1 := SoleRow(p)] && s.log == [] && Seed(s, 1) == p.lastSeenTag
  {
    steps := RunToConfirmed(p);
    var more := RunToGroup(After(START, steps), SoleRow(p), tag);
    RunsAppend(START, steps, more);
    steps := steps + more;
  }

  /** The ways a saga ends with the tag written and nothing announced. */
  datatype Ending = CrashBeforePublish | CrashAfterPublish | RevertFails | UpdateReplyLost

  function EndingSteps(end: Ending): seq<Step> {
    match end
    case CrashBeforePublish => [Update(Done), Crash]
    case CrashAfterPublish => [Update(Done), Publish(false), Crash]
    case RevertFails => [Update(Done), Publish(false), Compensate(Refused)]
    case UpdateReplyLost => [Update(ReplyLost)]
  }

  lemma RunsPair(s: State, first: Step, more: seq<Step>)
    requires Enabled(s, first) && Runs(Apply(s, first), more)
    ensures Runs(s, [first] + more) && After(s, [first] + more) == After(Apply(s, first), more)
  {
    RunsOne(s, first);
    RunsAppend(s, [first], more);
  }

  /** From the window on. */
  lemma WindowBreaks(s: State, end: Ending, id: int)
    requires s.pc.Updated? && s.pc.sub.id == id && Differs(s, id) && !end.UpdateReplyLost?
    ensures var steps := EndingSteps(end)[1..];
      && Runs(s, steps) && Broken(After(s, steps), id)
      && After(s, steps).db.rows == s.db.rows && After(s, steps).log == s.log
  {
    var steps := EndingSteps(end)[1..];
    if end.CrashBeforePublish? {
      RunsOne(s, Crash);
      assert steps == [Crash];
    } else {
      RunsOne(Apply(s, Publish(false)), steps[1]);
      RunsPair(s, Publish(false), [steps[1]]);
      assert [Publish(false)] + [steps[1]] == steps;
    }
  }

  lemma EndBreaks(s: State, end: Ending, row: Subscription)
    requires s.pc.InGroup? && s.pc.rest == [row] && row.id in s.db.rows
    requires s.pc.tag != row.lastSeenTag && s.pc.tag != Ledger(s, row.id)
    ensures var steps := EndingSteps(end);
      && Runs(s, steps) && Broken(After(s, steps), row.id)
      && After(s, steps).db.rows[row.id].lastSeenTag == s.pc.tag && After(s, steps).log == s.log
  {
    var steps := EndingSteps(end);
    if end.UpdateReplyLost? {
      RunsOne(s, steps[0]);
    } else {
      WindowBreaks(Apply(s, Update(Done)), end, row.id);
      RunsPair(s, Update(Done), steps[1..]);
      assert [Update(Done)] + steps[1..] == steps;
    }
  }

  /** For every subscriber and tag there are runs that end with the tag written and
      never announced: a crash before the publish, the window the design accepts;
      a crash, or a failed revert, after a failed publish; and an update that was
      applied and whose reply was lost. */
  lemma BothOrNeitherFails(p: Params, tag: string, end: Ending) returns (steps: seq<Step>)
    requires tag != "" && p.lastSeenTag != tag
    ensures Runs(START, steps + EndingSteps(end))
    ensures var s := After(START, steps + EndingSteps(end));
      1 in s.db.rows && s.db.rows[1].lastSeenTag == tag && Broken(s, 1) && s.log == []
  {
    steps := RunToUpdate(p, tag);
    EndBreaks(After(START, steps), end, SoleRow(p));
    RunsAppend(START, steps, EndingSteps(end));
  }

  /** An update whose reply is lost, for the only row, and the end of its pass. */
  lemma LostPass(s: State, row: Subscription) returns (steps: seq<Step>)
    requires s.pc.InGroup? && s.pc.left == {} && s.pc.rest == [row]
    requires s.pc.tag != row.lastSeenTag && s.db.rows == map[row.id := row]
    ensures Runs(s, steps) && steps == [Update(ReplyLost), EndGroup, Finish]
    ensures var s' := After(s, steps);
      && s'.pc.Idle? && s'.db.rows == map[row.id := row.(lastSeenTag := s.pc.tag)]
      && s'.log == s.log && s'.origin == s.origin
  {
    var s1 := Apply(s, Update(ReplyLost));
    var s2 := Apply(s1, EndGroup);
    RunsOne(s2, Finish);
    RunsPair(s1, EndGroup, [Finish]);
    RunsPair(s, Update(ReplyLost), [EndGroup] + [Finish]);
    steps := [Update(ReplyLost)] + ([EndGroup] + [Finish]);
  }

  /** And a broken row can agree with the ledger again without any event: two
      passes, both with the reply to their one update lost, the second when GitHub
      has gone back to the tag the subscriber knows. */
  lemma RightedInSilence(p: Params, tag: string) returns (steps: seq<Step>, more: seq<Step>)
    requires tag != "" && p.lastSeenTag != "" && p.lastSeenTag != tag
    ensures Runs(START, steps) && Broken(After(START, steps), 1)
    ensures Runs(START, steps + more)
    ensures var s := After(START, steps + more); 1 in s.db.rows && s.pc.Idle? && !Differs(s, 1) && s.log == []
  {
    var before := RunToUpdate(p, tag);
    var first := LostPass(After(START, before), SoleRow(p));
    RunsAppend(START, before, first);
    steps := before + first;
    var s := After(START, steps);
    var row := SoleRow(p).(lastSeenTag := tag);
    var again := RunToGroup(s, row, p.lastSeenTag);
    var second := LostPass(After(s, again), row);
    RunsAppend(s, again, second);
    more := again + second;
    RunsAppend(START, steps, more);
  }
}

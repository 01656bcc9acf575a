/** A row over any number of passes while one tag stays the latest. A pass may
    fail to list the subscriptions, fail the lookup for the row's repository, or
    crash anywhere. Between the passes the API may do anything that leaves the row
    itself alone, and within them every other row may fare as it likes. */
module Retry {
  import opened Common
  import opened Domain
  import opened SubscriptionTable
  import opened ScanPass

  /** A pass takes its snapshot in the order of its groups. One that is cut off has
      processed the first done members of it, and, if wrote, has written the tag of
      the next and got no further. */
  datatype Turn =
    | Scan(subs: seq<Subscription>, ans: Answers, faults: Faults)
    | Cut(subs: seq<Subscription>, ans: Answers, faults: Faults, done: nat, wrote: bool)
    | Unlisted
    | Api(next: Table)

  ghost predicate TurnOk(t: Table, turn: Turn, id: int, tag: string) {
    && Valid(t) && AllWellFormed(t) && id in t.rows
    && match turn
       case Scan(subs, ans, _) => IsSnapshot(t, subs) && LatestOrErr(AnswerFor(t.rows[id], ans), tag)
       case Cut(subs, ans, _, done, _) =>
         IsSnapshot(t, subs) && LatestOrErr(AnswerFor(t.rows[id], ans), tag) && done <= |subs|
       case Unlisted => true
       case Api(next) => Valid(next) && AllWellFormed(next) && id in next.rows && next.rows[id] == t.rows[id]
  }

  predicate LatestOrErr(ans: Result<string, AppError>, tag: string) { ans.Ok? ==> ans.value == tag }

  /** A saga that got as far as its update, or not. */
  function Begun(t: Table, sub: Subscription, ans: Result<string, AppError>, wrote: bool): Table {
    if wrote && Due(sub, ans) then SetTag(t, sub.id, ans.value) else t
  }

  /** The saga a cut pass was in, up to its update. */
  function Interrupted(t: Table, turn: Turn): Table
    requires turn.Cut?
  {
    if turn.done < |turn.subs|
    then Begun(t, turn.subs[turn.done], AnswerFor(turn.subs[turn.done], turn.ans), turn.wrote) else t
  }

  function Next(t: Table, turn: Turn): Table {
    match turn
    case Scan(subs, ans, faults) => RunTable(t, subs, ans, faults)
    case Cut(subs, ans, faults, done, _) =>
      if done <= |subs| then Interrupted(RunTable(t, subs[..done], ans, faults), turn) else t
    case Unlisted => t
    case Api(next) => next
  }

  function Accepted(turn: Turn): seq<Entry> {
    match turn
    case Scan(subs, ans, faults) => RunLog(subs, ans, faults)
    case Cut(subs, ans, faults, done, _) => if done <= |subs| then RunLog(subs[..done], ans, faults) else []
    case Unlisted => []
    case Api(_) => []
  }

  ghost predicate Follows(t: Table, turns: seq<Turn>, id: int, tag: string)
    decreases |turns|
  {
    turns == [] || (TurnOk(t, turns[0], id, tag) && Follows(Next(t, turns[0]), turns[1..], id, tag))
  }

  function Final(t: Table, turns: seq<Turn>): Table
    decreases |turns|
  {
    if turns == [] then t else Final(Next(t, turns[0]), turns[1..])
  }

  function Log(turns: seq<Turn>): seq<Entry> { if turns == [] then [] else Accepted(turns[0]) + Log(turns[1..]) }

  /** What becomes of a row that waits for the tag: it keeps waiting, is told, or
      gets the tag without being told. */
  datatype Fate = Spared | Told | Lost

  function SagaFate(f: SagaFaults): Fate {
    if Sent(f) then Told else if FailedCleanly(f) then Spared else Lost
  }

  function FateOf(turn: Turn, row: Subscription): Fate {
    match turn
    case Scan(_, ans, faults) => if AnswerFor(row, ans).Err? then Spared else SagaFate(faults(row.id))
    case Cut(subs, ans, faults, done, wrote) =>
      if AnswerFor(row, ans).Err? || done > |subs| then Spared
      else if row in subs[..done] then SagaFate(faults(row.id))
      else if wrote && done < |subs| && subs[done] == row then Lost
      else Spared
    case Unlisted => Spared
    case Api(_) => Spared
  }

  /** The row after its fate, and what is announced to it. */
  function Suffers(row: Subscription, tag: string, fate: Fate): Subscription {
    if fate.Spared? then row else row.(lastSeenTag := tag)
  }

  function Hears(row: Subscription, tag: string, fate: Fate): seq<Entry> {
    if row.lastSeenTag != tag && fate.Told? then [Entry(row.id, EventFor(row, tag))] else []
  }

  lemma SagaOnRow(t: Table, subs: seq<Subscription>, ans: Answers, faults: Faults, row: Subscription, tag: string)
    requires DistinctIds(subs) && row in subs && row.id in t.rows && t.rows[row.id] == row && tag != ""
    requires LatestOrErr(AnswerFor(row, ans), tag)
    ensures var fate := if AnswerFor(row, ans).Err? then Spared else SagaFate(faults(row.id));
      && row.id in RunTable(t, subs, ans, faults).rows
      && RunTable(t, subs, ans, faults).rows[row.id] == Suffers(row, tag, fate)
      && EventsOf(RunLog(subs, ans, faults), row.id) == Hears(row, tag, fate)
  {
    var k :| 0 <= k < |subs| && subs[k] == row;
    RowTouchedOnce(t, subs, ans, faults, k);
    EventsOfOneSaga(subs, ans, faults, k);
  }

  /** The members a cut pass got through, and what they are to the row. */
  lemma PrefixOnRow(t: Table, subs: seq<Subscription>, done: nat, ans: Answers, faults: Faults, row: Subscription,
                    tag: string)
    requires DistinctIds(subs) && row in subs && row.id in t.rows && t.rows[row.id] == row && tag != ""
    requires done <= |subs|
    requires LatestOrErr(AnswerFor(row, ans), tag)
    ensures var fate := if row !in subs[..done] || AnswerFor(row, ans).Err? then Spared else SagaFate(faults(row.id));
      && row.id in RunTable(t, subs[..done], ans, faults).rows
      && RunTable(t, subs[..done], ans, faults).rows[row.id] == Suffers(row, tag, fate)
      && EventsOf(RunLog(subs[..done], ans, faults), row.id) == Hears(row, tag, fate)
  {
    if row in subs[..done] {
      SagaOnRow(t, subs[..done], ans, faults, row, tag);
    } else {
      forall x | x in subs[..done] ensures x.id != row.id {
        assert x in subs;
        DistinctMembers(subs, x, row);
      }
      RowUntouched(t, subs[..done], ans, faults, row.id);
      NoEventsFor(subs[..done], ans, faults, row.id);
    }
  }

  /** The member a cut pass was at is the row itself or another. */
  lemma NextMember(subs: seq<Subscription>, done: nat, row: Subscription)
    requires DistinctIds(subs) && row in subs && done < |subs|
    ensures subs[done] == row || subs[done].id != row.id
    ensures row in subs[..done] ==> subs[done].id != row.id
  {
    DistinctMembers(subs, subs[done], row);
    if row in subs[..done] {
      var k :| 0 <= k < done && subs[..done][k] == row;
      assert subs[k].id != subs[done].id;
    }
  }

  /** A saga begun for another row, or for the row as it is. */
  lemma BegunOnRow(t: Table, sub: Subscription, ans: Result<string, AppError>, wrote: bool, row: Subscription,
                   tag: string)
    requires row.id in t.rows && (sub == row || sub.id != row.id) && tag != ""
    requires sub == row ==> t.rows[row.id] == row && LatestOrErr(ans, tag)
    ensures row.id in Begun(t, sub, ans, wrote).rows
    ensures Begun(t, sub, ans, wrote).rows[row.id] ==
      if sub == row && ans.Ok? && wrote then row.(lastSeenTag := tag) else t.rows[row.id]
  {
  }

  lemma CutOnRow(t: Table, turn: Turn, id: int, tag: string)
    requires turn.Cut? && TurnOk(t, turn, id, tag) && t.rows[id].confirmed && tag != ""
    ensures var row := t.rows[id];
      && id in Next(t, turn).rows
      && Next(t, turn).rows[id] == Suffers(row, tag, FateOf(turn, row))
      && EventsOf(Accepted(turn), id) == Hears(row, tag, FateOf(turn, row))
  {
    var row, subs, done := t.rows[id], turn.subs, turn.done;
    assert row.id == id && row in subs;
    PrefixOnRow(t, subs, done, turn.ans, turn.faults, row, tag);
    if done < |subs| {
      NextMember(subs, done, row);
      BegunOnRow(RunTable(t, subs[..done], turn.ans, turn.faults), subs[done], AnswerFor(subs[done], turn.ans),
                 turn.wrote, row, tag);
    }
  }

  /** What one turn does to the row. */
  lemma TurnOnRow(t: Table, turn: Turn, id: int, tag: string)
    requires TurnOk(t, turn, id, tag) && t.rows[id].confirmed && tag != ""
    ensures var row := t.rows[id];
      && id in Next(t, turn).rows
      && Next(t, turn).rows[id] == Suffers(row, tag, FateOf(turn, row))
      && EventsOf(Accepted(turn), id) == Hears(row, tag, FateOf(turn, row))
  {
    if turn.Scan? {
      SagaOnRow(t, turn.subs, turn.ans, turn.faults, t.rows[id], tag);
    } else if turn.Cut? {
      CutOnRow(t, turn, id, tag);
    }
  }

  /** Turns that spare the row, any number of them, leave it waiting: passes that
      failed cleanly, got no tag, listed nothing or crashed elsewhere. */
  lemma {:induction false} FailuresLeaveRow(t: Table, turns: seq<Turn>, id: int, tag: string)
    requires Follows(t, turns, id, tag) && id in t.rows && t.rows[id].confirmed && tag != ""
    requires forall turn | turn in turns :: FateOf(turn, t.rows[id]).Spared?
    ensures id in Final(t, turns).rows && Final(t, turns).rows[id] == t.rows[id]
    ensures EventsOf(Log(turns), id) == []
    decreases |turns|
  {
    if turns != [] {
      TurnOnRow(t, turns[0], id, tag);
      FailuresLeaveRow(Next(t, turns[0]), turns[1..], id, tag);
      EventsOfConcat(Accepted(turns[0]), Log(turns[1..]), id);
    }
  }

  /** Once the row holds the tag, no outcome of any later pass moves it. */
  lemma {:induction false} SeenTagIsQuiet(t: Table, turns: seq<Turn>, id: int, tag: string)
    requires Follows(t, turns, id, tag) && id in t.rows && t.rows[id].confirmed
    requires t.rows[id].lastSeenTag == tag && tag != ""
    ensures id in Final(t, turns).rows && Final(t, turns).rows[id] == t.rows[id]
    ensures EventsOf(Log(turns), id) == []
    decreases |turns|
  {
    if turns != [] {
      TurnOnRow(t, turns[0], id, tag);
      SeenTagIsQuiet(Next(t, turns[0]), turns[1..], id, tag);
      EventsOfConcat(Accepted(turns[0]), Log(turns[1..]), id);
    }
  }

  lemma {:induction false} FollowsAppend(t: Table, a: seq<Turn>, b: seq<Turn>, id: int, tag: string)
    requires Follows(t, a + b, id, tag)
    ensures Follows(t, a, id, tag) && Follows(Final(t, a), b, id, tag) && Final(t, a + b) == Final(Final(t, a), b)
    decreases |a|
  {
    if a == [] {
      assert a + b == b;
    } else {
      assert (a + b)[0] == a[0] && (a + b)[1..] == a[1..] + b;
      FollowsAppend(Next(t, a[0]), a[1..], b, id, tag);
    }
  }

  lemma {:induction false} LogAppend(a: seq<Turn>, b: seq<Turn>)
    ensures Log(a + b) == Log(a) + Log(b)
    decreases |a|
  {
    if a == [] {
      assert a + b == b;
    } else {
      assert (a + b)[0] == a[0] && (a + b)[1..] == a[1..] + b;
      LogAppend(a[1..], b);
      Regroup(Accepted(a[0]), Log(a[1..]), Log(b));
    }
  }

  /** A turn that writes the tag, then anything: the events are that turn's own. */
  lemma TagThenQuiet(t: Table, turn: Turn, rest: seq<Turn>, id: int, tag: string)
    requires Follows(t, [turn] + rest, id, tag) && id in t.rows && t.rows[id].confirmed && tag != ""
    requires !FateOf(turn, t.rows[id]).Spared?
    ensures EventsOf(Log([turn] + rest), id) == Hears(t.rows[id], tag, FateOf(turn, t.rows[id]))
    ensures var t' := Final(t, [turn] + rest);
      id in t'.rows && t'.rows[id] == t.rows[id].(lastSeenTag := tag)
  {
    assert ([turn] + rest)[0] == turn && ([turn] + rest)[1..] == rest;
    TurnOnRow(t, turn, id, tag);
    SeenTagIsQuiet(Next(t, turn), rest, id, tag);
    EventsOfConcat(Accepted(turn), Log(rest), id);
  }

  /** The first turn that does not spare the row decides for good. */
  lemma FirstTurnDecides(t: Table, before: seq<Turn>, turn: Turn, rest: seq<Turn>, id: int, tag: string)
    requires id in t.rows && t.rows[id].confirmed && tag != ""
    requires Follows(t, before + ([turn] + rest), id, tag)
    requires (forall b | b in before :: FateOf(b, t.rows[id]).Spared?) && !FateOf(turn, t.rows[id]).Spared?
    ensures var turns := before + ([turn] + rest);
      && EventsOf(Log(turns), id) == Hears(t.rows[id], tag, FateOf(turn, t.rows[id]))
      && id in Final(t, turns).rows && Final(t, turns).rows[id] == t.rows[id].(lastSeenTag := tag)
  {
    FollowsAppend(t, before, [turn] + rest, id, tag);
    LogAppend(before, [turn] + rest);
    EventsOfConcat(Log(before), Log([turn] + rest), id);
    FailuresLeaveRow(t, before, id, tag);
    TagThenQuiet(Final(t, before), turn, rest, id, tag);
  }

  /** Any number of turns that spare the row, then a pass whose saga for it goes
      through - crashed later or not - then anything at all: exactly one event is
      accepted for the row, with the tag, and the row ends holding it. */
  lemma RetryToExactlyOneEvent(t: Table, before: seq<Turn>, hit: Turn, rest: seq<Turn>, id: int, tag: string)
    requires id in t.rows && t.rows[id].confirmed && t.rows[id].lastSeenTag != tag && tag != ""
    requires Follows(t, before + ([hit] + rest), id, tag)
    requires (forall turn | turn in before :: FateOf(turn, t.rows[id]).Spared?) && FateOf(hit, t.rows[id]).Told?
    ensures var turns := before + ([hit] + rest);
      && EventsOf(Log(turns), id) == [Entry(id, EventFor(t.rows[id], tag))]
      && id in Final(t, turns).rows && Final(t, turns).rows[id] == t.rows[id].(lastSeenTag := tag)
  {
    FirstTurnDecides(t, before, hit, rest, id, tag);
    RowHasItsId(t, before + ([hit] + rest), id, tag);
  }

  lemma RowHasItsId(t: Table, turns: seq<Turn>, id: int, tag: string)
    requires Follows(t, turns, id, tag) && turns != [] && id in t.rows
    ensures t.rows[id].id == id
  {
    assert TurnOk(t, turns[0], id, tag);
  }

  /** The failures that neither spare the row nor tell it - a lost reply to the
      update, a failed revert, a crash in the window - write the tag without an
      event, and the subscriber never hears of it. */
  lemma UncleanFailureIsSilent(t: Table, before: seq<Turn>, miss: Turn, rest: seq<Turn>, id: int, tag: string)
    requires id in t.rows && t.rows[id].confirmed && t.rows[id].lastSeenTag != tag && tag != ""
    requires Follows(t, before + ([miss] + rest), id, tag)
    requires (forall turn | turn in before :: FateOf(turn, t.rows[id]).Spared?) && FateOf(miss, t.rows[id]).Lost?
    ensures var turns := before + ([miss] + rest);
      && EventsOf(Log(turns), id) == []
      && id in Final(t, turns).rows && Final(t, turns).rows[id] == t.rows[id].(lastSeenTag := tag)
  {
    FirstTurnDecides(t, before, miss, rest, id, tag);
  }
}

/** A pass, whole or cut off, and Subscribe, in the sequential form the code has, are
    runs of the step relation: what holds over every run holds of the code. */
module PassRefinement {
  import opened Common
  import opened Bags
  import opened Domain
  import opened Names
  import opened SubscriptionTable
  import opened ScanPass
  import opened ReleaseProtocol
  import opened Postgres
  import Retry
  import SubscriptionService

  /** The steps of one group member. */
  function MemberSteps(sub: Subscription, tag: string, f: SagaFaults): seq<Step> {
    if sub.lastSeenTag == tag then [Skip]
    else if !f.update.Done? then [Update(f.update)]
    else if f.published then [Update(Done), Publish(true)]
    else [Update(Done), Publish(false), Compensate(f.compensate)]
  }

  /** Moves that are neither an insert nor a lookup. */
  predicate Plain(steps: seq<Step>) { forall i | 0 <= i < |steps| :: !steps[i].Insert? && !steps[i].Lookup? }

  lemma PlainConcat(a: seq<Step>, b: seq<Step>)
    requires Plain(a) && Plain(b)
    ensures Plain(a + b)
  {
  }

  /** The same pass bookkeeping before and after, with one more piece of the run done. */
  ghost predicate Progress(s: State, s': State, subs: seq<Subscription>, ans: Answers, fs: Faults) {
    && s'.snapshot == s.snapshot
    && s'.db == RunTable(s.db, subs, ans, fs)
    && s'.log == s.log + RunLog(subs, ans, fs)
  }

  lemma MemberRunsTo(s: State, f: SagaFaults)
    requires s.pc.InGroup? && s.pc.rest != [] && s.pc.tag != ""
    ensures var sub := s.pc.rest[0];
      var steps := MemberSteps(sub, s.pc.tag, f);
      && Runs(s, steps)
      && After(s, steps).snapshot == s.snapshot
      && After(s, steps).db == Process(s.db, sub, Ok(s.pc.tag), f)
      && After(s, steps).log == s.log + Out(sub, Ok(s.pc.tag), f)
      && After(s, steps).pc == InGroup(s.pc.left, s.pc.cur, s.pc.tag, s.pc.rest[1..])
  {
    var sub := s.pc.rest[0];
    var steps := MemberSteps(sub, s.pc.tag, f);
    RunsOne(s, steps[0]);
    assert steps[..1] == [steps[0]];
    if |steps| > 1 {
      RunsThen(s, steps[..1], steps[1]);
      assert steps[..1] + [steps[1]] == steps[..2];
      if |steps| > 2 {
        RunsThen(s, steps[..2], steps[2]);
        assert steps[..2] + [steps[2]] == steps;
      }
    }
    assert steps == steps[..|steps|];
  }

  lemma MemberRun(s: State, ans: Answers, fs: Faults)
    requires s.pc.InGroup? && s.pc.rest != [] && s.pc.tag != ""
    requires AnswerFor(s.pc.rest[0], ans) == Ok(s.pc.tag)
    ensures var steps := MemberSteps(s.pc.rest[0], s.pc.tag, fs(s.pc.rest[0].id));
      && Runs(s, steps)
      && Progress(s, After(s, steps), [s.pc.rest[0]], ans, fs)
      && After(s, steps).pc == InGroup(s.pc.left, s.pc.cur, s.pc.tag, s.pc.rest[1..])
  {
    var sub := s.pc.rest[0];
    MemberRunsTo(s, fs(sub.id));
    SoleRun(s.db, sub, ans, fs);
  }

  lemma ProgressTrans(s: State, s1: State, s2: State, a: seq<Subscription>, b: seq<Subscription>, ans: Answers,
                      fs: Faults)
    requires Progress(s, s1, a, ans, fs) && Progress(s1, s2, b, ans, fs)
    ensures Progress(s, s2, a + b, ans, fs)
  {
    RunConcat(s.db, a, b, ans, fs);
    LogConcat(a, b, ans, fs);
  }

  lemma TakeFirst(rest: seq<Subscription>, k: nat)
    requires 0 < k <= |rest|
    ensures [rest[0]] + rest[1..][..k - 1] == rest[..k] && rest[1..][k - 1..] == rest[k..]
    ensures forall x | x in rest[1..] :: x in rest
  {
  }

  lemma MemberPlain(sub: Subscription, tag: string, f: SagaFaults)
    ensures Plain(MemberSteps(sub, tag, f))
  {
  }

  /** The first members of a group, the others still to come. */
  lemma {:induction false} MembersRun(s: State, k: nat, ans: Answers, fs: Faults) returns (steps: seq<Step>)
    requires s.pc.InGroup? && s.pc.tag != "" && k <= |s.pc.rest|
    requires forall x | x in s.pc.rest :: AnswerFor(x, ans) == Ok(s.pc.tag)
    ensures Runs(s, steps) && Progress(s, After(s, steps), s.pc.rest[..k], ans, fs)
    ensures After(s, steps).pc == InGroup(s.pc.left, s.pc.cur, s.pc.tag, s.pc.rest[k..])
    ensures Plain(steps)
    decreases k
  {
    steps := [];
    var rest := s.pc.rest;
    if k > 0 {
      MemberRun(s, ans, fs);
      TakeFirst(rest, k);
      var first := MemberSteps(rest[0], s.pc.tag, fs(rest[0].id));
      var s1 := After(s, first);
      var more := MembersRun(s1, k - 1, ans, fs);
      RunsAppend(s, first, more);
      ProgressTrans(s, s1, After(s1, more), [rest[0]], rest[1..][..k - 1], ans, fs);
      MemberPlain(rest[0], s.pc.tag, fs(rest[0].id));
      PlainConcat(first, more);
      steps := first + more;
    }
  }

  /** All members of a group ask about one repository, so the answer for the first
      is the answer for each. */
  lemma OneAnswerPerGroup(subs: seq<Subscription>, repo: string, ans: Answers)
    requires (forall x | x in subs :: WellFormed(x)) && repo in Repos(subs)
    ensures var group := Keep(subs, {repo});
      && group != [] && group[0] in subs && group[0].Repo() == repo
      && forall x | x in group ::
           && x.repoOwner == group[0].repoOwner && x.repoName == group[0].repoName
           && AnswerFor(x, ans) == AnswerFor(group[0], ans)
  {
    var group := Keep(subs, {repo});
    KeepMembers(subs, {repo});
    var y :| y in subs && y.Repo() == repo;
    assert y in group;
    assert group[0] in group;
    forall x | x in group ensures x.repoOwner == group[0].repoOwner && x.repoName == group[0].repoName {
      RepoKeyInjective(x.repoOwner, x.repoName, group[0].repoOwner, group[0].repoName);
    }
  }

  /** A group whose lookup gave a tag, from there on. */
  lemma OpenGroup(s: State, ans: Answers, fs: Faults) returns (steps: seq<Step>)
    requires s.pc.InGroup? && s.pc.tag != "" && forall x | x in s.pc.rest :: AnswerFor(x, ans) == Ok(s.pc.tag)
    ensures Runs(s, steps) && Progress(s, After(s, steps), s.pc.rest, ans, fs)
    ensures After(s, steps).pc == Choosing(s.pc.left) && Plain(steps)
  {
    steps := MembersRun(s, |s.pc.rest|, ans, fs);
    var s1 := After(s, steps);
    assert s.pc.rest[..|s.pc.rest|] == s.pc.rest;
    RunsThen(s, steps, EndGroup);
    PlainConcat(steps, [EndGroup]);
    steps := steps + [EndGroup];
  }

  /** A whole group: one lookup, and then moves of the scanner only. */
  lemma GroupSteps(s: State, repo: string, ans: Answers, fs: Faults) returns (moves: seq<Step>)
    requires s.pc.Choosing? && repo in s.pc.left && repo in Repos(s.snapshot)
    requires forall x | x in s.snapshot :: WellFormed(x)
    ensures Keep(s.snapshot, {repo}) != [] && Plain(moves)
    ensures var s1 := Apply(s, Lookup(repo, AnswerFor(Keep(s.snapshot, {repo})[0], ans)));
      && Runs(s1, moves) && Progress(s, After(s1, moves), Keep(s.snapshot, {repo}), ans, fs)
      && After(s1, moves).pc == Choosing(s.pc.left - {repo})
  {
    var group := Keep(s.snapshot, {repo});
    OneAnswerPerGroup(s.snapshot, repo, ans);
    var a := AnswerFor(group[0], ans);
    moves := [];
    if a.Ok? && a.value != "" {
      moves := OpenGroup(Apply(s, Lookup(repo, a)), ans, fs);
    } else {
      NothingDue(s.db, group, ans, fs);
    }
  }

  lemma GroupRun(s: State, repo: string, ans: Answers, fs: Faults) returns (steps: seq<Step>)
    requires s.pc.Choosing? && repo in s.pc.left && repo in Repos(s.snapshot)
    requires forall x | x in s.snapshot :: WellFormed(x)
    ensures Runs(s, steps) && Progress(s, After(s, steps), Keep(s.snapshot, {repo}), ans, fs)
    ensures After(s, steps).pc == Choosing(s.pc.left - {repo})
  {
    var moves := GroupSteps(s, repo, ans, fs);
    var lookup := Lookup(repo, AnswerFor(Keep(s.snapshot, {repo})[0], ans));
    RunsOne(s, lookup);
    RunsAppend(s, [lookup], moves);
    steps := [lookup] + moves;
  }

  lemma {:induction false} GroupsRun(s: State, order: seq<string>, ans: Answers, fs: Faults) returns (steps: seq<Step>)
    requires s.pc.Choosing? && Distinct(order) && (forall k | k in order :: k in s.pc.left && k in Repos(s.snapshot))
    requires forall x | x in s.snapshot :: WellFormed(x)
    ensures Runs(s, steps) && Progress(s, After(s, steps), Grouped(order, s.snapshot), ans, fs)
    ensures After(s, steps).pc == Choosing(s.pc.left - set k | k in order)
    decreases |order|
  {
    steps := [];
    if order == [] {
      assert s.pc.left - (set k | k in order) == s.pc.left;
    } else {
      var n := |order| - 1;
      assert order == order[..n] + [order[n]];
      steps := GroupsRun(s, order[..n], ans, fs);
      var s1 := After(s, steps);
      assert forall i | 0 <= i < n :: order[..n][i] != order[n];
      var more := GroupRun(s1, order[n], ans, fs);
      RunsAppend(s, steps, more);
      ProgressTrans(s, s1, After(s1, more), Grouped(order[..n], s.snapshot), Keep(s.snapshot, {order[n]}), ans, fs);
      assert s.pc.left - (set k | k in order[..n]) - {order[n]} == s.pc.left - set k | k in order;
      steps := steps + more;
    }
  }

  /** The whole pass, for any snapshot order, group order, answers and outcomes. */
  lemma PassIsRun(s: State, subs: seq<Subscription>, order: seq<string>, ans: Answers, fs: Faults)
    returns (steps: seq<Step>)
    requires s.pc.Idle? && IsSnapshot(s.db, subs) && AllWellFormed(s.db) && IsOrder(order, subs)
    ensures Runs(s, steps)
    ensures var s' := After(s, steps);
      && s'.pc.Idle?
      && s'.db == RunTable(s.db, subs, ans, fs)
      && s'.log == s.log + RunLog(Grouped(order, subs), ans, fs)
      && multiset(s'.log) == multiset(s.log) + multiset(RunLog(subs, ans, fs))
  {
    var s1 := Apply(s, Begin(subs));
    RunsOne(s, Begin(subs));
    var groups := GroupsRun(s1, order, ans, fs);
    var s2 := After(s1, groups);
    assert s2.pc.left == {};
    RunsOne(s2, Finish);
    RunsAppend(s, [Begin(subs)], groups);
    RunsAppend(s, [Begin(subs)] + groups, [Finish]);
    GroupingRefinesPlainLoop(s.db, order, subs, ans, fs);
    steps := [Begin(subs)] + groups + [Finish];
  }

  // ----- a pass cut off by a crash -----

  /** Where a pass is after its first members: some groups done, and a part of the next. */
  lemma {:induction false} SplitPrefix(order: seq<string>, subs: seq<Subscription>, done: nat) returns (j: nat, k: nat)
    requires done <= |Grouped(order, subs)|
    ensures j <= |order| && (j == |order| ==> done == |Grouped(order, subs)|)
    ensures j < |order| ==>
      var group := Keep(subs, {order[j]});
      && k < |group| && done < |Grouped(order, subs)| && Grouped(order, subs)[done] == group[k]
      && Grouped(order, subs)[..done] == Grouped(order[..j], subs) + group[..k]
  {
    j, k := |order|, 0;
    if order != [] && done < |Grouped(order, subs)| {
      var n := |order| - 1;
      var before := Grouped(order[..n], subs);
      if done < |before| {
        j, k := SplitPrefix(order[..n], subs, done);
        assert order[..n][..j] == order[..j] && order[..n][j] == order[j];
      } else {
        j, k := n, done - |before|;
      }
    }
  }

  /** The start of one group: its lookup, some members, and perhaps the update of the next. */
  lemma PartOfGroup(s: State, repo: string, k: nat, ans: Answers, fs: Faults, wrote: bool) returns (steps: seq<Step>)
    requires s.pc.Choosing? && repo in s.pc.left && repo in Repos(s.snapshot) && k < |Keep(s.snapshot, {repo})|
    requires forall x | x in s.snapshot :: WellFormed(x)
    ensures Runs(s, steps)
    ensures var group := Keep(s.snapshot, {repo});
      var db := RunTable(s.db, group[..k], ans, fs);
      && After(s, steps).db == Retry.Begun(db, group[k], AnswerFor(group[k], ans), wrote)
      && After(s, steps).log == s.log + RunLog(group[..k], ans, fs)
  {
    var group := Keep(s.snapshot, {repo});
    OneAnswerPerGroup(s.snapshot, repo, ans);
    assert group[k] in group;
    var a := AnswerFor(group[0], ans);
    RunsOne(s, Lookup(repo, a));
    steps := [Lookup(repo, a)];
    if a.Ok? && a.value != "" {
      var s1 := Apply(s, Lookup(repo, a));
      var more := MembersRun(s1, k, ans, fs);
      RunsAppend(s, steps, more);
      steps := steps + more;
      if wrote && group[k].lastSeenTag != a.value {
        assert group[k..][0] == group[k];
        RunsThen(s, steps, Update(Done));
        steps := steps + [Update(Done)];
      }
    } else {
      forall x | x in group[..k] ensures !Due(x, AnswerFor(x, ans)) { assert x in group; }
      NothingDue(s.db, group[..k], ans, fs);
    }
  }

  lemma GroupedIsSnapshot(t: Table, subs: seq<Subscription>, order: seq<string>)
    requires IsSnapshot(t, subs) && IsOrder(order, subs)
    ensures IsSnapshot(t, Grouped(order, subs))
  {
    GroupedPermutes(order, subs);
    SameMembers(Grouped(order, subs), subs);
    PermutedDistinct(subs, Grouped(order, subs));
    forall i | 0 <= i < |Grouped(order, subs)| ensures Grouped(order, subs)[i] in subs { }
  }

  /** The groups of a pass that come first in its order. */
  lemma FirstGroups(s: State, subs: seq<Subscription>, order: seq<string>, j: nat, ans: Answers, fs: Faults)
    returns (steps: seq<Step>)
    requires s.pc.Idle? && IsSnapshot(s.db, subs) && AllWellFormed(s.db) && IsOrder(order, subs) && j <= |order|
    ensures Runs(s, steps)
    ensures var s' := After(s, steps);
      && s'.snapshot == subs && s'.pc.Choosing? && (j < |order| ==> order[j] in s'.pc.left && order[j] in Repos(subs))
      && s'.db == RunTable(s.db, Grouped(order[..j], subs), ans, fs)
      && s'.log == s.log + RunLog(Grouped(order[..j], subs), ans, fs)
  {
    var s1 := Apply(s, Begin(subs));
    RunsOne(s, Begin(subs));
    assert forall i | 0 <= i < |order| :: order[i] in order;
    var groups := GroupsRun(s1, order[..j], ans, fs);
    RunsAppend(s, [Begin(subs)], groups);
    steps := [Begin(subs)] + groups;
    if j < |order| { assert order[j] !in order[..j]; }
  }

  /** The part of a pass before a crash. */
  lemma PartOfPass(s: State, subs: seq<Subscription>, order: seq<string>, ans: Answers, fs: Faults, done: nat,
                   wrote: bool)
    returns (steps: seq<Step>)
    requires s.pc.Idle? && IsSnapshot(s.db, subs) && AllWellFormed(s.db) && IsOrder(order, subs)
    requires done <= |Grouped(order, subs)|
    ensures Runs(s, steps)
    ensures var all := Grouped(order, subs);
      var db := RunTable(s.db, all[..done], ans, fs);
      && After(s, steps).db ==
           (if done < |all| then Retry.Begun(db, all[done], AnswerFor(all[done], ans), wrote) else db)
      && After(s, steps).log == s.log + RunLog(all[..done], ans, fs)
  {
    var all := Grouped(order, subs);
    var j, k := SplitPrefix(order, subs, done);
    steps := FirstGroups(s, subs, order, j, ans, fs);
    if j < |order| {
      var before, group := Grouped(order[..j], subs), Keep(subs, {order[j]});
      var part := PartOfGroup(After(s, steps), order[j], k, ans, fs, wrote);
      RunsAppend(s, steps, part);
      RunConcat(s.db, before, group[..k], ans, fs);
      LogConcat(before, group[..k], ans, fs);
      Regroup(s.log, RunLog(before, ans, fs), RunLog(group[..k], ans, fs));
      steps := steps + part;
    } else {
      assert order[..j] == order && all[..done] == all;
    }
  }

  lemma ThenCrash(s: State, steps: seq<Step>)
    requires Runs(s, steps)
    ensures Runs(s, steps + [Crash])
    ensures var s', s1 := After(s, steps + [Crash]), After(s, steps);
      s'.pc.Idle? && s'.db == s1.db && s'.log == s1.log
  {
    RunsThen(s, steps, Crash);
  }

  lemma CutNext(t: Table, all: seq<Subscription>, ans: Answers, fs: Faults, done: nat, wrote: bool)
    requires done <= |all|
    ensures var turn := Retry.Cut(all, ans, fs, done, wrote);
      var db := RunTable(t, all[..done], ans, fs);
      && Retry.Next(t, turn) ==
           (if done < |all| then Retry.Begun(db, all[done], AnswerFor(all[done], ans), wrote) else db)
      && Retry.Accepted(turn) == RunLog(all[..done], ans, fs)
  {
  }

  /** A pass that crashes anywhere - between two sagas, or in the window of one - is
      a run that ends in Crash, with the table and the log of the cut turn. */
  lemma CutIsRun(s: State, subs: seq<Subscription>, order: seq<string>, ans: Answers, fs: Faults, done: nat,
                 wrote: bool)
    returns (steps: seq<Step>)
    requires s.pc.Idle? && IsSnapshot(s.db, subs) && AllWellFormed(s.db) && IsOrder(order, subs)
    requires done <= |Grouped(order, subs)|
    ensures Runs(s, steps) && steps != [] && steps[|steps| - 1] == Crash
    ensures var turn := Retry.Cut(Grouped(order, subs), ans, fs, done, wrote);
      && IsSnapshot(s.db, turn.subs)
      && After(s, steps).pc.Idle?
      && After(s, steps).db == Retry.Next(s.db, turn) && After(s, steps).log == s.log + Retry.Accepted(turn)
  {
    GroupedIsSnapshot(s.db, subs, order);
    steps := PartOfPass(s, subs, order, ans, fs, done, wrote);
    CutNext(s.db, Grouped(order, subs), ans, fs, done, wrote);
    ThenCrash(s, steps);
    steps := steps + [Crash];
  }

  /** Insert, mail and undo, for any outcomes of the calls. */
  lemma SubscribeIsRun(s: State, p: Params, w: SubscriptionService.SubscribeWorld) returns (steps: seq<Step>)
    ensures Runs(s, steps)
    ensures var s' := After(s, steps);
      s'.db == SubscriptionService.CreateAndMail(s.db, p, w).0 && s'.log == s.log && s'.pc == s.pc
  {
    steps := [];
    if w.create.Applied() {
      RunsOne(s, Insert(p));
      steps := [Insert(p)];
      var r := InsertOver(s.db, p, w.create).1;
      if r.Ok? && !w.mailWorks && w.delete.Applied() {
        RunsThen(s, steps, Remove(r.value.id));
        steps := steps + [Remove(r.value.id)];
      }
    }
  }

  /** The statements of Confirm and Unsubscribe, for any outcome. */
  lemma ConfirmIsRun(s: State, token: string, o: Outcome) returns (steps: seq<Step>)
    ensures Runs(s, steps)
    ensures var s' := After(s, steps);
      && s'.db == Over(s.db, SubscriptionTable.Confirm(s.db, token), o) && s'.log == s.log && s'.pc == s.pc
      && (o.Applied() ==> token in s'.presented)
  {
    steps := [];
    if o.Applied() {
      RunsOne(s, ReleaseProtocol.Confirm(token));
      steps := [ReleaseProtocol.Confirm(token)];
    }
  }

  lemma UnsubscribeIsRun(s: State, token: string, o: Outcome) returns (steps: seq<Step>)
    ensures Runs(s, steps)
    ensures var s' := After(s, steps);
      s'.db == Over(s.db, SubscriptionTable.Unsubscribe(s.db, token), o) && s'.log == s.log && s'.pc == s.pc
  {
    steps := [];
    if o.Applied() {
      RunsOne(s, ReleaseProtocol.Unsubscribe(token));
      steps := [ReleaseProtocol.Unsubscribe(token)];
    }
  }
}

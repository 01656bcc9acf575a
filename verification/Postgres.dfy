/** PostgresSubscriptionStore: the table as mutable state. The caller says with
    an Outcome what becomes of each write on its way to the database. */
module Postgres {
  import opened Common
  import opened Domain
  import opened SubscriptionTable

  /** The reply to an insert over an unreliable connection. */
  function InsertOver(t: Table, p: Params, o: Outcome): (Table, Result<Subscription, AppError>) {
    match o
    case Done => Insert(t, p)
    case Refused => (t, Err(Failure))
    case ReplyLost => (Insert(t, p).0, Err(Failure))
  }

  function Over(t: Table, applied: Table, o: Outcome): Table { if o.Applied() then applied else t }

  class PostgresSubscriptionStore {
    var rows: map<int, Subscription>
    var nextId: int

    function Tab(): Table reads this { Table(rows, nextId) }

    ghost predicate Valid() reads this { SubscriptionTable.Valid(Tab()) }

    /** Every row came from Subscribe. */
    ghost predicate Normal() reads this { AllWellFormed(Tab()) }

    constructor ()
      ensures Valid() && Normal() && Tab() == EMPTY_TABLE
    {
      rows, nextId := map[], 1;
    }

    method CreateSubscription(p: Params, o: Outcome) returns (r: Result<Subscription, AppError>)
      requires Valid()
      modifies this
      ensures Valid() && (Tab(), r) == InsertOver(old(Tab()), p, o)
      ensures r == Err(AlreadySubscribed) <==>
        o.Done? && old(nextId) <= 0x7FFF_FFFF_FFFF_FFFF && Taken(old(rows), p)
      ensures r.Ok? <==> o.Done? && old(nextId) <= 0x7FFF_FFFF_FFFF_FFFF && !Taken(old(rows), p)
      ensures r.Ok? ==> rows == old(rows)[old(nextId) := r.value]
      ensures old(Normal()) && WellFormed(NewRow(old(nextId), p)) ==> Normal()
    {
      InsertKeeps(Tab(), p);
      InsertDecides(Tab(), p);
      if AllWellFormed(Tab()) && WellFormed(NewRow(nextId, p)) { InsertKeepsShape(Tab(), p); }
      if o.Refused? { return Err(Failure); }
      var (t, reply) := Insert(Tab(), p);
      rows, nextId := t.rows, t.nextId;
      r := if o.Done? then reply else Err(Failure);
    }

    method DeleteSubscription(id: int, o: Outcome) returns (r: Result<(), AppError>)
      requires Valid()
      modifies this
      ensures old(Normal()) ==> Normal()
      ensures Valid() && Tab() == Over(old(Tab()), Delete(old(Tab()), id), o) && r == Ack(o)
    {
      DeletesKeep(Tab(), id, "");
      if o.Applied() { rows := rows - {id}; }
      r := Ack(o);
    }

    /** Finds the row by its token; the row it returns is the stored one. */
    method ConfirmByToken(token: string, o: Outcome) returns (r: Result<Subscription, AppError>)
      requires Valid()
      modifies this
      ensures old(Normal()) ==> Normal()
      ensures Valid() && Tab() == Over(old(Tab()), Confirm(old(Tab()), token), o)
      ensures o.Done? && (exists id | id in old(rows) :: old(rows)[id].confirmToken == token) ==>
        r.Ok? && r.value.id in rows && rows[r.value.id] == r.value && r.value.confirmed && r.value.confirmToken == token
      ensures o.Done? && (forall id | id in old(rows) :: old(rows)[id].confirmToken != token) ==>
        r == Err(TokenNotFound) && rows == old(rows)
      ensures !o.Done? ==> r == Err(Failure)
    {
      ConfirmKeeps(Tab(), token);
      if o.Refused? { return Err(Failure); }
      var t := Confirm(Tab(), token);
      assert (forall id | id in rows :: rows[id].confirmToken != token) ==> t.rows == rows;
      rows := t.rows;
      if o.ReplyLost? { return Err(Failure); }
      var hits := set id | id in rows && rows[id].confirmToken == token;
      if hits == {} {
        assert forall id | id in rows :: rows[id].confirmToken == token ==> id in hits;
        return Err(TokenNotFound);
      }
      ghost var hit := Member(hits);
      var id :| id in hits;
      r := Ok(rows[id]);
    }

    method DeleteByUnsubscribeToken(token: string, o: Outcome) returns (r: Result<(), AppError>)
      requires Valid()
      modifies this
      ensures old(Normal()) ==> Normal()
      ensures Valid() && Tab() == Over(old(Tab()), SubscriptionTable.Unsubscribe(old(Tab()), token), o)
      ensures r == if !o.Done? then Err(Failure)
                   else if exists id | id in old(rows) :: old(rows)[id].unsubscribeToken == token then Ok(())
                   else Err(TokenNotFound)
    {
      DeletesKeep(Tab(), 0, token);
      if o.Refused? { return Err(Failure); }
      var hits := set id | id in rows && rows[id].unsubscribeToken == token;
      assert (exists id | id in rows :: rows[id].unsubscribeToken == token) <==> hits != {} by {
        if hits != {} { var hit := Member(hits); assert hit in rows; }
        if id :| id in rows && rows[id].unsubscribeToken == token { assert id in hits; }
      }
      rows := map id | id in rows && rows[id].unsubscribeToken != token :: rows[id];
      if o.ReplyLost? { return Err(Failure); }
      r := if hits == {} then Err(TokenNotFound) else Ok(());
    }

    /** Reads every confirmed row once, or fails without a result. */
    method ListConfirmedForScan(readFails: bool) returns (r: Result<seq<Subscription>, AppError>)
      requires Valid()
      ensures r.Err? <==> readFails
      ensures r.Ok? ==> IsSnapshot(Tab(), r.value)
    {
      if readFails { return Err(Failure); }
      var left := set id | id in rows && rows[id].confirmed;
      var subs: seq<Subscription> := [];
      while left != {}
        invariant left <= rows.Keys
        invariant forall id | id in left :: rows[id].confirmed
        invariant forall i | 0 <= i < |subs| ::
          subs[i].id in rows && rows[subs[i].id] == subs[i] && subs[i].confirmed && subs[i].id !in left
        invariant forall id | id in rows && rows[id].confirmed :: id in left || rows[id] in subs
        invariant DistinctIds(subs)
      {
        ghost var next := Member(left);
        var id :| id in left;
        left := left - {id};
        subs := subs + [rows[id]];
      }
      r := Ok(subs);
    }

    method UpdateLastSeenTag(id: int, tag: string, o: Outcome) returns (r: Result<(), AppError>)
      requires Valid()
      modifies this
      ensures old(Normal()) ==> Normal()
      ensures Valid() && Tab() == Over(old(Tab()), SetTag(old(Tab()), id, tag), o) && r == Ack(o)
    {
      SetTagKeeps(Tab(), id, tag);
      if o.Applied() && id in rows { rows := rows[id := rows[id].(lastSeenTag := tag)]; }
      r := Ack(o);
    }
  }
}

/** The subscriptions table as a value: one function per SQL statement, and the
    constraints of the schema. */
module SubscriptionTable {
  import opened Common
  import opened Domain
  import opened Names

  /** The largest value of a bigserial column. */
  const MAX_ID := 0x7FFF_FFFF_FFFF_FFFF

  /** The rows by primary key, and the next value of the id sequence. */
  datatype Table = Table(rows: map<int, Subscription>, nextId: int)

  const EMPTY_TABLE := Table(map[], 1)

  datatype Params = Params(
    email: string,
    repoOwner: string,
    repoName: string,
    confirmToken: string,
    unsubscribeToken: string,
    lastSeenTag: string)

  // ----- constraints -----

  /** Two rows agree on a column set the schema declares unique. */
  predicate Clash(a: Subscription, b: Subscription) {
    || (a.email == b.email && a.repoOwner == b.repoOwner && a.repoName == b.repoName)
    || a.confirmToken == b.confirmToken
    || a.unsubscribeToken == b.unsubscribeToken
  }

  /** What Subscribe puts into a row. */
  predicate WellFormed(row: Subscription) {
    IsRepo(row.repoOwner, row.repoName) && IsToken(row.confirmToken) && IsToken(row.unsubscribeToken)
  }

  /** Primary key, sequence and the three unique constraints. */
  ghost predicate Valid(t: Table) {
    && t.nextId >= 1
    && (forall id | id in t.rows :: t.rows[id].id == id && 1 <= id < t.nextId)
    && (forall i, j | i in t.rows && j in t.rows && i != j :: !Clash(t.rows[i], t.rows[j]))
  }

  ghost predicate AllWellFormed(t: Table) { forall id | id in t.rows :: WellFormed(t.rows[id]) }

  // ----- statements -----

  /** A new row is pending: the column default of confirmed is false. */
  function NewRow(id: int, p: Params): Subscription {
    Subscription(id, p.email, p.repoOwner, p.repoName, false, p.confirmToken, p.unsubscribeToken, p.lastSeenTag)
  }

  predicate Conflicts(t: Table, p: Params) {
    exists id | id in t.rows :: Clash(t.rows[id], NewRow(t.nextId, p))
  }

  /** insert ... returning: a constraint violation still consumes an id. */
  function Insert(t: Table, p: Params): (Table, Result<Subscription, AppError>) {
    if t.nextId > MAX_ID then (t, Err(Failure))
    else if Conflicts(t, p) then (t.(nextId := t.nextId + 1), Err(AlreadySubscribed))
    else
      var row := NewRow(t.nextId, p);
      (Table(t.rows[t.nextId := row], t.nextId + 1), Ok(row))
  }

  /** update ... set last_seen_tag = $2 where id = $1 */
  function SetTag(t: Table, id: int, tag: string): Table {
    if id in t.rows then t.(rows := t.rows[id := t.rows[id].(lastSeenTag := tag)]) else t
  }

  /** delete ... where id = $1 */
  function Delete(t: Table, id: int): Table { t.(rows := t.rows - {id}) }

  /** update ... set confirmed = true where confirm_token = $1 */
  function Confirm(t: Table, token: string): Table {
    t.(rows := map id | id in t.rows ::
         if t.rows[id].confirmToken == token then t.rows[id].(confirmed := true) else t.rows[id])
  }

  /** delete ... where unsubscribe_token = $1 */
  function Unsubscribe(t: Table, token: string): Table {
    t.(rows := map id | id in t.rows && t.rows[id].unsubscribeToken != token :: t.rows[id])
  }

  /** One row per id, each of them stored and confirmed, and none left out: what
      a scan reads, in any order. */
  ghost predicate IsSnapshot(t: Table, subs: seq<Subscription>) {
    && (forall i | 0 <= i < |subs| :: subs[i].id in t.rows && t.rows[subs[i].id] == subs[i] && subs[i].confirmed)
    && (forall id | id in t.rows && t.rows[id].confirmed :: t.rows[id] in subs)
    && DistinctIds(subs)
  }

  ghost predicate DistinctIds(subs: seq<Subscription>) {
    forall i, j | 0 <= i < j < |subs| :: subs[i].id != subs[j].id
  }

  lemma DistinctMembers(subs: seq<Subscription>, x: Subscription, y: Subscription)
    requires DistinctIds(subs) && x in subs && y in subs
    ensures x.id == y.id ==> x == y
  {
  }

  // ----- what the statements keep -----

  /** An insert keeps every constraint, never touches a stored row, and hands out
      an id larger than any handed out before. */
  lemma InsertKeeps(t: Table, p: Params)
    requires Valid(t)
    ensures var (t', r) := Insert(t, p);
      && Valid(t')
      && t.nextId <= t'.nextId <= t.nextId + 1
      && (r.Ok? ==> t.nextId !in t.rows && t'.rows == t.rows[t.nextId := NewRow(t.nextId, p)])
      && (r.Err? ==> t'.rows == t.rows)
      && (r == Err(AlreadySubscribed) <==> t.nextId <= MAX_ID && Conflicts(t, p))
  {
    var (t', r) := Insert(t, p);
    if r.Ok? {
      forall i, j | i in t'.rows && j in t'.rows && i != j ensures !Clash(t'.rows[i], t'.rows[j]) {
        if i != t.nextId && j != t.nextId { assert !Clash(t.rows[i], t.rows[j]); }
      }
    }
  }

  /** Some stored row has the new one's address and repository, or one of its tokens. */
  ghost predicate Taken(rows: map<int, Subscription>, p: Params) {
    exists id | id in rows ::
      || (rows[id].email == p.email && rows[id].repoOwner == p.repoOwner && rows[id].repoName == p.repoName)
      || rows[id].confirmToken == p.confirmToken
      || rows[id].unsubscribeToken == p.unsubscribeToken
  }

  /** An insert is refused as a duplicate exactly then; it fails otherwise only when
      the ids are used up. Refused or not it uses one up. What it stores is what it
      was given, pending. */
  lemma InsertDecides(t: Table, p: Params)
    ensures var (t', r) := Insert(t, p);
      && t'.nextId == (if t.nextId <= 0x7FFF_FFFF_FFFF_FFFF then t.nextId + 1 else t.nextId)
      && (r == Err(AlreadySubscribed) <==> t.nextId <= 0x7FFF_FFFF_FFFF_FFFF && Taken(t.rows, p))
      && (r.Ok? <==> t.nextId <= 0x7FFF_FFFF_FFFF_FFFF && !Taken(t.rows, p))
      && (r.Ok? ==> r.value == Subscription(t.nextId, p.email, p.repoOwner, p.repoName, false,
                                            p.confirmToken, p.unsubscribeToken, p.lastSeenTag))
  {
    if Conflicts(t, p) {
      var id :| id in t.rows && Clash(t.rows[id], NewRow(t.nextId, p));
      assert Taken(t.rows, p);
    }
    if id :| id in t.rows && Clash(t.rows[id], NewRow(t.nextId, p)) { assert Conflicts(t, p); }
  }

  /** No address is subscribed to a repository twice. */
  lemma OneRowPerSubscription(t: Table, i: int, j: int)
    requires Valid(t) && i in t.rows && j in t.rows && i != j
    ensures t.rows[i].email != t.rows[j].email || t.rows[i].repoOwner != t.rows[j].repoOwner
      || t.rows[i].repoName != t.rows[j].repoName
  {
    assert !Clash(t.rows[i], t.rows[j]);
  }

  lemma InsertKeepsShape(t: Table, p: Params)
    requires AllWellFormed(t) && WellFormed(NewRow(t.nextId, p))
    ensures AllWellFormed(Insert(t, p).0)
  {
  }

  /** Dropping rows and changing only confirmed and last_seen_tag keeps every constraint. */
  lemma SameIdentityKeeps(t: Table, t': Table)
    requires Valid(t) && t'.nextId == t.nextId
    requires forall k | k in t'.rows :: k in t.rows && SameIdentity(t'.rows[k], t.rows[k])
    ensures Valid(t') && (AllWellFormed(t) ==> AllWellFormed(t'))
  {
    forall i, j | i in t'.rows && j in t'.rows && i != j ensures !Clash(t'.rows[i], t'.rows[j]) {
      assert !Clash(t.rows[i], t.rows[j]);
    }
  }

  /** SetTag changes a tag, and only in the row of that id. */
  lemma SetTagKeeps(t: Table, id: int, tag: string)
    requires Valid(t)
    ensures var t' := SetTag(t, id, tag);
      && Valid(t') && t'.nextId == t.nextId && t'.rows.Keys == t.rows.Keys
      && (forall k | k in t.rows :: t'.rows[k] == if k == id then t.rows[k].(lastSeenTag := tag) else t.rows[k])
      && (AllWellFormed(t) ==> AllWellFormed(t'))
  {
    SameIdentityKeeps(t, SetTag(t, id, tag));
  }

  /** Both deletes remove whole rows and change no other. */
  lemma DeletesKeep(t: Table, id: int, token: string)
    requires Valid(t)
    ensures Valid(Delete(t, id)) && Valid(Unsubscribe(t, token))
    ensures forall k :: k in Delete(t, id).rows <==> k in t.rows && k != id
    ensures forall k :: k in Unsubscribe(t, token).rows <==> k in t.rows && t.rows[k].unsubscribeToken != token
    ensures AllWellFormed(t) ==> AllWellFormed(Delete(t, id)) && AllWellFormed(Unsubscribe(t, token))
  {
    SameIdentityKeeps(t, Delete(t, id));
    SameIdentityKeeps(t, Unsubscribe(t, token));
  }

  /** Confirm keeps identity and tag, and never takes a confirmation back. */
  lemma ConfirmKeeps(t: Table, token: string)
    requires Valid(t)
    ensures var t' := Confirm(t, token);
      && Valid(t') && t'.nextId == t.nextId && t'.rows.Keys == t.rows.Keys
      && (forall k | k in t.rows ::
            && SameIdentity(t'.rows[k], t.rows[k])
            && t'.rows[k].lastSeenTag == t.rows[k].lastSeenTag
            && (t'.rows[k].confirmed <==> t.rows[k].confirmed || t.rows[k].confirmToken == token))
      && (AllWellFormed(t) ==> AllWellFormed(t'))
  {
    SameIdentityKeeps(t, Confirm(t, token));
  }

  /** A token names at most one row: confirming or unsubscribing reaches no second one. */
  lemma TokenNamesOneRow(t: Table, i: int, j: int)
    requires Valid(t) && i in t.rows && j in t.rows && i != j
    ensures t.rows[i].confirmToken != t.rows[j].confirmToken
    ensures t.rows[i].unsubscribeToken != t.rows[j].unsubscribeToken
  {
    assert !Clash(t.rows[i], t.rows[j]);
  }

  /** An update for a deleted row changes nothing, however the row came back:
      a row inserted later has another id. */
  lemma StaleUpdateIsNoOp(t: Table, sub: Subscription, p: Params, tag: string)
    requires Valid(t) && sub.id in t.rows
    ensures var gone := Delete(t, sub.id);
      var back := Insert(gone, p).0;
      SetTag(gone, sub.id, tag) == gone && SetTag(back, sub.id, tag) == back
  {
    DeletesKeep(t, sub.id, sub.unsubscribeToken);
    InsertKeeps(Delete(t, sub.id), p);
  }
}

/** The scanner's view of the table: internal gRPC server and its client. */
module InternalApi {
  import opened Common
  import opened Domain
  import opened SubscriptionTable
  import opened Postgres

  /** The protobuf message; a nil pointer is None. */
  datatype InternalSubscription = InternalSubscription(
    id: int,
    email: string,
    repoOwner: string,
    repoName: string,
    confirmed: bool,
    confirmToken: string,
    unsubscribeToken: string,
    lastSeenTag: string)

  function ToInternal(s: Subscription): Option<InternalSubscription> {
    Some(InternalSubscription(s.id, s.email, s.repoOwner, s.repoName, s.confirmed,
                              s.confirmToken, s.unsubscribeToken, s.lastSeenTag))
  }

  /** The message carries the row, field by field. */
  predicate Carries(item: Option<InternalSubscription>, s: Subscription) {
    && item.Some?
    && item.value.id == s.id && item.value.email == s.email
    && item.value.repoOwner == s.repoOwner && item.value.repoName == s.repoName
    && item.value.confirmed == s.confirmed
    && item.value.confirmToken == s.confirmToken && item.value.unsubscribeToken == s.unsubscribeToken
    && item.value.lastSeenTag == s.lastSeenTag
  }

  function FromInternal(item: Option<InternalSubscription>): Subscription {
    match item
    case None => Subscription(0, "", "", "", false, "", "", "")
    case Some(i) => Subscription(i.id, i.email, i.repoOwner, i.repoName, i.confirmed,
                                 i.confirmToken, i.unsubscribeToken, i.lastSeenTag)
  }

  /** What fails of one listing: the remote call, or the read of the table behind it. */
  datatype Listing = Listing(callFails: bool, readFails: bool) {
    predicate Fails() { callFails || readFails }
  }

  class Server {
    const store: PostgresSubscriptionStore

    constructor (store: PostgresSubscriptionStore)
      ensures this.store == store
    {
      this.store := store;
    }

    method ListConfirmedForScan(readFails: bool)
      returns (r: Result<seq<Option<InternalSubscription>>, AppError>, ghost subs: seq<Subscription>)
      requires store.Valid()
      ensures r.Err? <==> readFails
      ensures r.Ok? ==> IsSnapshot(store.Tab(), subs)
      ensures r.Ok? ==> r.value == seq(|subs|, i requires 0 <= i < |subs| => ToInternal(subs[i]))
      ensures r.Ok? ==> forall i | 0 <= i < |r.value| :: Carries(r.value[i], subs[i])
    {
      var stored := store.ListConfirmedForScan(readFails);
      if stored.Err? { return Err(stored.error), []; }
      var rows := stored.value;
      subs := rows;
      var response: seq<Option<InternalSubscription>> := [];
      for i := 0 to |rows|
        invariant response == seq(i, j requires 0 <= j < i => ToInternal(rows[j]))
      {
        response := response + [ToInternal(rows[i])];
      }
      r := Ok(response);
    }

    method UpdateLastSeenTag(id: int, tag: string, o: Outcome) returns (r: Result<(), AppError>)
      requires store.Valid()
      modifies store
      ensures old(store.Normal()) ==> store.Normal()
      ensures store.Valid() && store.Tab() == Over(old(store.Tab()), SetTag(old(store.Tab()), id, tag), o)
      ensures r == Ack(o)
    {
      r := store.UpdateLastSeenTag(id, tag, o);
    }
  }

  class GRPCStore {
    const server: Server

    constructor (server: Server)
      ensures this.server == server
    {
      this.server := server;
    }

    /** What arrives at the scanner is a snapshot of the stored rows themselves:
        both conversions together lose nothing. It arrives exactly when neither the
        call nor the read behind it fails. */
    method ListConfirmedForScan(w: Listing) returns (r: Result<seq<Subscription>, AppError>)
      requires server.store.Valid()
      ensures r.Err? <==> w.Fails()
      ensures r.Ok? ==> IsSnapshot(server.store.Tab(), r.value)
    {
      if w.callFails { return Err(Failure); }
      var response, stored := server.ListConfirmedForScan(w.readFails);
      if response.Err? { return Err(response.error); }
      var subs: seq<Subscription> := [];
      for i := 0 to |response.value|
        invariant subs == stored[..i]
      {
        subs := subs + [FromInternal(response.value[i])];
      }
      assert subs == stored;
      r := Ok(subs);
    }

    method UpdateLastSeenTag(id: int, tag: string, o: Outcome) returns (r: Result<(), AppError>)
      requires server.store.Valid()
      modifies server.store
      ensures server.store.Valid() && (old(server.store.Normal()) ==> server.store.Normal())
      ensures server.store.Tab() == Over(old(server.store.Tab()), SetTag(old(server.store.Tab()), id, tag), o)
      ensures r == Ack(o)
    {
      r := server.UpdateLastSeenTag(id, tag, o);
    }
  }
}

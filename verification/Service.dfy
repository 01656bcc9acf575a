/** Subscribe, Confirm and Unsubscribe over the store, the GitHub client and a mailer. */
module SubscriptionService {
  import opened Common
  import opened Text
  import opened Domain
  import opened Names
  import opened SubscriptionTable
  import opened Postgres
  import GitHub

  type Random = bytes: seq<byte> | |bytes| == 32 witness seq(32, _ => 0)

  /** The outcomes of everything one Subscribe calls, in order. The random source
      yields 32 bytes or fails. */
  datatype SubscribeWorld = SubscribeWorld(
    exists_: GitHub.Call,
    latest: GitHub.Call,
    confirmBytes: Option<Random>,
    unsubscribeBytes: Option<Random>,
    create: Outcome,
    mailWorks: bool,
    delete: Outcome)

  // ----- before the insert -----

  /** The row to insert, or the first error on the way, and the cache after the two lookups. */
  function Prepare(email: string, repo: string, parses: string -> bool,
                   cache: Option<GitHub.Cache>, world: GitHub.World, w: SubscribeWorld)
    : (Option<GitHub.Cache>, Result<Params, AppError>)
  {
    match NormalizeEmail(email, parses)
    case Err(e) => (cache, Err(e))
    case Ok(address) =>
      match NormalizeRepo(repo)
      case Err(e) => (cache, Err(e))
      case Ok((owner, name)) =>
        var (cache1, there) := GitHub.Lookup(cache, world, GitHub.Question(GitHub.Exists, owner, name), w.exists_);
        if there.Fail? then (cache1, Err(there.error))
        else
          var (cache2, tag) := GitHub.Lookup(cache1, world, GitHub.Question(GitHub.Latest, owner, name), w.latest);
          match tag
          case Fail(e) => (cache2, Err(e))
          case Present => (cache2, Err(Failure))
          case Tag(seed) =>
            if w.confirmBytes.None? || w.unsubscribeBytes.None? then (cache2, Err(Failure))
            else (cache2, Ok(Params(address, owner, name, HexEncode(w.confirmBytes.value),
                                    HexEncode(w.unsubscribeBytes.value), seed)))
  }

  /** Whatever is inserted has the stored shape: two slash-free lower-case parts
      that the input named, a normalised address, two tokens. The repository was
      found, and the seed is the tag the second lookup answered for it. */
  lemma PreparedIsWellFormed(email: string, repo: string, parses: string -> bool,
                             cache: Option<GitHub.Cache>, world: GitHub.World, w: SubscribeWorld, id: int)
    requires Prepare(email, repo, parses, cache, world, w).1.Ok?
    ensures var p := Prepare(email, repo, parses, cache, world, w).1.value;
      && WellFormed(NewRow(id, p)) && !NewRow(id, p).confirmed
      && ToLower(TrimSpace(repo)) == NewRow(id, p).Repo()
      && NormalizeEmail(p.email, parses) == Ok(p.email)
      && var (cache1, there) :=
           GitHub.Lookup(cache, world, GitHub.Question(GitHub.Exists, p.repoOwner, p.repoName), w.exists_);
      && !there.Fail?
      && GitHub.Lookup(cache1, world, GitHub.Question(GitHub.Latest, p.repoOwner, p.repoName), w.latest).1
           == GitHub.Tag(p.lastSeenTag)
  {
    PreparedNames(email, repo, parses, cache, world, w);
  }

  /** The parts of the row by themselves. */
  lemma PreparedNames(email: string, repo: string, parses: string -> bool,
                      cache: Option<GitHub.Cache>, world: GitHub.World, w: SubscribeWorld)
    requires Prepare(email, repo, parses, cache, world, w).1.Ok?
    ensures var p := Prepare(email, repo, parses, cache, world, w).1.value;
      && IsRepo(p.repoOwner, p.repoName) && ToLower(TrimSpace(repo)) == p.repoOwner + "/" + p.repoName
      && NormalizeEmail(p.email, parses) == Ok(p.email)
      && IsToken(p.confirmToken) && IsToken(p.unsubscribeToken)
  {
    var p := Prepare(email, repo, parses, cache, world, w).1.value;
    assert NormalizeRepo(repo) == Ok((p.repoOwner, p.repoName));
    assert NormalizeEmail(email, parses) == Ok(p.email);
    NormalizeRepoAccepts(repo, p.repoOwner, p.repoName);
    NormalizeEmailRoundTrip(email, parses);
    HexEncodeIsHex(w.confirmBytes.value);
    HexEncodeIsHex(w.unsubscribeBytes.value);
  }

  /** When Subscribe gets as far as its insert, and which error it gives otherwise: the
      first that applies. The lookups are made in this order and no others, and none
      before address and repository are accepted. */
  lemma PrepareDecides(email: string, repo: string, parses: string -> bool,
                       cache: Option<GitHub.Cache>, world: GitHub.World, w: SubscribeWorld)
    ensures var (after, r) := Prepare(email, repo, parses, cache, world, w);
      var address, names := NormalizeEmail(email, parses), NormalizeRepo(repo);
      && (address.Err? ==> r == Err(InvalidEmail) && after == cache)
      && (address.Ok? && names.Err? ==> r == Err(InvalidRepoFormat) && after == cache)
      && (address.Ok? && names.Ok? ==>
            var (owner, name) := names.value;
            var (cache1, there) := GitHub.Lookup(cache, world, GitHub.Question(GitHub.Exists, owner, name), w.exists_);
            var (cache2, tag) := GitHub.Lookup(cache1, world, GitHub.Question(GitHub.Latest, owner, name), w.latest);
            && (there != GitHub.Present ==> there.Fail? && r == Err(there.error) && after == cache1)
            && (there == GitHub.Present ==> after == cache2)
            && (there == GitHub.Present && !tag.Tag? ==> tag.Fail? && r == Err(tag.error))
            && (there == GitHub.Present && tag.Tag? ==>
                  (r.Ok? <==> w.confirmBytes.Some? && w.unsubscribeBytes.Some?) && (r.Err? ==> r == Err(Failure)))
            && (r.Ok? ==>
                  && r.value.email == address.value && r.value.repoOwner == owner && r.value.repoName == name
                  && r.value.lastSeenTag == tag.tag
                  && r.value.confirmToken == HexEncode(w.confirmBytes.value)
                  && r.value.unsubscribeToken == HexEncode(w.unsubscribeBytes.value)))
  {
    NormalizeRepoDecides(repo);
    NormalizeEmailDecides(email, parses);
    if NormalizeRepo(repo).Ok? {
      var (owner, name) := NormalizeRepo(repo).value;
      GitHub.ExistsAnswers(cache, world, owner, name, w.exists_);
      var cache1 := GitHub.Lookup(cache, world, GitHub.Question(GitHub.Exists, owner, name), w.exists_).0;
      GitHub.LatestAnswers(cache1, world, owner, name, w.latest);
    }
  }

  /** The two lookups found the repository, answered the seed, and left this cache. */
  predicate LookedUp(cache: Option<GitHub.Cache>, world: GitHub.World, p: Params, w: SubscribeWorld,
                     after: Option<GitHub.Cache>)
  {
    var (cache1, there) :=
      GitHub.Lookup(cache, world, GitHub.Question(GitHub.Exists, p.repoOwner, p.repoName), w.exists_);
    && !there.Fail?
    && GitHub.Lookup(cache1, world, GitHub.Question(GitHub.Latest, p.repoOwner, p.repoName), w.latest)
         == (after, GitHub.Tag(p.lastSeenTag))
  }

  lemma PreparedLooksUp(email: string, repo: string, parses: string -> bool, cache: Option<GitHub.Cache>,
                        world: GitHub.World, w: SubscribeWorld, after: Option<GitHub.Cache>, p: Params)
    requires Prepare(email, repo, parses, cache, world, w) == (after, Ok(p))
    ensures LookedUp(cache, world, p, w, after)
  {
    assert NormalizeRepo(repo) == Ok((p.repoOwner, p.repoName));
  }

  /** Normalising the repository of a stored row gives the row's owner and name. */
  lemma StoredRepoRoundTrip(t: Table, id: int)
    requires AllWellFormed(t) && id in t.rows
    ensures NormalizeRepo(t.rows[id].Repo()) == Ok((t.rows[id].repoOwner, t.rows[id].repoName))
  {
    NormalizeRepoRoundTrip(t.rows[id].repoOwner, t.rows[id].repoName);
  }

  // ----- insert, mail, undo -----

  function CreateAndMail(t: Table, p: Params, w: SubscribeWorld): (Table, Result<Subscription, AppError>) {
    var (t1, r) := InsertOver(t, p, w.create);
    if r.Err? || w.mailWorks then (t1, r)
    else (Over(t1, Delete(t1, r.value.id), w.delete), Err(Failure))
  }

  /** The rows whose confirmation mail, with both tokens, is handed to the mailer:
      only an acknowledged insert is mailed, and the mail may arrive although the
      mailer reports a failure. */
  function Mails(t: Table, p: Params, w: SubscribeWorld): seq<Subscription> {
    var r := InsertOver(t, p, w.create).1;
    if r.Ok? then [r.value] else []
  }

  /** A failing Subscribe leaves its row behind. */
  ghost predicate LeavesRow(t: Table, p: Params, w: SubscribeWorld) {
    && t.nextId <= MAX_ID && !Taken(t.rows, p)
    && (w.create.ReplyLost? || (w.create.Done? && !w.mailWorks && w.delete.Refused?))
  }

  /** A successful Subscribe adds exactly one row, pending and seeded. A failing
      one leaves the rows as they were exactly unless the mail and the undo both
      failed or the reply to the insert was lost; then one pending row stays. Its
      tokens went to the mailer in the first case, so it may still be confirmed,
      and to nobody in the second. */
  lemma SubscribeRollsBack(t: Table, p: Params, w: SubscribeWorld)
    requires Valid(t)
    ensures var (t', r) := CreateAndMail(t, p, w);
      && Valid(t') && t.nextId <= t'.nextId <= t.nextId + 1
      && (r.Ok? <==> t.nextId <= MAX_ID && !Taken(t.rows, p) && w.create.Done? && w.mailWorks)
      && (r.Ok? ==>
            && t.nextId !in t.rows && t'.rows == t.rows[t.nextId := r.value]
            && r.value.id == t.nextId && !r.value.confirmed && r.value.lastSeenTag == p.lastSeenTag
            && r.value.email == p.email && r.value.repoOwner == p.repoOwner && r.value.repoName == p.repoName
            && r.value.confirmToken == p.confirmToken && r.value.unsubscribeToken == p.unsubscribeToken)
      && (r == Err(AlreadySubscribed) <==> t.nextId <= MAX_ID && Taken(t.rows, p) && w.create.Done?)
      && (r.Err? && r != Err(AlreadySubscribed) ==> r == Err(Failure))
      && Mails(t, p, w) ==
           (if w.create.Done? && t.nextId <= MAX_ID && !Taken(t.rows, p) then [NewRow(t.nextId, p)] else [])
      && (r.Ok? ==> Mails(t, p, w) == [r.value])
      && (r.Err? ==> (t'.rows == t.rows <==> !LeavesRow(t, p, w)))
      && (r.Err? && LeavesRow(t, p, w) ==>
            && t'.rows == t.rows[t.nextId := NewRow(t.nextId, p)]
            && Mails(t, p, w) == if w.create.Done? then [NewRow(t.nextId, p)] else [])
  {
    InsertKeeps(t, p);
    InsertDecides(t, p);
    var t1 := Insert(t, p).0;
    DeletesKeep(t1, t.nextId, "");
    assert t.nextId !in t.rows;
    assert (t.rows[t.nextId := NewRow(t.nextId, p)] - {t.nextId}) == t.rows;
    assert t.rows[t.nextId := NewRow(t.nextId, p)].Keys == t.rows.Keys + {t.nextId};
  }

  // ----- tokens given by callers -----

  /** Stored tokens have no outer space, so a padded token reaches no row. */
  lemma PaddedTokenReachesNothing(t: Table, token: string)
    requires AllWellFormed(t) && TrimSpace(token) != token
    ensures SubscriptionTable.Confirm(t, token) == t && SubscriptionTable.Unsubscribe(t, token) == t
    ensures forall id | id in t.rows :: t.rows[id].confirmToken != token && t.rows[id].unsubscribeToken != token
  {
    forall id | id in t.rows ensures t.rows[id].confirmToken != token && t.rows[id].unsubscribeToken != token {
      TokenIsTrimmed(t.rows[id].confirmToken);
      TokenIsTrimmed(t.rows[id].unsubscribeToken);
    }
    assert SubscriptionTable.Confirm(t, token).rows == t.rows;
    assert SubscriptionTable.Unsubscribe(t, token).rows == t.rows;
  }

  // ----- the code -----

  method GenerateToken(random: Option<Random>) returns (r: Result<string, AppError>)
    ensures r == if random.None? then Err(Failure) else Ok(HexEncode(random.value))
    ensures r.Ok? ==> IsToken(r.value)
  {
    var bytes := new byte[32](_ => 0);
    if random.None? { return Err(Failure); }
    for i := 0 to 32
      invariant bytes[..i] == random.value[..i]
    {
      bytes[i] := random.value[i];
    }
    assert bytes[..] == random.value;
    HexEncodeIsHex(bytes[..]);
    r := Ok(HexEncode(bytes[..]));
  }

  /** Every confirmation that was handed over, whether or not it went out; the
      message is built from the row. */
  class Mailer {
    var attempts: seq<Subscription>

    constructor ()
      ensures attempts == []
    {
      attempts := [];
    }

    method Send(message: Subscription, works: bool) returns (r: Result<(), AppError>)
      modifies this
      ensures attempts == old(attempts) + [message]
      ensures r == if works then Ok(()) else Err(Failure)
    {
      attempts := attempts + [message];
      r := if works then Ok(()) else Err(Failure);
    }
  }

  class Service {
    const store: PostgresSubscriptionStore
    const github: GitHub.Client
    const mailer: Mailer
    const parses: string -> bool

    constructor (store: PostgresSubscriptionStore, github: GitHub.Client, mailer: Mailer, parses: string -> bool)
      ensures this.store == store && this.github == github && this.mailer == mailer && this.parses == parses
    {
      this.store, this.github, this.mailer, this.parses := store, github, mailer, parses;
    }

    /** The end of Subscribe: insert, mail, and undo if the mail failed. */
    method Create(p: Params, w: SubscribeWorld) returns (r: Result<Subscription, AppError>)
      requires store.Valid() && store.Normal() && WellFormed(NewRow(store.nextId, p))
      modifies store, mailer
      ensures store.Valid() && store.Normal()
      ensures (store.Tab(), r) == CreateAndMail(old(store.Tab()), p, w)
      ensures mailer.attempts == old(mailer.attempts) + Mails(old(store.Tab()), p, w)
      ensures r.Ok? ==> mailer.attempts == old(mailer.attempts) + [r.value]
      ensures r.Ok? ==> r.value.id in store.rows && store.rows[r.value.id] == r.value
    {
      var subscription := store.CreateSubscription(p, w.create);
      if subscription.Err? { return subscription; }
      var sent := mailer.Send(subscription.value, w.mailWorks);
      if sent.Err? {
        var _ := store.DeleteSubscription(subscription.value.id, w.delete);
        return Err(sent.error);
      }
      r := subscription;
    }

    method Subscribe(email: string, repo: string, w: SubscribeWorld) returns (r: Result<Subscription, AppError>)
      requires store.Valid() && store.Normal()
      modifies store, mailer, github.Repr()
      ensures store.Valid() && store.Normal()
      ensures var (cache, p) := Prepare(email, repo, parses, old(github.Contents()), github.world, w);
        && github.Contents() == cache
        && (store.Tab(), r) ==
             (if p.Err? then (old(store.Tab()), Err(p.error)) else CreateAndMail(old(store.Tab()), p.value, w))
        && mailer.attempts == old(mailer.attempts) + if p.Err? then [] else Mails(old(store.Tab()), p.value, w)
      ensures r.Ok? ==> mailer.attempts == old(mailer.attempts) + [r.value]
      ensures r.Ok? ==> r.value.id in store.rows && store.rows[r.value.id] == r.value
    {
      ghost var cache0 := github.Contents();
      var normalizedEmail := NormalizeEmail(email, parses);
      if normalizedEmail.Err? { return Err(normalizedEmail.error); }
      var normalizedRepo := NormalizeRepo(repo);
      if normalizedRepo.Err? { return Err(normalizedRepo.error); }
      var (owner, name) := normalizedRepo.value;
      var there := github.RepoExists(owner, name, w.exists_);
      if there.Fail? { return Err(there.error); }
      var lastSeenTag := github.LatestReleaseTag(owner, name, w.latest);
      if !lastSeenTag.Tag? { return Err(if lastSeenTag.Fail? then lastSeenTag.error else Failure); }
      var confirmToken := GenerateToken(w.confirmBytes);
      if confirmToken.Err? { return Err(Failure); }
      var unsubscribeToken := GenerateToken(w.unsubscribeBytes);
      if unsubscribeToken.Err? { return Err(Failure); }
      PreparedIsWellFormed(email, repo, parses, cache0, github.world, w, store.nextId);
      r := Create(Params(normalizedEmail.value, owner, name, confirmToken.value, unsubscribeToken.value,
                         lastSeenTag.tag), w);
    }

    /** Confirms exactly when the token as given, untrimmed, is a stored one. */
    method Confirm(token: string, o: Outcome) returns (r: Result<Subscription, AppError>)
      requires store.Valid() && store.Normal()
      modifies store
      ensures store.Valid() && store.Normal()
      ensures r == Err(InvalidToken) <==> !IsToken(TrimSpace(token))
      ensures !IsToken(TrimSpace(token)) ==> store.Tab() == old(store.Tab())
      ensures store.Tab() == Over(old(store.Tab()), SubscriptionTable.Confirm(old(store.Tab()), token), o)
      ensures r.Ok? <==> o.Done? && exists id | id in old(store.rows) :: old(store.rows)[id].confirmToken == token
      ensures r.Ok? ==> r.value.id in store.rows && store.rows[r.value.id] == r.value && r.value.confirmed
      ensures r == Err(TokenNotFound) <==>
        && o.Done? && IsToken(TrimSpace(token))
        && forall id | id in old(store.rows) :: old(store.rows)[id].confirmToken != token
    {
      StrangersOnly(store.Tab(), token);
      if !IsToken(TrimSpace(token)) { return Err(InvalidToken); }
      r := store.ConfirmByToken(token, o);
    }

    method Unsubscribe(token: string, o: Outcome) returns (r: Result<(), AppError>)
      requires store.Valid() && store.Normal()
      modifies store
      ensures store.Valid() && store.Normal()
      ensures r == Err(InvalidToken) <==> !IsToken(TrimSpace(token))
      ensures !IsToken(TrimSpace(token)) ==> store.Tab() == old(store.Tab())
      ensures store.Tab() == Over(old(store.Tab()), SubscriptionTable.Unsubscribe(old(store.Tab()), token), o)
      ensures r.Ok? <==> o.Done? && exists id | id in old(store.rows) :: old(store.rows)[id].unsubscribeToken == token
      ensures r == Err(TokenNotFound) <==>
        && o.Done? && IsToken(TrimSpace(token))
        && forall id | id in old(store.rows) :: old(store.rows)[id].unsubscribeToken != token
    {
      StrangersOnly(store.Tab(), token);
      if !IsToken(TrimSpace(token)) { return Err(InvalidToken); }
      r := store.DeleteByUnsubscribeToken(token, o);
    }
  }

  /** A string that is no token, even trimmed, is nobody's token. */
  lemma StrangersOnly(t: Table, token: string)
    requires AllWellFormed(t)
    ensures !IsToken(TrimSpace(token)) ==>
      && SubscriptionTable.Confirm(t, token) == t && SubscriptionTable.Unsubscribe(t, token) == t
      && forall id | id in t.rows :: t.rows[id].confirmToken != token && t.rows[id].unsubscribeToken != token
  {
    if !IsToken(TrimSpace(token)) {
      forall id | id in t.rows ensures t.rows[id].confirmToken != token && t.rows[id].unsubscribeToken != token {
        TokenIsTrimmed(t.rows[id].confirmToken);
        TokenIsTrimmed(t.rows[id].unsubscribeToken);
      }
      assert SubscriptionTable.Confirm(t, token).rows == t.rows;
      assert SubscriptionTable.Unsubscribe(t, token).rows == t.rows;
    }
  }
}

/** The GitHub client and its Redis cache. Time is in milliseconds. */
module GitHub {
  import opened Common
  import Names

  /** Ten minutes. */
  const CACHE_TTL := 600_000

  datatype Query = Exists | Latest

  datatype Question = Question(query: Query, owner: string, name: string)

  /** The shape of the questions asked about stored rows. */
  predicate Clean(q: Question) { '/' !in q.owner }

  // ----- what GitHub says -----

  /** The body of a release list, if it decodes, is the tags newest first. */
  datatype Response = NoReply | Reply(status: int, rateRemaining: string, body: Option<seq<string>>)

  /** GitHub's history: what it replies to a question at a time. */
  type World = (Question, int) -> Response

  /** What the client tells its caller: the repository is there, its latest tag
      (empty when it has no release), or an error. */
  datatype Answer = Present | Tag(tag: string) | Fail(error: AppError)

  predicate IsRateLimited(r: Response)
    requires r.Reply?
  {
    r.status == 429 || (r.status == 403 && r.rateRemaining == "0")
  }

  /** The client without a cache. */
  function Uncached(query: Query, r: Response): Answer {
    if r.NoReply? then Fail(Failure)
    else if r.status == 200 then
      if query.Exists? then Present
      else if r.body.None? then Fail(Failure)
      else if r.body.value == [] then Tag("")
      else Tag(r.body.value[0])
    else if IsRateLimited(r) then Fail(RateLimited)
    else if r.status == 404 then Fail(RepoNotFound)
    else Fail(Failure)
  }

  // ----- cached values -----

  /** Plain text under the existence keys, a JSON record under the release keys. */
  datatype Stored = Flag(text: string) | Release(tag: string, found: bool)

  datatype CacheEntry = CacheEntry(value: Stored, expiresAt: int)

  type Cache = map<string, CacheEntry>

  function RepoExistsKey(owner: string, repo: string): string { "github:repo_exists:" + owner + "/" + repo }

  function LatestReleaseKey(owner: string, repo: string): string { "github:latest_release:" + owner + "/" + repo }

  function Key(q: Question): string {
    if q.query.Exists? then RepoExistsKey(q.owner, q.name) else LatestReleaseKey(q.owner, q.name)
  }

  function ToStore(query: Query, r: Response): Option<Stored> {
    if r.NoReply? then None
    else if query.Exists? then
      if r.status == 200 then Some(Flag("1")) else if r.status == 404 then Some(Flag("0")) else None
    else if r.status != 200 || r.body.None? then None
    else if r.body.value == [] then Some(Release("", false))
    else Some(Release(r.body.value[0], true))
  }

  /** None when the value does not unmarshal. */
  function Decode(query: Query, v: Stored): Option<Answer> {
    match query
    case Exists => if v == Flag("1") then Some(Present) else Some(Fail(RepoNotFound))
    case Latest => if v.Flag? then None else if v.found then Some(Tag(v.tag)) else Some(Tag(""))
  }

  predicate Live(cache: Cache, key: string, now: int) { key in cache && now < cache[key].expiresAt }

  /** A cache hit, or None for a miss, a failed read and an unreadable value. */
  function Read(cache: Cache, q: Question, now: int, fails: bool): Option<Answer> {
    if fails || !Live(cache, Key(q), now) then None else Decode(q.query, cache[Key(q)].value)
  }

  function Write(cache: Cache, q: Question, now: int, r: Response, fails: bool): Cache {
    match ToStore(q.query, r)
    case None => cache
    case Some(v) => if fails then cache else cache[Key(q) := CacheEntry(v, now + CACHE_TTL)]
  }

  /** When one call reads the cache, asks GitHub and writes the cache, and which
      cache operations fail. */
  datatype Call = Call(readAt: int, askAt: int, writeAt: int, readFails: bool, writeFails: bool)

  function Lookup(cache: Option<Cache>, world: World, q: Question, c: Call): (Option<Cache>, Answer) {
    var r := world(q, c.askAt);
    match cache
    case None => (None, Uncached(q.query, r))
    case Some(m) =>
      match Read(m, q, c.readAt, c.readFails)
      case Some(a) => (cache, a)
      case None => (Some(Write(m, q, c.writeAt, r, c.writeFails)), Uncached(q.query, r))
  }

  // ----- facts about keys and values -----

  /** Each question has its own key: the two families never meet, and within one
      the key gives owner and name back. */
  lemma KeysDistinct(p: Question, q: Question)
    ensures p.query != q.query ==> Key(p) != Key(q)
    ensures Clean(p) && Clean(q) ==> (Key(p) == Key(q) <==> p == q)
  {
    if p.query != q.query {
      assert Key(p)[7] != Key(q)[7];
    } else if Clean(p) && Clean(q) {
      var prefix := if p.query.Exists? then "github:repo_exists:" else "github:latest_release:";
      assert Key(p) == prefix + (p.owner + "/" + p.name);
      assert Key(q) == prefix + (q.owner + "/" + q.name);
      assert Key(p)[|prefix|..] == p.owner + "/" + p.name;
      assert Key(q)[|prefix|..] == q.owner + "/" + q.name;
      Names.RepoKeyInjective(p.owner, p.name, q.owner, q.name);
    }
  }

  /** Only a decodable 200, or a 404 for existence, is ever stored; and a hit on
      what was stored repeats the answer the reply gave. */
  lemma StoredRepeatsAnswer(query: Query, r: Response)
    ensures ToStore(query, r).Some? <==>
      r.Reply? && ((r.status == 200 && (query.Latest? ==> r.body.Some?)) || (r.status == 404 && query.Exists?))
    ensures ToStore(query, r).Some? ==> Decode(query, ToStore(query, r).value) == Some(Uncached(query, r))
  {
  }

  /** Two caches hold the same under a key. */
  predicate SameAt(a: Option<Cache>, b: Option<Cache>, key: string) {
    && (a.Some? <==> b.Some?)
    && (a.Some? ==> (key in a.value <==> key in b.value) && (key in a.value ==> a.value[key] == b.value[key]))
  }

  /** A lookup reads and writes its own key only. */
  lemma LookupIsLocal(a: Option<Cache>, b: Option<Cache>, world: World, q: Question, c: Call, key: string)
    ensures SameAt(a, b, Key(q)) ==> Lookup(a, world, q, c).1 == Lookup(b, world, q, c).1
    ensures SameAt(a, b, key) && key != Key(q) ==> SameAt(Lookup(a, world, q, c).0, b, key)
  {
  }

  /** An entry under the key that a read at the time can use. */
  predicate Hit(cache: Option<Cache>, key: string, c: Call) {
    cache.Some? && !c.readFails && key in cache.value && c.readAt < cache.value[key].expiresAt
  }

  /** The cache after a value was to be written for ten minutes. */
  function Kept(cache: Option<Cache>, key: string, v: Stored, c: Call): Option<Cache> {
    if cache.None? || c.writeFails then cache else Some(cache.value[key := CacheEntry(v, c.writeAt + 10 * 60 * 1000)])
  }

  /** The answers to an existence question, case by case. A hit is what was stored.
      Otherwise the status of GitHub's reply decides: 200 is there; 429, and 403 with
      no requests left, are the rate limit; 404 is not there; anything else, and no
      reply, is a failure. Only 200 and 404 are stored. */
  lemma ExistsAnswers(cache: Option<Cache>, world: World, owner: string, name: string, c: Call)
    ensures var key := "github:repo_exists:" + owner + "/" + name;
      var r := world(Question(Exists, owner, name), c.askAt);
      var (after, a) := Lookup(cache, world, Question(Exists, owner, name), c);
      && (Hit(cache, key, c) ==>
            after == cache && a == if cache.value[key].value == Flag("1") then Present else Fail(RepoNotFound))
      && (!Hit(cache, key, c) ==>
            && (a == Present <==> r.Reply? && r.status == 200)
            && (a == Fail(RateLimited) <==>
                  r.Reply? && (r.status == 429 || (r.status == 403 && r.rateRemaining == "0")))
            && (a == Fail(RepoNotFound) <==> r.Reply? && r.status == 404)
            && a in {Present, Fail(RateLimited), Fail(RepoNotFound), Fail(Failure)}
            && after == if a == Present then Kept(cache, key, Flag("1"), c)
                        else if a == Fail(RepoNotFound) then Kept(cache, key, Flag("0"), c) else cache)
  {
    assert RepoExistsKey(owner, name) == "github:repo_exists:" + owner + "/" + name;
  }

  /** The answers to a question about the latest release, case by case. A hit is what
      was stored; a value that does not unmarshal is no hit. Otherwise a decodable 200
      gives the first tag listed, or none; the rest as above, and nothing but such a
      200 is stored. */
  lemma LatestAnswers(cache: Option<Cache>, world: World, owner: string, name: string, c: Call)
    ensures var key := "github:latest_release:" + owner + "/" + name;
      var r := world(Question(Latest, owner, name), c.askAt);
      var (after, a) := Lookup(cache, world, Question(Latest, owner, name), c);
      var hit := Hit(cache, key, c) && cache.value[key].value.Release?;
      && (hit ==>
            after == cache && a == Tag(if cache.value[key].value.found then cache.value[key].value.tag else ""))
      && (!hit ==>
            && (a.Tag? <==> r.Reply? && r.status == 200 && r.body.Some?)
            && (a.Tag? && r.body.value != [] ==>
                  a.tag == r.body.value[0] && after == Kept(cache, key, Release(r.body.value[0], true), c))
            && (a.Tag? && r.body.value == [] ==> a.tag == "" && after == Kept(cache, key, Release("", false), c))
            && (a == Fail(RateLimited) <==>
                  r.Reply? && (r.status == 429 || (r.status == 403 && r.rateRemaining == "0")))
            && (a == Fail(RepoNotFound) <==> r.Reply? && r.status == 404)
            && (a.Tag? || a in {Fail(RateLimited), Fail(RepoNotFound), Fail(Failure)})
            && (!a.Tag? ==> after == cache))
  {
    assert LatestReleaseKey(owner, name) == "github:latest_release:" + owner + "/" + name;
  }

  // ----- the code -----

  datatype Got<+T> = Found(value: T) | Miss | Broken

  class RedisCache {
    var entries: Cache

    constructor ()
      ensures entries == map[]
    {
      entries := map[];
    }

    method GetRepoExists(owner: string, repo: string, now: int, fails: bool) returns (r: Got<bool>)
      ensures var key := RepoExistsKey(owner, repo);
        r == if fails then Broken else if !Live(entries, key, now) then Miss else Found(entries[key].value == Flag("1"))
    {
      var key := RepoExistsKey(owner, repo);
      if fails { return Broken; }
      if key !in entries || now >= entries[key].expiresAt { return Miss; }
      r := Found(entries[key].value == Flag("1"));
    }

    method SetRepoExists(owner: string, repo: string, exists_: bool, now: int, fails: bool)
      modifies this
      ensures entries == if fails then old(entries) else
        old(entries)[RepoExistsKey(owner, repo) := CacheEntry(Flag(if exists_ then "1" else "0"), now + 10 * 60 * 1000)]
    {
      var value := "0";
      if exists_ { value := "1"; }
      if !fails { entries := entries[RepoExistsKey(owner, repo) := CacheEntry(Flag(value), now + CACHE_TTL)]; }
    }

    method GetLatestReleaseTag(owner: string, repo: string, now: int, fails: bool) returns (r: Got<(string, bool)>)
      ensures var key := LatestReleaseKey(owner, repo);
        r == if fails then Broken else if !Live(entries, key, now) then Miss
             else if entries[key].value.Flag? then Broken
             else Found((entries[key].value.tag, entries[key].value.found))
    {
      var key := LatestReleaseKey(owner, repo);
      if fails { return Broken; }
      if key !in entries || now >= entries[key].expiresAt { return Miss; }
      match entries[key].value {
        case Flag(_) => r := Broken;
        case Release(tag, found) => r := Found((tag, found));
      }
    }

    method SetLatestReleaseTag(owner: string, repo: string, tag: string, found: bool, now: int, fails: bool)
      modifies this
      ensures entries == if fails then old(entries) else
        old(entries)[LatestReleaseKey(owner, repo) := CacheEntry(Release(tag, found), now + 10 * 60 * 1000)]
    {
      if !fails {
        entries := entries[LatestReleaseKey(owner, repo) := CacheEntry(Release(tag, found), now + CACHE_TTL)];
      }
    }
  }

  class Client {
    const cache: RedisCache?
    const world: World

    constructor (cache: RedisCache?, world: World)
      ensures this.cache == cache && this.world == world
    {
      this.cache := cache;
      this.world := world;
    }

    ghost function Repr(): set<object> { if cache == null then {} else {cache} }

    /** The contents of the cache, None for a client without one. */
    function Contents(): Option<Cache> reads Repr() { if cache == null then None else Some(cache.entries) }

    method CacheRepoExists(owner: string, repo: string, exists_: bool, c: Call)
      modifies Repr()
      ensures cache != null ==> cache.entries == if c.writeFails then old(cache.entries) else
        old(cache.entries)[RepoExistsKey(owner, repo) :=
                             CacheEntry(Flag(if exists_ then "1" else "0"), c.writeAt + CACHE_TTL)]
    {
      if cache == null { return; }
      cache.SetRepoExists(owner, repo, exists_, c.writeAt, c.writeFails);
    }

    method CacheLatestRelease(owner: string, repo: string, tag: string, found: bool, c: Call)
      modifies Repr()
      ensures cache != null ==> cache.entries == if c.writeFails then old(cache.entries) else
        old(cache.entries)[LatestReleaseKey(owner, repo) := CacheEntry(Release(tag, found), c.writeAt + CACHE_TTL)]
    {
      if cache == null { return; }
      cache.SetLatestReleaseTag(owner, repo, tag, found, c.writeAt, c.writeFails);
    }

    method RepoExists(owner: string, repo: string, c: Call) returns (a: Answer)
      modifies Repr()
      ensures (Contents(), a) == Lookup(old(Contents()), world, Question(Exists, owner, repo), c)
    {
      if cache != null {
        var got := cache.GetRepoExists(owner, repo, c.readAt, c.readFails);
        match got {
          case Found(true) => return Present;
          case Found(false) => return Fail(RepoNotFound);
          case Miss =>
          case Broken =>
        }
      }
      var response := world(Question(Exists, owner, repo), c.askAt);
      if response.NoReply? { return Fail(Failure); }
      if response.status == 200 {
        CacheRepoExists(owner, repo, true, c);
        return Present;
      } else if IsRateLimited(response) {
        return Fail(RateLimited);
      } else if response.status == 404 {
        CacheRepoExists(owner, repo, false, c);
        return Fail(RepoNotFound);
      }
      return Fail(Failure);
    }

    method LatestReleaseTag(owner: string, repo: string, c: Call) returns (a: Answer)
      modifies Repr()
      ensures (Contents(), a) == Lookup(old(Contents()), world, Question(Latest, owner, repo), c)
    {
      if cache != null {
        var got := cache.GetLatestReleaseTag(owner, repo, c.readAt, c.readFails);
        match got {
          case Found((tag, true)) => return Tag(tag);
          case Found((_, false)) => return Tag("");
          case Miss =>
          case Broken =>
        }
      }
      var response := world(Question(Latest, owner, repo), c.askAt);
      if response.NoReply? { return Fail(Failure); }
      if response.status == 200 {
        if response.body.None? { return Fail(Failure); }
        var releases := response.body.value;
        if |releases| == 0 {
          CacheLatestRelease(owner, repo, "", false, c);
          return Tag("");
        }
        CacheLatestRelease(owner, repo, releases[0], true, c);
        return Tag(releases[0]);
      } else if IsRateLimited(response) {
        return Fail(RateLimited);
      } else if response.status == 404 {
        return Fail(RepoNotFound);
      }
      return Fail(Failure);
    }
  }
}

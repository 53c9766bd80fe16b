/**
 * Opaque refresh tokens (backend/services/refresh_token_store.py) and the refresh endpoint
 * that validates one and rotates it (backend/routers/auth.py). Redis is a map from hashed
 * tokens to entries; it may drop an expired entry at any time. Hashing is an injective
 * function. The endpoint awaits between its two calls, so a refresh is two steps, between which
 * other calls may come.
 */
module RefreshTokens {
  import opened Wrappers

  type Token = string
  type Key = string
  type UserId = string
  type Time = int
  type Hash = Token -> Key

  datatype Entry = Entry(user: UserId, expires: Time)

  type Redis = map<Key, Entry>

  ghost predicate Injective(hash: Hash) {
    forall a, b {:trigger hash(a), hash(b)} :: hash(a) == hash(b) ==> a == b
  }

  /** Who a token stands for at a moment, if anyone. */
  function Owner(redis: Redis, key: Key, now: Time): Option<UserId> {
    if key in redis && now <= redis[key].expires then Some(redis[key].user) else None
  }

  /** The live tokens of a user. */
  function Live(redis: Redis, user: UserId, now: Time): set<Key> {
    set key | key in redis && Owner(redis, key, now) == Some(user)
  }

  function KeysOf(redis: Redis, user: UserId): set<Key> {
    set key | key in redis && redis[key].user == user
  }

  function KeysAmong(redis: Redis, user: UserId, keys: set<Key>): set<Key> {
    set key | key in keys && key in redis && redis[key].user == user
  }

  /** How far the sweep over all keys has come. */
  ghost predicate Swept(before: Redis, user: UserId, done: set<Key>, todo: set<Key>, redis: Redis, count: nat) {
    && done + todo == before.Keys && done !! todo
    && redis == before - KeysAmong(before, user, done)
    && count == |KeysAmong(before, user, done)|
  }

  lemma KeysAmongOneMore(before: Redis, user: UserId, done: set<Key>, key: Key)
    requires key in before && key !in done
    ensures key !in KeysAmong(before, user, done)
    ensures before[key].user == user ==>
              KeysAmong(before, user, done + {key}) == KeysAmong(before, user, done) + {key}
    ensures before[key].user != user ==> KeysAmong(before, user, done + {key}) == KeysAmong(before, user, done)
  {
  }

  lemma WithoutOneMore(redis: Redis, gone: set<Key>, key: Key)
    ensures redis - (gone + {key}) == redis - gone - {key}
  {
  }

  lemma SweepStep(before: Redis, user: UserId, done: set<Key>, todo: set<Key>, redis: Redis, count: nat, key: Key)
    requires Swept(before, user, done, todo, redis, count) && key in todo
    ensures key in redis && redis[key] == before[key]
    ensures if redis[key].user == user
            then Swept(before, user, done + {key}, todo - {key}, redis - {key}, count + 1)
            else Swept(before, user, done + {key}, todo - {key}, redis, count)
  {
    var gone := KeysAmong(before, user, done);
    KeysAmongOneMore(before, user, done, key);
    if before[key].user == user {
      WithoutOneMore(before, gone, key);
    }
  }

  class RefreshTokenStore {
    var redis: Redis
    const hash: Hash
    const expireSeconds: nat

    constructor (hash: Hash, expireSeconds: nat)
      ensures redis == map[] && this.hash == hash && this.expireSeconds == expireSeconds
    {
      redis, this.hash, this.expireSeconds := map[], hash, expireSeconds;
    }

    method Store(user: UserId, token: Token, now: Time)
      modifies this
      ensures redis == old(redis)[hash(token) := Entry(user, now + expireSeconds)]
    {
      redis := redis[hash(token) := Entry(user, now + expireSeconds)];
    }

    /** An entry past its time is deleted on the way. */
    method Validate(token: Token, now: Time) returns (user: Option<UserId>)
      modifies this
      ensures user == Owner(old(redis), hash(token), now)
      ensures redis == if user.Some? then old(redis) else old(redis) - {hash(token)}
    {
      var key := hash(token);
      if key !in redis {
        return None;
      }
      var data := redis[key];
      if now > data.expires {
        redis := redis - {key};
        return None;
      }
      user := Some(data.user);
    }

    method Revoke(token: Token) returns (deleted: bool)
      modifies this
      ensures redis == old(redis) - {hash(token)} && (deleted <==> hash(token) in old(redis))
    {
      deleted := hash(token) in redis;
      redis := redis - {hash(token)};
    }

    /** The scan visits the keys in any order and deletes those of the user. */
    method RevokeAllUserTokens(user: UserId) returns (count: nat)
      modifies this
      ensures redis == old(redis) - KeysOf(old(redis), user)
      ensures count == |KeysOf(old(redis), user)|
    {
      count := 0;
      var todo := redis.Keys;
      ghost var before, done: set<Key> := redis, {};
      assert before - {} == before;
      while todo != {}
        invariant Swept(before, user, done, todo, redis, count)
        decreases |todo|
      {
        var key :| key in todo;
        SweepStep(before, user, done, todo, redis, count, key);
        if redis[key].user == user {
          redis := redis - {key};
          count := count + 1;
        }
        todo, done := todo - {key}, done + {key};
      }
      assert KeysAmong(before, user, done) == KeysOf(before, user);
    }

    /** `rotate`; also the second half of the refresh endpoint. */
    method Rotate(spent: Token, minted: Token, user: UserId, now: Time)
      modifies this
      ensures redis == Rotated(old(redis), hash(spent), hash(minted), Entry(user, now + expireSeconds))
    {
      var deleted := Revoke(spent);
      Store(user, minted, now);
    }

    /** The refresh endpoint up to its first await: the cookie, the store, then `validate`. */
    method RefreshBegin(cookie: Option<Token>, storeAvailable: bool, now: Time) returns (reply: Reply)
      modifies this
      ensures reply == if cookie.None? || cookie.value == "" then Unauthorized
                       else if !storeAvailable then Unavailable
                       else match Owner(old(redis), hash(cookie.value), now)
                            case None => Unauthorized
                            case Some(user) => Validated(user)
      ensures redis == if cookie.Some? && cookie.value != "" && storeAvailable
                       then Apply(old(redis), Check(cookie.value, now), hash, expireSeconds) else old(redis)
    {
      if cookie.None? || cookie.value == "" {
        return Unauthorized;
      }
      if !storeAvailable {
        return Unavailable;
      }
      var user := Validate(cookie.value, now);
      reply := if user.None? then Unauthorized else Validated(user.value);
    }

    /** The whole endpoint, when no other call comes in between. */
    method Refresh(cookie: Option<Token>, storeAvailable: bool, minted: Token, now: Time) returns (reply: Reply)
      modifies this
      ensures match reply
              case Validated(user) =>
                && cookie.Some? && cookie.value != "" && storeAvailable && hash(cookie.value) in old(redis)
                && old(redis)[hash(cookie.value)].user == user && now <= old(redis)[hash(cookie.value)].expires
              case Unavailable => cookie.Some? && cookie.value != "" && !storeAvailable
              case Unauthorized =>
                || cookie.None? || cookie.value == ""
                || (storeAvailable
                    && (hash(cookie.value) in old(redis) ==> old(redis)[hash(cookie.value)].expires < now))
      ensures reply.Validated? ==>
                && hash(minted) in redis && redis[hash(minted)] == Entry(reply.user, now + expireSeconds)
                && (hash(minted) != hash(cookie.value) ==> hash(cookie.value) !in redis)
                && (forall key :: key != hash(minted) && key != hash(cookie.value) ==>
                      (key in redis <==> key in old(redis)) && (key in redis ==> redis[key] == old(redis)[key]))
      ensures redis == if cookie.Some? && cookie.value != "" && storeAvailable
                       then Apply(old(redis), Op.Refresh(cookie.value, minted, now), hash, expireSeconds)
                       else old(redis)
    {
      reply := RefreshBegin(cookie, storeAvailable, now);
      if reply.Validated? {
        Rotate(cookie.value, minted, reply.user, now);
      }
    }
  }

  /** 401, 503, or on with the user the token stands for. */
  datatype Reply = Unauthorized | Unavailable | Validated(user: UserId)

  // ---- sequences of calls ----------------------------------------------------

  datatype Op =
    | Login(user: UserId, token: Token, now: Time)
    | Refresh(spent: Token, minted: Token, now: Time)
    | Check(token: Token, now: Time)
    | Rotate(spent: Token, minted: Token, user: UserId, now: Time)
    | Logout(token: Token)
    | LogoutEverywhere(user: UserId)
    | Expire(keys: set<Key>)

  function Apply(redis: Redis, op: Op, hash: Hash, ttl: nat): Redis {
    match op
    case Login(user, token, now) => redis[hash(token) := Entry(user, now + ttl)]
    case Refresh(spent, minted, now) =>
      var owner := Owner(redis, hash(spent), now);
      if owner.None? then redis - {hash(spent)}
      else Rotated(redis, hash(spent), hash(minted), Entry(owner.value, now + ttl))
    case Check(token, now) => if Owner(redis, hash(token), now).Some? then redis else redis - {hash(token)}
    case Rotate(spent, minted, user, now) => Rotated(redis, hash(spent), hash(minted), Entry(user, now + ttl))
    case Logout(token) => redis - {hash(token)}
    case LogoutEverywhere(user) => redis - KeysOf(redis, user)
    case Expire(keys) => redis - keys
  }

  function Run(redis: Redis, ops: seq<Op>, hash: Hash, ttl: nat): Redis
    decreases |ops|
  {
    if ops == [] then redis else Run(Apply(redis, ops[0], hash, ttl), ops[1..], hash, ttl)
  }

  function Issues(op: Op): set<Token> {
    match op
    case Login(_, token, _) => {token}
    case Refresh(_, minted, _) => {minted}
    case Rotate(_, minted, _, _) => {minted}
    case _ => {}
  }

  function Issued(ops: seq<Op>): set<Token> {
    if ops == [] then {} else Issues(ops[0]) + Issued(ops[1..])
  }

  lemma {:induction false} GoneStaysGone(redis: Redis, ops: seq<Op>, token: Token, hash: Hash, ttl: nat)
    requires Injective(hash) && hash(token) !in redis && token !in Issued(ops)
    ensures hash(token) !in Run(redis, ops, hash, ttl)
    decreases |ops|
  {
    if ops != [] {
      assert forall t :: t in Issues(ops[0]) ==> hash(t) != hash(token);
      GoneStaysGone(Apply(redis, ops[0], hash, ttl), ops[1..], token, hash, ttl);
    }
  }

  /** A token that is not in the store is never accepted again unless it is issued again:
      rotated out, revoked, revoked with all others, or expired, it is dead for good. */
  lemma DeadTokensStayDead(redis: Redis, ops: seq<Op>, token: Token, now: Time, hash: Hash, ttl: nat)
    requires Injective(hash) && hash(token) !in redis && token !in Issued(ops)
    ensures Owner(Run(redis, ops, hash, ttl), hash(token), now) == None
  {
    GoneStaysGone(redis, ops, token, hash, ttl);
  }

  /** A refresh that nothing interrupts is its two halves. */
  lemma RefreshIsCheckThenRotate(redis: Redis, spent: Token, minted: Token, now: Time, hash: Hash, ttl: nat)
    ensures var checked := Apply(redis, Check(spent, now), hash, ttl);
            Apply(redis, Refresh(spent, minted, now), hash, ttl)
            == match Owner(redis, hash(spent), now)
               case None => checked
               case Some(user) => Apply(checked, Rotate(spent, minted, user, now), hash, ttl)
  {
  }

  /** The ways of giving a token up do take it out of the store. */
  lemma GivenUpTokensAreDead(redis: Redis, token: Token, minted: Token, user: UserId, now: Time, hash: Hash, ttl: nat)
    requires Injective(hash) && token != minted
    ensures hash(token) !in Apply(redis, Refresh(token, minted, now), hash, ttl)
    ensures hash(token) !in Apply(redis, Rotate(token, minted, user, now), hash, ttl)
    ensures hash(token) !in Apply(redis, Logout(token), hash, ttl)
    ensures Owner(redis, hash(token), now) == Some(user) ==>
              hash(token) !in Apply(redis, LogoutEverywhere(user), hash, ttl)
  {
  }

  /** One-use rotation: of all tokens that are not issued afterwards, one that was refreshed
      once cannot be refreshed a second time, whatever happens in between. */
  lemma RefreshIsOneUse(redis: Redis, token: Token, minted: Token, now: Time, ops: seq<Op>, later: Time, hash: Hash,
                        ttl: nat)
    requires Injective(hash) && token != minted && token !in Issued(ops)
    ensures Owner(Run(redis, [Refresh(token, minted, now)] + ops, hash, ttl), hash(token), later) == None
  {
    GivenUpTokensAreDead(redis, token, minted, "", now, hash, ttl);
    DeadTokensStayDead(Apply(redis, Refresh(token, minted, now), hash, ttl), ops, token, later, hash, ttl);
    assert ([Refresh(token, minted, now)] + ops)[1..] == ops;
  }

  /** Refreshing trades one live token of its owner for one, and touches no one else's;
      when the token is not accepted it touches no live token at all. */
  lemma RefreshConserves(redis: Redis, spent: Token, minted: Token, now: Time, user: UserId, hash: Hash, ttl: nat)
    requires Injective(hash) && hash(minted) !in redis
    ensures var after := Apply(redis, Refresh(spent, minted, now), hash, ttl);
            var owner := Owner(redis, hash(spent), now);
            && |Live(after, user, now)| == |Live(redis, user, now)|
            && (owner != Some(user) ==> Live(after, user, now) == Live(redis, user, now))
            && (owner == Some(user) ==>
                  Live(after, user, now) == Live(redis, user, now) - {hash(spent)} + {hash(minted)})
  {
    var after := Apply(redis, Refresh(spent, minted, now), hash, ttl);
    if Owner(redis, hash(spent), now) == Some(user) {
      LiveAfterRotation(redis, hash(spent), hash(minted), now, user, ttl);
      Swap(Live(redis, user, now), hash(spent), hash(minted));
    } else {
      assert Live(after, user, now) == Live(redis, user, now);
    }
  }

  function Rotated(redis: Redis, gone: Key, next: Key, entry: Entry): Redis {
    (redis - {gone})[next := entry]
  }

  lemma LiveAfterRotation(redis: Redis, gone: Key, next: Key, now: Time, user: UserId, ttl: nat)
    requires next !in redis
    ensures Live(Rotated(redis, gone, next, Entry(user, now + ttl)), user, now)
         == Live(redis, user, now) - {gone} + {next}
  {
  }

  lemma Swap(s: set<Key>, gone: Key, next: Key)
    requires next !in s
    ensures |s - {gone} + {next}| == |s| + if gone in s then 0 else 1
  {
  }

  lemma RotationAdds(redis: Redis, gone: Key, next: Key, now: Time, user: UserId, ttl: nat)
    requires next !in redis
    ensures |Live(Rotated(redis, gone, next, Entry(user, now + ttl)), user, now)|
         == |Live(redis, user, now)| + if Owner(redis, gone, now) == Some(user) then 0 else 1
  {
    LiveAfterRotation(redis, gone, next, now, user, ttl);
    Swap(Live(redis, user, now), gone, next);
  }

  /** `rotate` on its own does not look: it keeps a user's number of live tokens exactly
      when the token handed in is a live one of that user. */
  lemma BareRotationConservesExactlyLiveTokens(redis: Redis, gone: Key, next: Key, now: Time, user: UserId, ttl: nat)
    requires next !in redis
    ensures |Live(Rotated(redis, gone, next, Entry(user, now + ttl)), user, now)| == |Live(redis, user, now)|
            <==> Owner(redis, gone, now) == Some(user)
  {
    RotationAdds(redis, gone, next, now, user, ttl);
  }

  /** Every token a run issues is new to the store when it is issued. */
  predicate IssuesFresh(redis: Redis, ops: seq<Op>, hash: Hash, ttl: nat)
    decreases |ops|
  {
    ops != [] ==>
      && (forall token :: token in Issues(ops[0]) ==> hash(token) !in redis)
      && IssuesFresh(Apply(redis, ops[0], hash, ttl), ops[1..], hash, ttl)
  }

  /** A login, a refresh or a check, at a time from which a token issued then is still live at `later`. */
  predicate RenewsFor(op: Op, later: Time, ttl: nat) {
    (op.Login? || op.Refresh? || op.Check?) && op.now <= later <= op.now + ttl
  }

  /** Nothing stored expires before `later`. */
  predicate OutlastsTo(redis: Redis, later: Time) {
    forall key :: key in redis ==> later <= redis[key].expires
  }

  function Logins(ops: seq<Op>, user: UserId): nat {
    if ops == [] then 0 else Logins(ops[1..], user) + if ops[0].Login? && ops[0].user == user then 1 else 0
  }

  lemma SameLiveTokens(redis: Redis, user: UserId, now: Time, later: Time)
    requires OutlastsTo(redis, later) && now <= later
    ensures Live(redis, user, now) == Live(redis, user, later)
  {
  }

  lemma RenewalOutlasts(redis: Redis, op: Op, later: Time, hash: Hash, ttl: nat)
    requires OutlastsTo(redis, later) && RenewsFor(op, later, ttl)
    ensures OutlastsTo(Apply(redis, op, hash, ttl), later)
  {
  }

  lemma LoginAdds(redis: Redis, owner: UserId, token: Token, now: Time, user: UserId, later: Time, hash: Hash, ttl: nat)
    requires hash(token) !in redis && now <= later <= now + ttl
    ensures |Live(Apply(redis, Login(owner, token, now), hash, ttl), user, later)|
         == |Live(redis, user, later)| + if owner == user then 1 else 0
  {
    var after := Apply(redis, Login(owner, token, now), hash, ttl);
    if owner == user {
      assert Live(after, user, later) == Live(redis, user, later) + {hash(token)};
    } else {
      assert Live(after, user, later) == Live(redis, user, later);
    }
  }

  lemma RenewalCounts(redis: Redis, op: Op, user: UserId, later: Time, hash: Hash, ttl: nat)
    requires Injective(hash) && OutlastsTo(redis, later) && RenewsFor(op, later, ttl)
    requires forall token :: token in Issues(op) ==> hash(token) !in redis
    ensures |Live(Apply(redis, op, hash, ttl), user, later)|
         == |Live(redis, user, later)| + if op.Login? && op.user == user then 1 else 0
  {
    match op {
      case Login(owner, token, now) =>
        assert token in Issues(op);
        LoginAdds(redis, owner, token, now, user, later, hash, ttl);
      case Refresh(spent, minted, now) =>
        assert minted in Issues(op);
        RenewalOutlasts(redis, op, later, hash, ttl);
        RefreshConserves(redis, spent, minted, now, user, hash, ttl);
        SameLiveTokens(redis, user, now, later);
        SameLiveTokens(Apply(redis, op, hash, ttl), user, now, later);
      case Check(token, now) =>
        assert Apply(redis, op, hash, ttl) == redis;
    }
  }

  /** Over any sequence of logins, refreshes and checks, accepted or not, in a time in which nothing expires: a user's
      live tokens are those of before and one for each login. Refreshing neither adds nor takes any. */
  lemma {:induction false} OnlyLoginsAdd(redis: Redis, ops: seq<Op>, user: UserId, later: Time, hash: Hash, ttl: nat)
    requires Injective(hash) && OutlastsTo(redis, later) && IssuesFresh(redis, ops, hash, ttl)
    requires forall op :: op in ops ==> RenewsFor(op, later, ttl)
    ensures |Live(Run(redis, ops, hash, ttl), user, later)| == |Live(redis, user, later)| + Logins(ops, user)
    decreases |ops|
  {
    if ops != [] {
      assert ops[0] in ops;
      RenewalOutlasts(redis, ops[0], later, hash, ttl);
      RenewalCounts(redis, ops[0], user, later, hash, ttl);
      OnlyLoginsAdd(Apply(redis, ops[0], hash, ttl), ops[1..], user, later, hash, ttl);
    }
  }

  /** Revoking all of a user's tokens leaves that user none and everyone else theirs. */
  lemma LogoutEverywhereIsExact(redis: Redis, user: UserId, other: UserId, now: Time, hash: Hash, ttl: nat)
    ensures var after := Apply(redis, LogoutEverywhere(user), hash, ttl);
            && Live(after, user, now) == {}
            && (other != user ==> Live(after, other, now) == Live(redis, other, now))
            && Live(redis, user, now) <= KeysOf(redis, user)
            && after.Keys == redis.Keys - KeysOf(redis, user)
  {
  }

  /** The calls that do not give a token up. */
  predicate Spares(op: Op, token: Token, user: UserId, expires: Time, hash: Hash) {
    match op
    case Refresh(t, _, _) => t != token
    case Rotate(t, _, _, _) => t != token
    case Check(t, now) => t != token || now <= expires
    case Logout(t) => t != token
    case LogoutEverywhere(u) => u != user
    case Expire(keys) => hash(token) !in keys
    case Login(_, _, _) => true
  }

  predicate AllSpare(ops: seq<Op>, token: Token, user: UserId, expires: Time, hash: Hash) {
    ops != [] ==> Spares(ops[0], token, user, expires, hash) && AllSpare(ops[1..], token, user, expires, hash)
  }

  lemma {:induction false} AllSpareMeans(ops: seq<Op>, token: Token, user: UserId, expires: Time, hash: Hash)
    ensures AllSpare(ops, token, user, expires, hash)
       <==> forall op :: op in ops ==> Spares(op, token, user, expires, hash)
  {
    if ops != [] {
      AllSpareMeans(ops[1..], token, user, expires, hash);
      assert forall op :: op in ops <==> op == ops[0] || op in ops[1..];
    }
  }

  /** A stored token stays in the store exactly as long as no call gives it up, whatever other calls come. */
  lemma {:induction false} KeptExactlyWhenSpared(redis: Redis, ops: seq<Op>, token: Token, user: UserId, expires: Time,
                                                 hash: Hash, ttl: nat)
    requires Injective(hash) && hash(token) in redis && redis[hash(token)] == Entry(user, expires)
    requires token !in Issued(ops)
    ensures var after := Run(redis, ops, hash, ttl);
            && (hash(token) in after <==> AllSpare(ops, token, user, expires, hash))
            && (hash(token) in after ==> after[hash(token)] == Entry(user, expires))
    decreases |ops|
  {
    if ops != [] {
      var next := Apply(redis, ops[0], hash, ttl);
      assert forall t :: t in Issues(ops[0]) ==> hash(t) != hash(token);
      OneCallSpares(redis, ops[0], token, user, expires, hash, ttl);
      if Spares(ops[0], token, user, expires, hash) {
        KeptExactlyWhenSpared(next, ops[1..], token, user, expires, hash, ttl);
      } else {
        GoneStaysGone(next, ops[1..], token, hash, ttl);
      }
    }
  }

  lemma OneCallSpares(redis: Redis, op: Op, token: Token, user: UserId, expires: Time, hash: Hash, ttl: nat)
    requires Injective(hash) && hash(token) in redis && redis[hash(token)] == Entry(user, expires)
    requires token !in Issues(op)
    ensures var after := Apply(redis, op, hash, ttl);
            && (hash(token) in after <==> Spares(op, token, user, expires, hash))
            && (hash(token) in after ==> after[hash(token)] == Entry(user, expires))
  {
    assert forall t :: t in Issues(op) ==> hash(t) != hash(token);
  }

  /** So it is accepted for its user until its time is up, exactly if no call gives it up before. */
  lemma StoredTokenIsAccepted(redis: Redis, ops: seq<Op>, token: Token, user: UserId, expires: Time, now: Time,
                              hash: Hash, ttl: nat)
    requires Injective(hash) && hash(token) in redis && redis[hash(token)] == Entry(user, expires)
    requires token !in Issued(ops)
    ensures Owner(Run(redis, ops, hash, ttl), hash(token), now) == Some(user)
       <==> now <= expires && AllSpare(ops, token, user, expires, hash)
  {
    KeptExactlyWhenSpared(redis, ops, token, user, expires, hash, ttl);
  }

  /** A token issued by a login is accepted for its user, and one issued by a refresh for the owner of the token that
      was spent, up to its lifetime after the issue and no longer. */
  lemma IssuedTokensLive(redis: Redis, user: UserId, token: Token, spent: Token, now: Time, later: Time, hash: Hash,
                         ttl: nat)
    ensures Owner(Apply(redis, Login(user, token, now), hash, ttl), hash(token), later)
         == if later <= now + ttl then Some(user) else None
    ensures Owner(redis, hash(spent), now) == Some(user) ==>
              Owner(Apply(redis, Refresh(spent, token, now), hash, ttl), hash(token), later)
              == if later <= now + ttl then Some(user) else None
  {
  }

  // ---- refreshes that overlap ------------------------------------------------

  /**
   * A refresh whose token was validated, and rotates after other calls have come in between: it trades one live token
   * for one exactly when the token has not expired by then and none of those calls gave it up. Otherwise, say after
   * another refresh of the same token, it adds one.
   */
  lemma InterruptedRefreshConservesExactly(redis: Redis, spent: Token, user: UserId, expires: Time, ops: seq<Op>,
                                           minted: Token, later: Time, hash: Hash, ttl: nat)
    requires Injective(hash) && hash(spent) in redis && redis[hash(spent)] == Entry(user, expires)
    requires spent !in Issued(ops) && hash(minted) !in Run(redis, ops, hash, ttl)
    ensures var mid := Run(redis, ops, hash, ttl);
            var after := Apply(mid, Rotate(spent, minted, user, later), hash, ttl);
            |Live(after, user, later)| == |Live(mid, user, later)|
              + if later <= expires && AllSpare(ops, spent, user, expires, hash) then 0 else 1
  {
    StoredTokenIsAccepted(redis, ops, spent, user, expires, later, hash, ttl);
    RotationAdds(Run(redis, ops, hash, ttl), hash(spent), hash(minted), later, user, ttl);
  }

  /** Two requests with one token that both pass `validate` before either rotates: both succeed, and the user is left
      with two live tokens for the one. */
  lemma TwoRefreshesAddOne(redis: Redis, spent: Token, first: Token, second: Token, user: UserId, now: Time,
                           later: Time, hash: Hash, ttl: nat)
    requires Injective(hash) && first != second && hash(first) !in redis && hash(second) !in redis
    requires Owner(redis, hash(spent), later) == Some(user)
    requires now <= later <= now + ttl
    ensures var checked := Apply(Apply(redis, Check(spent, now), hash, ttl), Check(spent, now), hash, ttl);
            var once := Apply(checked, Rotate(spent, first, user, now), hash, ttl);
            var twice := Apply(once, Rotate(spent, second, user, later), hash, ttl);
            && Live(twice, user, later) == Live(redis, user, later) - {hash(spent)} + {hash(first), hash(second)}
            && |Live(twice, user, later)| == |Live(redis, user, later)| + 1
  {
    AcceptedCheckDoesNothing(redis, spent, now, hash, ttl);
    HashesDiffer(first, second, hash);
    TwoRotations(redis, hash(spent), hash(first), hash(second), user, now, later, ttl);
  }

  lemma HashesDiffer(a: Token, b: Token, hash: Hash)
    requires Injective(hash) && a != b
    ensures hash(a) != hash(b)
  {
  }

  lemma AcceptedCheckDoesNothing(redis: Redis, token: Token, now: Time, hash: Hash, ttl: nat)
    requires Owner(redis, hash(token), now).Some?
    ensures Apply(redis, Check(token, now), hash, ttl) == redis
  {
  }

  lemma TwoRotations(redis: Redis, gone: Key, one: Key, two: Key, user: UserId, now: Time, later: Time, ttl: nat)
    requires one !in redis && two !in redis && one != two && now <= later <= now + ttl
    requires Owner(redis, gone, later) == Some(user)
    ensures var once := Rotated(redis, gone, one, Entry(user, now + ttl));
            var twice := Rotated(once, gone, two, Entry(user, later + ttl));
            && Live(twice, user, later) == Live(redis, user, later) - {gone} + {one, two}
            && |Live(twice, user, later)| == |Live(redis, user, later)| + 1
  {
    var once := Rotated(redis, gone, one, Entry(user, now + ttl));
    LiveAfterEarlierRotation(redis, gone, one, later, Entry(user, now + ttl));
    LiveAfterRotation(once, gone, two, later, user, ttl);
    Trade(Live(redis, user, later), gone, one, two);
  }

  lemma LiveAfterEarlierRotation(redis: Redis, gone: Key, next: Key, now: Time, entry: Entry)
    requires next !in redis && now <= entry.expires
    ensures Live(Rotated(redis, gone, next, entry), entry.user, now) == Live(redis, entry.user, now) - {gone} + {next}
  {
  }

  lemma Trade(live: set<Key>, gone: Key, one: Key, two: Key)
    requires gone in live && one !in live && two !in live && one != two
    ensures live - {gone} + {one} - {gone} + {two} == live - {gone} + {one, two}
    ensures |live - {gone} + {one, two}| == |live| + 1
  {
    assert live - {gone} + {one, two} == live - {gone} + {one} + {two};
  }
}

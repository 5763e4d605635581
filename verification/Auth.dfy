/** The account service (shared/src/auth.cpp) over a Redis client: each method against the program of store
    operations it runs, and in a quiet system against the account operations of Credentials. */
module Auth {
  import opened Credentials
  import opened Keyspace
  import opened RedisClient
  import opened Store
  import opened Verdicts

  const BEARER := "Bearer "

  datatype Session = Session(token: string, user: string)

  function ExtractBearerToken(header: string): string {
    if |header| > |BEARER| && header[..|BEARER|] == BEARER then header[|BEARER|..] else ""
  }

  /** A header yields a token exactly when it is the prefix with a non-empty token behind it. */
  lemma BearerTokens(header: string, token: string)
    requires token != ""
    ensures ExtractBearerToken(header) == token <==> header == BEARER + token
  {
    if ExtractBearerToken(header) == token {
      assert header == header[..|BEARER|] + header[|BEARER|..];
    }
    if header == BEARER + token {
      assert header[..|BEARER|] == BEARER && header[|BEARER|..] == token;
    }
  }

  /** The random digits that a generator has still to give. */
  type Source = nat -> Nibble

  /** The hex text of `count` draws, the first of them draw number `start`. */
  function Drawn(draw: Source, start: nat, count: nat): (s: string)
    ensures |s| == count && IsHex(s)
  {
    HexText(seq(count, i requires 0 <= i < count => draw(start + i)))
  }

  function SaltAt(draw: Source, start: nat): string {
    Drawn(draw, start, SALT_LENGTH)
  }

  function TokenAt(draw: Source, start: nat): string {
    SaltAt(draw, start) + SaltAt(draw, start + SALT_LENGTH)
  }

  /** Each of the 64 digits of a token comes from a draw of its own, the next ones in order. */
  lemma TokenDigits(draw: Source, start: nat, k: nat)
    requires k < 64
    ensures |TokenAt(draw, start)| == 64 && TokenAt(draw, start)[k] == HEX_DIGITS[draw(start + k)]
  {
    DigitIsListed(draw(start + k));
  }

  lemma LookThenStore(w: World, user: string, payload: string)
    ensures AppliedTo(w, [GetUser(user)]) == w
    ensures AppliedTo(w, [GetUser(user), PutUser(user, payload)]) == Step(w, Do(PutUser(user, payload)))
  {
    AppliedNone(w);
    AppliedLast(w, [], GetUser(user));
    AppliedLast(w, [GetUser(user)], PutUser(user, payload));
    assert [] + [GetUser(user)] == [GetUser(user)];
    assert [GetUser(user)] + [PutUser(user, payload)] == [GetUser(user), PutUser(user, payload)];
  }

  lemma LookThenIssue(w: World, user: string, token: string)
    ensures AppliedTo(w, [GetUser(user)]) == w
    ensures AppliedTo(w, [GetUser(user), PutToken(token, user)]) == Step(w, Do(PutToken(token, user)))
  {
    AppliedNone(w);
    AppliedLast(w, [], GetUser(user));
    AppliedLast(w, [GetUser(user)], PutToken(token, user));
    assert [] + [GetUser(user)] == [GetUser(user)];
    assert [GetUser(user)] + [PutToken(token, user)] == [GetUser(user), PutToken(token, user)];
  }

  /** What checking a token asks of the store: nothing for the empty token. */
  function TokenLook(token: string): seq<Op> {
    if token == "" then [] else [GetToken(token)]
  }

  lemma LookOnly(w: World, token: string)
    ensures AppliedTo(w, TokenLook(token)) == w
  {
    AppliedNone(w);
    AppliedLast(w, [], GetToken(token));
    assert [] + [GetToken(token)] == [GetToken(token)];
  }

  /** The calls of a registration that passed the checks, and its outcome: a look, and a store exactly if the
      look's reply showed no record or never came. */
  predicate IsRegistration(user: string, payload: string, error: Option<RegisterError>, script: seq<Exchange>) {
    && |script| >= 1 && script[0].op == GetUser(user)
    && if TextHeard(script[0]).Some? then |script| == 1 && error == Some(NameTaken)
       else |script| == 2 && script[1].op == PutUser(user, payload) &&
            error == if script[1].heard.Some? then None else Some(StoreFailed)
  }

  /** The calls of a login and its outcome: a token is stored exactly if the record that the look showed
      matches the password, and handed out exactly if the store was answered. */
  predicate IsLogin(sha: Digest, user: string, password: string, token: string, session: Option<Session>,
                    script: seq<Exchange>)
  {
    && |script| >= 1 && script[0].op == GetUser(user)
    && var stored := TextHeard(script[0]);
       if stored.None? || !PasswordMatches(sha, stored.value, password) then |script| == 1 && session == None
       else |script| == 2 && script[1].op == PutToken(token, user) &&
            session == if script[1].heard.Some? then Some(Session(token, user)) else None
  }

  /** The check of a token: its user is the text that the one look showed. */
  predicate IsValidation(token: string, user: Option<string>, script: seq<Exchange>) {
    OpsOf(script) == TokenLook(token) && user == if token == "" then None else TextHeard(script[0])
  }

  /** A push, and a trim exactly if the push was answered. */
  predicate IsRecording(user: string, id: string, ok: bool, script: seq<Exchange>) {
    && |script| >= 1 && script[0].op == PushHistory(user, id) && (ok <==> script[0].heard.Some?)
    && OpsOf(script) == if ok then [PushHistory(user, id), TrimHistory(user)] else [PushHistory(user, id)]
  }

  /** Whoever else is active: the user a token is found to have is its live owner at the moment of the look. */
  lemma ValidationIsTruthful(a: View, b: View, token: string, user: Option<string>, script: seq<Exchange>)
    requires Runs(a, b, script) && IsValidation(token, user, script) && script != [] && script[0].heard.Some?
    ensures var k := script[0].heard.value.at;
            |a.trace| <= k < |b.trace| && user == Validate(WorldBefore(b, k), token)
  {
    hide Mine, Now, AppliedTo, Applications, WorldBefore, InOrder;
    assert Sound(a, b, script[0]) && OpsOf(script)[0] == script[0].op;
  }

  /** A login goes on to issue a token exactly if it would succeed in the world at the moment of its look. */
  lemma LoginIsTruthful(sha: Digest, a: View, b: View, user: string, password: string, token: string,
                        session: Option<Session>, script: seq<Exchange>)
    requires Runs(a, b, script) && IsLogin(sha, user, password, token, session, script) && script[0].heard.Some?
    ensures var k := script[0].heard.value.at;
            |a.trace| <= k < |b.trace| &&
            (|script| == 2 <==> Credentials.Login(sha, WorldBefore(b, k), user, password, token).1)
    ensures session.Some? ==> |script| == 2
  {
    hide Mine, Now, AppliedTo, Applications, WorldBefore, InOrder, PasswordMatches;
    assert Sound(a, b, script[0]);
  }

  /** A registration is refused exactly if at the moment of its look the name is taken, and its reply comes. */
  lemma RegistrationIsTruthful(a: View, b: View, user: string, payload: string, error: Option<RegisterError>,
                               script: seq<Exchange>)
    requires Runs(a, b, script) && IsRegistration(user, payload, error, script) && script[0].heard.Some?
    ensures var k := script[0].heard.value.at;
            |a.trace| <= k < |b.trace| && (error == Some(NameTaken) <==> !MayStore(WorldBefore(b, k), user, false))
  {
    hide Mine, Now, AppliedTo, Applications, WorldBefore, InOrder;
    assert Sound(a, b, script[0]);
  }

  class AuthService {
    const redis: Client
    const sha: Digest
    const draw: Source
    var drawn: nat

    constructor (redis: Client, sha: Digest, draw: Source)
      ensures this.redis == redis && this.sha == sha && this.draw == draw && drawn == 0
    {
      this.redis, this.sha, this.draw, drawn := redis, sha, draw, 0;
    }

    ghost predicate Valid()
      reads redis.server
    {
      IsDigest(sha) && redis.server.Valid()
    }

    method HashPassword(password: string, salt: string) returns (hash: string)
      requires IsDigest(sha)
      ensures hash == HashOf(sha, password, salt)
    {
      var digest := sha(salt + password);
      hash := "";
      for i := 0 to DIGEST_LENGTH
        invariant hash == Hex(digest[..i])
      {
        assert digest[..i + 1][..i] == digest[..i];
        hash := hash + [HexDigit(digest[i] / 16), HexDigit(digest[i] % 16)];
      }
      assert digest[..DIGEST_LENGTH] == digest;
    }

    method GenerateSalt() returns (salt: string)
      modifies this`drawn
      ensures salt == SaltAt(draw, old(drawn)) && drawn == old(drawn) + SALT_LENGTH
    {
      salt := "";
      for i := 0 to SALT_LENGTH
        invariant drawn == old(drawn) + i
        invariant salt == Drawn(draw, old(drawn), i)
      {
        salt := salt + [HexDigit(draw(drawn))];
        drawn := drawn + 1;
      }
    }

    method GenerateToken() returns (token: string)
      modifies this`drawn
      ensures token == TokenAt(draw, old(drawn)) && drawn == old(drawn) + 2 * SALT_LENGTH
    {
      var front := GenerateSalt();
      var back := GenerateSalt();
      token := front + back;
    }

    /** The record that the next registration would store. */
    function NextPayload(password: string): string
      reads this
    {
      PayloadOf(sha, password, SaltAt(draw, drawn))
    }

    /** register_user: whoever else is active and whatever is lost, a rejected request touches nothing, and
        any other is a look and perhaps a store. */
    method RegisterUser(user: string, password: string)
      returns (error: Option<RegisterError>, ghost script: seq<Exchange>)
      requires Valid()
      modifies this, redis, redis.server
      ensures Valid() && Runs(old(redis.Look()), redis.Look(), script)
      ensures if Rejected(user, password).Some? then script == [] && error == Rejected(user, password)
              else IsRegistration(user, old(NextPayload(password)), error, script)
      ensures drawn == old(drawn) + if |script| == 2 then SALT_LENGTH else 0
      ensures old(redis.Look()).Alone() ==>
        (Now(redis.Look()), error) ==
        Register(sha, Now(old(redis.Look())), user, password, SaltAt(draw, old(drawn)))
    {
      hide Refines, Now, AppliedTo, Mine, Replay, HexText, Runs;
      RunsNothing(redis.Look());
      script := [];
      if |user| < 3 || |user| > 32 {
        return Some(BadNameLength), [];
      }
      if |password| < 6 {
        return Some(PasswordTooShort), [];
      }
      var i := 0;
      while i < |user|
        invariant 0 <= i <= |user| && forall k :: 0 <= k < i ==> IsNameChar(user[k])
      {
        if !IsNameChar(user[i]) {
          return Some(BadNameCharacter), [];
        }
        i := i + 1;
      }
      error, script := StoreUnlessFound(user, password);
    }

    /** The part of register_user that talks to the store. */
    method StoreUnlessFound(user: string, password: string)
      returns (error: Option<RegisterError>, ghost script: seq<Exchange>)
      requires Valid()
      modifies this, redis, redis.server
      ensures Valid() && Runs(old(redis.Look()), redis.Look(), script)
      ensures IsRegistration(user, old(NextPayload(password)), error, script)
      ensures drawn == old(drawn) + if |script| == 2 then SALT_LENGTH else 0
      ensures old(redis.Look()).Alone() ==>
        var w := Now(old(redis.Look()));
        if user in w.store.users then Now(redis.Look()) == w && error == Some(NameTaken)
        else Now(redis.Look()) == Step(w, Do(PutUser(user, old(NextPayload(password))))) && error == None
    {
      hide Refines, Now, AppliedTo, Mine, Replay, HexText, Hex, Drawn, IsDigest, Applications, InOrder;
      ghost var start, payloadDue := redis.Look(), NextPayload(password);
      LookThenStore(Now(start), user, payloadDue);
      var key := USER_PREFIX + user;
      var found;
      ghost var look;
      found, look := redis.RawGet(key, GetUser(user));
      script := [look];
      assert OpsOf(script) == [GetUser(user)];
      if found.Some? && !found.value.Nil? {
        return Some(NameTaken), script;
      }
      ghost var between := redis.Look();
      var salt := GenerateSalt();
      var hash := HashPassword(password, salt);
      var payload := salt + ":" + hash;
      var ok;
      ghost var save;
      ok, save := redis.RawSet(key, payload, None, PutUser(user, payload));
      RunsInTurn(start, between, redis.Look(), script, [save]);
      script := script + [save];
      assert OpsOf(script) == [GetUser(user), PutUser(user, payloadDue)];
      error := if ok then None else Some(StoreFailed);
    }

    /** login: the session's token is stored before it is handed out. */
    method Login(user: string, password: string) returns (session: Option<Session>, ghost script: seq<Exchange>)
      requires Valid()
      modifies this, redis, redis.server
      ensures Valid() && Runs(old(redis.Look()), redis.Look(), script)
      ensures IsLogin(sha, user, password, TokenAt(draw, old(drawn)), session, script)
      ensures drawn == old(drawn) + if |script| == 2 then 2 * SALT_LENGTH else 0
      ensures old(redis.Look()).Alone() ==>
        (Now(redis.Look()), session.Some?) ==
        Credentials.Login(sha, Now(old(redis.Look())), user, password, TokenAt(draw, old(drawn)))
    {
      hide Refines, Now, AppliedTo, Mine, Replay, HexText, Hex, Drawn, IsDigest, Applications, InOrder;
      ghost var start, tokenDue := redis.Look(), TokenAt(draw, drawn);
      LookThenIssue(Now(start), user, tokenDue);
      var key := USER_PREFIX + user;
      var reply;
      ghost var look;
      reply, look := redis.RawGet(key, GetUser(user));
      script := [look];
      assert OpsOf(script) == [GetUser(user)];
      if reply.None? || reply.value.Nil? {
        return None, script;
      }
      var matches := Matches(reply.value.value.text, password);
      if !matches {
        return None, script;
      }
      ghost var between := redis.Look();
      var token := GenerateToken();
      var ok;
      ghost var issue;
      ok, issue := redis.RawSet(TOKEN_PREFIX + token, user, Some(TOKEN_TTL), PutToken(token, user));
      RunsInTurn(start, between, redis.Look(), script, [issue]);
      script := script + [issue];
      assert OpsOf(script) == [GetUser(user), PutToken(tokenDue, user)];
      session := if ok then Some(Session(token, user)) else None;
    }

    /** The comparison in login of a stored record with a password. */
    method Matches(stored: string, password: string) returns (ok: bool)
      requires IsDigest(sha)
      ensures ok == PasswordMatches(sha, stored, password)
    {
      var colon := FirstColon(stored);
      if colon.None? {
        return false;
      }
      var salt, hash := stored[..colon.value], stored[colon.value + 1..];
      var attempt := HashPassword(password, salt);
      ok := attempt == hash;
    }

    method ValidateToken(token: string) returns (user: Option<string>, ghost script: seq<Exchange>)
      requires Valid()
      modifies redis, redis.server
      ensures Valid() && Runs(old(redis.Look()), redis.Look(), script) && IsValidation(token, user, script)
      ensures old(redis.Look()).Alone() ==>
        user == Validate(Now(old(redis.Look())), token) && Now(redis.Look()) == Now(old(redis.Look()))
    {
      hide Refines, Now, AppliedTo, Mine, Replay, IsDigest, Applications, InOrder;
      LookOnly(Now(redis.Look()), token);
      if token == "" {
        RunsNothing(redis.Look());
        return None, [];
      }
      var reply;
      ghost var look;
      reply, look := redis.RawGet(TOKEN_PREFIX + token, GetToken(token));
      script := [look];
      assert OpsOf(script) == [GetToken(token)];
      if reply.None? || reply.value.Nil? {
        return None, script;
      }
      user := Some(reply.value.value.text);
    }

    /** record_submission: no trim when the push got no reply. */
    method RecordSubmission(user: string, id: string) returns (ok: bool, ghost script: seq<Exchange>)
      requires Valid()
      modifies redis, redis.server
      ensures Valid() && Runs(old(redis.Look()), redis.Look(), script) && IsRecording(user, id, ok, script)
    {
      hide Refines, Runs, IsDigest;
      var key := USER_SUBS_PREFIX + user;
      ghost var start := redis.Look();
      var reply;
      ghost var push;
      reply, push := redis.RawLPush(key, id, PushHistory(user, id));
      script := [push];
      assert OpsOf(script) == [PushHistory(user, id)];
      if reply.None? {
        return false, script;
      }
      ghost var between := redis.Look();
      var _, trim := redis.RawLTrim(key, 0, 99, TrimHistory(user));
      RunsInTurn(start, between, redis.Look(), script, [trim]);
      script := script + [trim];
      assert OpsOf(script) == [PushHistory(user, id), TrimHistory(user)];
      ok := true;
    }

    method GetUserSubmissions(user: string, limit: int) returns (ids: seq<string>, ghost e: Exchange)
      requires Valid()
      modifies redis, redis.server
      ensures Valid() && Runs(old(redis.Look()), redis.Look(), [e]) && AnsweredAlone(old(redis.Look()), e)
      ensures e.op == RangeHistory(user, limit) && ids == IdsHeard(e)
    {
      hide Refines, Runs, AnsweredAlone, IsDigest, Slice;
      ids := [];
      var reply;
      reply, e := redis.RawLRange(USER_SUBS_PREFIX + user, 0, limit - 1, RangeHistory(user, limit));
      if reply.None? || !reply.value.Multi? {
        return;
      }
      var items := reply.value.items;
      for i := 0 to |items|
        invariant ids == Texts(items)[..i]
      {
        ids := ids + [items[i].text];
      }
    }
  }
}

/** Accounts, logins and tokens as operations on the typed store (shared/src/auth.cpp), and what holds of
    them over every sequential run.  The digest is any function to 32 bytes. */
module Credentials {
  import opened Store
  import opened Verdicts

  type Byte = b: nat | b < 256
  type Nibble = d: nat | d < 16
  type Digest = string -> seq<Byte>

  const DIGEST_LENGTH := 32
  const SALT_LENGTH := 32

  ghost predicate IsDigest(sha: Digest) {
    forall s: string :: |sha(s)| == DIGEST_LENGTH
  }

  function HexDigit(d: Nibble): char {
    if d < 10 then '0' + d as char else 'a' + (d - 10) as char
  }

  predicate IsHex(s: string) {
    forall c <- s :: '0' <= c <= '9' || 'a' <= c <= 'f'
  }

  /** Two hex digits for each byte. */
  function Hex(bytes: seq<Byte>): string {
    if bytes == [] then []
    else Hex(bytes[..|bytes| - 1]) + [HexDigit(bytes[|bytes| - 1] / 16), HexDigit(bytes[|bytes| - 1] % 16)]
  }

  function HexText(draws: seq<Nibble>): (s: string)
    ensures |s| == |draws| && IsHex(s)
  {
    seq(|draws|, i requires 0 <= i < |draws| => HexDigit(draws[i]))
  }

  lemma {:induction false} HexLength(bytes: seq<Byte>)
    ensures |Hex(bytes)| == 2 * |bytes|
  {
    if bytes != [] {
      HexLength(bytes[..|bytes| - 1]);
    }
  }

  const HEX_DIGITS := "0123456789abcdef"

  /** Byte k is written as the two hex digits of its value, the high one first. */
  lemma {:induction false} HexAt(bytes: seq<Byte>, k: nat)
    requires k < |bytes|
    ensures |Hex(bytes)| == 2 * |bytes|
    ensures Hex(bytes)[2 * k] == HEX_DIGITS[bytes[k] / 16] && Hex(bytes)[2 * k + 1] == HEX_DIGITS[bytes[k] % 16]
  {
    hide HexDigit;
    var n := |bytes| - 1;
    HexLength(bytes[..n]);
    DigitIsListed(bytes[n] / 16);
    DigitIsListed(bytes[n] % 16);
    if k < n {
      HexAt(bytes[..n], k);
    }
  }

  lemma DigitIsListed(d: Nibble)
    ensures HexDigit(d) == HEX_DIGITS[d]
  {
  }

  lemma SameByte(a: Byte, b: Byte)
    ensures HexDigit(a / 16) == HexDigit(b / 16) && HexDigit(a % 16) == HexDigit(b % 16) ==> a == b
  {
  }

  /** Different digests have different texts. */
  lemma {:induction false} HexInjective(a: seq<Byte>, b: seq<Byte>)
    requires |a| == |b| && Hex(a) == Hex(b)
    ensures a == b
  {
    hide HexDigit;
    if a != [] {
      var n := |a| - 1;
      SameByte(a[n], b[n]);
      HexLength(a[..n]);
      HexLength(b[..n]);
      assert Hex(a)[..2 * n] == Hex(a[..n]) && Hex(b)[..2 * n] == Hex(b[..n]);
      assert Hex(a)[2 * n] == HexDigit(a[n] / 16) && Hex(b)[2 * n] == HexDigit(b[n] / 16);
      assert Hex(a)[2 * n + 1] == HexDigit(a[n] % 16) && Hex(b)[2 * n + 1] == HexDigit(b[n] % 16);
      HexInjective(a[..n], b[..n]);
      assert a == a[..n] + [a[n]] && b == b[..n] + [b[n]];
    }
  }

  /** hash_password on salt and password. */
  function HashOf(sha: Digest, password: string, salt: string): string {
    Hex(sha(salt + password))
  }

  function PayloadOf(sha: Digest, password: string, salt: string): string {
    salt + ":" + HashOf(sha, password, salt)
  }

  /** Position of the first colon. */
  function FirstColon(s: string): (r: Option<nat>)
    ensures r.Some? ==> r.value < |s|
  {
    if s == [] then None
    else if s[0] == ':' then Some(0)
    else
      var rest := FirstColon(s[1..]);
      if rest.Some? then Some(rest.value + 1) else None
  }

  /** The first colon is a colon with none before it, and is missing exactly from texts without one. */
  lemma {:induction false} FirstColonIsFirst(s: string)
    ensures FirstColon(s).None? <==> ':' !in s
    ensures FirstColon(s).Some? ==> s[FirstColon(s).value] == ':' && ':' !in s[..FirstColon(s).value]
  {
    if s != [] && s[0] != ':' {
      FirstColonIsFirst(s[1..]);
      if FirstColon(s).Some? {
        assert s[..FirstColon(s).value] == [s[0]] + s[1..][..FirstColon(s[1..]).value];
      }
    }
  }

  datatype RegisterError = BadNameLength | PasswordTooShort | BadNameCharacter | NameTaken | StoreFailed

  predicate IsNameChar(c: char) {
    '0' <= c <= '9' || 'a' <= c <= 'z' || 'A' <= c <= 'Z' || c == '_'
  }

  /** The checks that come before any look at the store. */
  function Rejected(user: string, password: string): Option<RegisterError> {
    if |user| < 3 || |user| > 32 then Some(BadNameLength)
    else if |password| < 6 then Some(PasswordTooShort)
    else if exists c <- user :: !IsNameChar(c) then Some(BadNameCharacter)
    else None
  }

  /** A request is rejected exactly for a name of fewer than 3 or more than 32 characters, a password of fewer
      than 6, or a character that is no letter, digit or underscore, in this order. */
  lemma RejectedExactlyWhen(user: string, password: string)
    ensures var short, weak := |user| < 3 || |user| > 32, |password| < 6;
      var odd := exists i :: 0 <= i < |user| &&
                   !('0' <= user[i] <= '9' || 'a' <= user[i] <= 'z' || 'A' <= user[i] <= 'Z' || user[i] == '_');
      && (Rejected(user, password) == None <==> !short && !weak && !odd)
      && (Rejected(user, password) == Some(BadNameLength) <==> short)
      && (Rejected(user, password) == Some(PasswordTooShort) <==> !short && weak)
      && (Rejected(user, password) == Some(BadNameCharacter) <==> !short && !weak && odd)
  {
    if exists c <- user :: !IsNameChar(c) {
      var c :| c in user && !IsNameChar(c);
      var i :| 0 <= i < |user| && user[i] == c;
    }
    assert forall i :: 0 <= i < |user| ==> user[i] in user;
  }

  /** register_user, undisturbed: the error, if any, and the world after it. */
  function Register(sha: Digest, w: World, user: string, password: string, salt: string)
    : (World, Option<RegisterError>)
  {
    var rejected := Rejected(user, password);
    if rejected.Some? then (w, rejected)
    else if user in w.store.users then (w, Some(NameTaken))
    else (Step(w, Do(PutUser(user, PayloadOf(sha, password, salt)))), None)
  }

  /** Whether a look at the user's record, whose reply may be lost, lets register_user go on to store. */
  predicate MayStore(w: World, user: string, lost: bool) {
    lost || Answer(w.store, w.now, GetUser(user)) == Text(None)
  }

  predicate PasswordMatches(sha: Digest, stored: string, password: string) {
    var colon := FirstColon(stored);
    colon.Some? && HashOf(sha, password, stored[..colon.value]) == stored[colon.value + 1..]
  }

  /** login, undisturbed: whether it succeeds, and the world after it. */
  function Login(sha: Digest, w: World, user: string, password: string, token: string): (World, bool) {
    if user in w.store.users && PasswordMatches(sha, w.store.users[user], password)
    then (Step(w, Do(PutToken(token, user))), true)
    else (w, false)
  }

  /** validate_token. */
  function Validate(w: World, token: string): Option<string> {
    if token == "" then None else Live(w.store.tokens, token, w.now)
  }

  /** One step of a sequential run. */
  datatype AuthEvent =
    | Registering(user: string, password: string, salt: string)
    | LoggingIn(user: string, password: string, token: string)
    | Passing(seconds: nat)

  function AuthStep(sha: Digest, w: World, e: AuthEvent): World {
    match e
    case Registering(user, password, salt) => Register(sha, w, user, password, salt).0
    case LoggingIn(user, password, token) => Login(sha, w, user, password, token).0
    case Passing(seconds) => w.(now := w.now + seconds)
  }

  /** The world after the first n events. */
  function WorldAt(sha: Digest, w: World, events: seq<AuthEvent>, n: nat): World
    requires n <= |events|
  {
    if n == 0 then w else AuthStep(sha, WorldAt(sha, w, events, n - 1), events[n - 1])
  }

  /** A user's record, once there, is never changed by any later event of the run. */
  lemma {:induction false} RecordNeverChanges(sha: Digest, w: World, events: seq<AuthEvent>, m: nat, n: nat, user: string)
    requires m <= n <= |events| && user in WorldAt(sha, w, events, m).store.users
    ensures user in WorldAt(sha, w, events, n).store.users
    ensures WorldAt(sha, w, events, n).store.users[user] == WorldAt(sha, w, events, m).store.users[user]
  {
    hide Rejected, PasswordMatches;
    if m < n {
      RecordNeverChanges(sha, w, events, m, n - 1, user);
    }
  }

  /** The first colon of a stored record ends the salt, whatever the hash. */
  lemma {:induction false} SplitRecovers(salt: string, hash: string)
    requires ':' !in salt
    ensures FirstColon(salt + ":" + hash) == Some(|salt|)
    ensures (salt + ":" + hash)[..|salt|] == salt && (salt + ":" + hash)[|salt| + 1..] == hash
  {
    if salt != [] {
      assert (salt + ":" + hash)[1..] == salt[1..] + ":" + hash;
      SplitRecovers(salt[1..], hash);
    }
  }

  lemma HexHasNoColon(s: string)
    requires IsHex(s)
    ensures ':' !in s
  {
  }

  lemma MatchesStored(sha: Digest, password: string, salt: string, attempt: string)
    requires IsDigest(sha) && IsHex(salt)
    ensures PasswordMatches(sha, PayloadOf(sha, password, salt), attempt) <==> sha(salt + attempt) == sha(salt + password)
  {
    HexHasNoColon(salt);
    SplitRecovers(salt, HashOf(sha, password, salt));
    if Hex(sha(salt + attempt)) == Hex(sha(salt + password)) {
      HexInjective(sha(salt + attempt), sha(salt + password));
    }
  }

  /** After user u registered with password p, and whatever events follow, a login of u with q succeeds
      exactly when q has p's digest under the salt of that registration. */
  lemma LoginMatchesRegistration(sha: Digest, w: World, events: seq<AuthEvent>, m: nat, n: nat, q: string, token: string)
    requires IsDigest(sha) && m < n <= |events| && events[m].Registering? && IsHex(events[m].salt)
    requires var e := events[m];
             Register(sha, WorldAt(sha, w, events, m), e.user, e.password, e.salt).1 == None
    ensures var e := events[m];
            Login(sha, WorldAt(sha, w, events, n), e.user, q, token).1 <==>
            sha(e.salt + q) == sha(e.salt + e.password)
  {
    hide PasswordMatches, PayloadOf, Rejected;
    var e := events[m];
    assert WorldAt(sha, w, events, m + 1).store.users[e.user] == PayloadOf(sha, e.password, e.salt);
    RecordNeverChanges(sha, w, events, m + 1, n, e.user);
    MatchesStored(sha, e.password, e.salt, q);
  }

  /** At most one registration of a name succeeds in a sequential run. */
  lemma OneRegistrationPerName(sha: Digest, w: World, events: seq<AuthEvent>, m: nat, n: nat)
    requires m < n < |events| && events[m].Registering? && events[n].Registering? && events[m].user == events[n].user
    requires Register(sha, WorldAt(sha, w, events, m), events[m].user, events[m].password, events[m].salt).1 == None
    ensures Register(sha, WorldAt(sha, w, events, n), events[n].user, events[n].password, events[n].salt).1 != None
  {
    hide Rejected, PayloadOf;
    assert events[m].user in WorldAt(sha, w, events, m + 1).store.users;
    RecordNeverChanges(sha, w, events, m + 1, n, events[m].user);
  }

  /** Event i is a login of `user` that issues `token`. */
  predicate Issues(sha: Digest, w: World, events: seq<AuthEvent>, i: nat, token: string, user: string)
    requires i < |events|
  {
    && events[i].LoggingIn? && events[i].token == token && events[i].user == user
    && Login(sha, WorldAt(sha, w, events, i), user, events[i].password, token).1
  }

  /** No two logins are given the same token. */
  predicate FreshTokens(events: seq<AuthEvent>) {
    forall i, j :: 0 <= i < j < |events| && events[i].LoggingIn? && events[j].LoggingIn? ==>
      events[i].token != events[j].token
  }

  /** One event puts a token there exactly if it is a successful login that issues it. */
  lemma TokenNext(sha: Digest, w: World, e: AuthEvent, token: string)
    ensures var tokens, tokens' := w.store.tokens, AuthStep(sha, w, e).store.tokens;
      if e.LoggingIn? && e.token == token && Login(sha, w, e.user, e.password, token).1
      then token in tokens' && tokens'[token] == Timed(e.user, w.now + TOKEN_TTL)
      else (token in tokens' <==> token in tokens) && (token in tokens ==> tokens'[token] == tokens[token])
  {
    hide PasswordMatches, Rejected, PayloadOf;
  }

  /** The token key holds exactly what an earlier login put there. */
  lemma {:induction false} TokenKeyIs(sha: Digest, w: World, events: seq<AuthEvent>, n: nat, token: string)
    requires w.store.tokens == map[] && FreshTokens(events) && n <= |events|
    ensures token in WorldAt(sha, w, events, n).store.tokens ==>
              exists i :: 0 <= i < n && IssuedAs(sha, w, events, i, token, WorldAt(sha, w, events, n).store.tokens[token])
    ensures forall i, entry :: 0 <= i < n && IssuedAs(sha, w, events, i, token, entry) ==>
              token in WorldAt(sha, w, events, n).store.tokens && WorldAt(sha, w, events, n).store.tokens[token] == entry
  {
    hide Login, AuthStep;
    if n > 0 {
      TokenKeyIs(sha, w, events, n - 1, token);
      TokenNext(sha, WorldAt(sha, w, events, n - 1), events[n - 1], token);
      var before, e := WorldAt(sha, w, events, n - 1), events[n - 1];
      var after := AuthStep(sha, before, e);
      assert after == WorldAt(sha, w, events, n);
      if e.LoggingIn? && e.token == token {
        assert forall i :: 0 <= i < n - 1 && events[i].LoggingIn? ==> events[i].token != token;
        if Login(sha, before, e.user, e.password, token).1 {
          assert IssuedAs(sha, w, events, n - 1, token, after.store.tokens[token]);
        }
      }
    }
  }

  predicate IssuedAs(sha: Digest, w: World, events: seq<AuthEvent>, i: nat, token: string, entry: Timed<string>)
    requires i < |events|
  {
    Issues(sha, w, events, i, token, entry.value) && entry.deadline == WorldAt(sha, w, events, i).now + TOKEN_TTL
  }

  /** A token is valid for u exactly when a login of u issued it less than 604800 s ago. */
  lemma TokensAreExact(sha: Digest, w: World, events: seq<AuthEvent>, n: nat, token: string, user: string)
    requires w.store.tokens == map[] && FreshTokens(events) && n <= |events| && token != ""
    ensures Validate(WorldAt(sha, w, events, n), token) == Some(user) <==>
            exists i :: 0 <= i < n && Issues(sha, w, events, i, token, user) &&
                        WorldAt(sha, w, events, n).now < WorldAt(sha, w, events, i).now + 604800
  {
    TokenKeyIs(sha, w, events, n, token);
    var now := WorldAt(sha, w, events, n);
    if Validate(now, token) == Some(user) {
      var i :| 0 <= i < n && IssuedAs(sha, w, events, i, token, now.store.tokens[token]);
      assert Issues(sha, w, events, i, token, user);
    }
    forall i | 0 <= i < n && Issues(sha, w, events, i, token, user) &&
               now.now < WorldAt(sha, w, events, i).now + TOKEN_TTL
      ensures Validate(now, token) == Some(user)
    {
      assert IssuedAs(sha, w, events, i, token, Timed(user, WorldAt(sha, w, events, i).now + TOKEN_TTL));
    }
  }
}

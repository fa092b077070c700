/**
 * The pseudo-token generator of CrmClientApp/Services/TokenService.cs.
 *
 * A TokenService is built once from the CRM_USER_ID and CRM_PASSWORD
 * environment variables; GenerateToken hashes
 * "userId:password:secret:timestamp" with the configured digest, encodes the
 * digest in Base64 and, by default, appends ":timestamp".  The environment,
 * the clock and the three digest algorithms are parameters of the model.
 */
module TokenGeneration {
  import opened Wrappers
  import opened Exceptions
  import Base64
  import Decimal

  type byte = Base64.byte

  /** Digest outputs: 32 bytes for SHA-256 and 64 for SHA-512 (FIPS 180-4), 16 for MD5 (RFC 1321). */
  type Sha256Digest = s: seq<byte> | |s| == 32 witness seq(32, _ => 0)
  type Sha512Digest = s: seq<byte> | |s| == 64 witness seq(64, _ => 0)
  type Md5Digest = s: seq<byte> | |s| == 16 witness seq(16, _ => 0)

  /**
   * The three hash functions, applied to the payload text (its UTF-8
   * encoding is part of each function).  Nothing about them is assumed
   * beyond their output lengths.
   */
  datatype Digests = Digests(sha256: string -> Sha256Digest, sha512: string -> Sha512Digest, md5: string -> Md5Digest)

  datatype Algorithm = Sha256 | Sha512 | Md5

  /** A C# int, the type of ExternalApi:Token:ExpiryMinutes. */
  newtype int32 = x: int | -0x8000_0000 <= x < 0x8000_0000

  /** DateTime.MinValue and DateTime.MaxValue as whole Unix seconds. */
  const MinUnixSeconds: int := -62135596800
  const MaxUnixSeconds: int := 253402300799

  /** A reading of DateTime.UtcNow, in whole Unix seconds. */
  type UnixTime = t: int | MinUnixSeconds <= t <= MaxUnixSeconds

  /** The ExternalApi:Token:* configuration values; None when a key is absent. */
  datatype TokenConfig = TokenConfig(
    algorithm: Option<string>,
    secret: Option<string>,
    expiryMinutes: Option<int32>,
    includeTimestamp: Option<bool>)

  /** A constructed service: the configuration it reads and the two credentials it captured. */
  datatype TokenService = TokenService(config: TokenConfig, userId: string, password: string)

  const UserIdRequired := "CRM_USER_ID environment variable is required"
  const PasswordRequired := "CRM_PASSWORD environment variable is required"
  const SecretRequired := "ExternalApi:Token:Secret configuration is required"
  const DateOutOfRange := "The added or subtracted value results in an un-representable DateTime. (Parameter 'value')"

  const DefaultAlgorithmName := "SHA256"
  const DefaultExpiryMinutes: int32 := 60

  /**
   * The constructor: each environment variable must be present (not null);
   * CRM_USER_ID is checked first.  An empty value is accepted.
   */
  function NewTokenService(config: TokenConfig, userIdVar: Option<string>, passwordVar: Option<string>): (r: Result<TokenService, Exception>)
    ensures r.Ok? <==> userIdVar.Some? && passwordVar.Some?
    ensures userIdVar.None? ==> r == Err(InvalidOperationException(UserIdRequired))
    ensures userIdVar.Some? && passwordVar.None? ==> r == Err(InvalidOperationException(PasswordRequired))
    ensures r.Ok? ==> r.value.config == config && r.value.userId == userIdVar.value && r.value.password == passwordVar.value
  {
    match userIdVar
    case None => Err(InvalidOperationException(UserIdRequired))
    case Some(userId) =>
      match passwordVar
      case None => Err(InvalidOperationException(PasswordRequired))
      case Some(password) => Ok(TokenService(config, userId, password))
  }

  // ---------- algorithm selection ----------

  /** String.ToUpperInvariant on one character, for the ASCII range. */
  function UpperChar(c: char): char {
    if 'a' <= c <= 'z' then (c as int - 32) as char else c
  }

  function ToUpperInvariant(s: string): string {
    seq(|s|, i requires 0 <= i < |s| => UpperChar(s[i]))
  }

  /**
   * The `switch` on the upper-cased name, with its SHA-256 default.  The
   * name is matched case-insensitively: SHA-512 and MD5 are chosen exactly
   * for the case variants of "SHA512" and "MD5"; every other name, and an
   * absent one, selects SHA-256.
   */
  function SelectAlgorithm(name: Option<string>): (alg: Algorithm)
    ensures alg == Sha512 <==> name.Some? && CaseVariantOf(name.value, "SHA512")
    ensures alg == Md5 <==> name.Some? && CaseVariantOf(name.value, "MD5")
    ensures alg == Sha256 <==>
              name.None? || !(CaseVariantOf(name.value, "SHA512") || CaseVariantOf(name.value, "MD5"))
  {
    var n := name.GetOr(DefaultAlgorithmName);
    var upper := ToUpperInvariant(n);
    ToUpperMatches(n, "SHA256");
    ToUpperMatches(n, "SHA512");
    ToUpperMatches(n, "MD5");
    if upper == "SHA256" then Sha256
    else if upper == "SHA512" then Sha512
    else if upper == "MD5" then Md5
    else Sha256
  }

  predicate IsUpperOrDigit(c: char) {
    ('A' <= c <= 'Z') || ('0' <= c <= '9')
  }

  function LowerChar(c: char): char {
    if 'A' <= c <= 'Z' then (c as int + 32) as char else c
  }

  /** s spells `canonical` with any of its letters in either case. */
  predicate CaseVariantOf(s: string, canonical: string) {
    |s| == |canonical| && forall i | 0 <= i < |s| :: s[i] == canonical[i] || s[i] == LowerChar(canonical[i])
  }

  lemma UpperCharMatches(x: char, y: char)
    requires IsUpperOrDigit(y)
    ensures UpperChar(x) == y <==> x == y || x == LowerChar(y)
  {
  }

  /** Upper-casing yields an all-capitals name exactly for its case variants. */
  lemma ToUpperMatches(s: string, canonical: string)
    requires forall i | 0 <= i < |canonical| :: IsUpperOrDigit(canonical[i])
    ensures ToUpperInvariant(s) == canonical <==> CaseVariantOf(s, canonical)
  {
    var u := ToUpperInvariant(s);
    if |s| == |canonical| {
      forall i | 0 <= i < |s|
        ensures u[i] == canonical[i] <==> s[i] == canonical[i] || s[i] == LowerChar(canonical[i])
      {
        UpperCharMatches(s[i], canonical[i]);
      }
      if CaseVariantOf(s, canonical) {
        assert forall i | 0 <= i < |s| :: u[i] == canonical[i];
      }
    }
  }

  // ---------- digest and Base64 ----------

  function DigestOf(alg: Algorithm, payload: string, h: Digests): seq<byte> {
    match alg
    case Sha256 => h.sha256(payload)
    case Sha512 => h.sha512(payload)
    case Md5 => h.md5(payload)
  }

  /** The length of the Base64 text of each digest. */
  function EncodedLength(alg: Algorithm): nat {
    match alg
    case Sha256 => 44
    case Sha512 => 88
    case Md5 => 24
  }

  /**
   * Generate{Sha256,Sha512,Md5}Token: the Base64 text of the digest.  Its
   * length is fixed by the algorithm, it ends in one ('=' for SHA-256) or two
   * ('==' for SHA-512 and MD5) padding characters, and apart from those
   * holds only alphabet characters, so never a ':'.
   */
  function HashPart(alg: Algorithm, payload: string, h: Digests): (hash: string)
    ensures |hash| == EncodedLength(alg)
    ensures forall i | 0 <= i < |hash| :: (hash[i] == '=') == (i >= |hash| - (if alg == Sha256 then 1 else 2))
    ensures forall i | 0 <= i < |hash| :: hash[i] != '=' ==> Base64.IsAlphabetChar(hash[i])
    ensures ':' !in hash
  {
    Base64.Encode(DigestOf(alg, payload, h))
  }

  // ---------- payload, timestamp and the token text ----------

  /** The expiry time in Unix seconds: now plus ExpiryMinutes (default 60) minutes. */
  function Timestamp(config: TokenConfig, now: UnixTime): (t: int)
    ensures config.expiryMinutes.None? ==> t == now + 3600
    ensures config.expiryMinutes.Some? ==> t == now + 60 * (config.expiryMinutes.value as int)
  {
    now + 60 * (config.expiryMinutes.GetOr(DefaultExpiryMinutes) as int)
  }

  predicate IsRepresentableDate(t: int) {
    MinUnixSeconds <= t <= MaxUnixSeconds
  }

  /**
   * The text that is hashed: the user id, password, secret and the
   * timestamp's decimal text, in that order, each pair separated by one
   * ':'.  It holds three ':' more than the user id, password and secret
   * hold together.
   */
  function Payload(userId: string, password: string, secret: string, timestamp: int): (p: string)
    ensures var ts := Decimal.IntToString(timestamp);
            |p| == |userId| + |password| + |secret| + |ts| + 3
    ensures var ts := Decimal.IntToString(timestamp);
            var afterUser, afterPassword := |userId| + 1, |userId| + |password| + 2;
            && p[..|userId|] == userId && p[|userId|] == ':'
            && p[afterUser..afterUser + |password|] == password && p[afterPassword - 1] == ':'
            && p[afterPassword..afterPassword + |secret|] == secret && p[|p| - |ts| - 1] == ':'
            && p[|p| - |ts|..] == ts
    ensures Count(p, ':') == Count(userId, ':') + Count(password, ':') + Count(secret, ':') + 3
  {
    var ts := Decimal.IntToString(timestamp);
    var a := userId + ":";
    var b := a + password + ":";
    var c := b + secret + ":";
    CountConcat(userId, ":", ':');
    CountConcat(a, password, ':');
    CountConcat(a + password, ":", ':');
    CountConcat(b, secret, ':');
    CountConcat(b + secret, ":", ':');
    CountConcat(c, ts, ':');
    CountAbsent(ts, ':');
    assert (c + ts)[..|userId|] == userId;
    assert (c + ts)[|a|..|a| + |password|] == password;
    assert (c + ts)[|b|..|b| + |secret|] == secret;
    c + ts
  }

  /**
   * The `{hash}:{timestamp}` form or the hash alone.  For a hash without
   * ':' (as every HashPart is), the timestamped token holds exactly one ':'
   * and splits back into the hash and the timestamp; the bare hash holds no
   * ':' and does not split.
   */
  function FormatToken(hash: string, timestamp: int, includeTimestamp: bool): (token: string)
    ensures ':' !in hash ==> Count(token, ':') == (if includeTimestamp then 1 else 0)
    ensures ':' !in hash ==> SplitToken(token) == (if includeTimestamp then Some((hash, timestamp)) else None)
    ensures !includeTimestamp ==> token == hash
  {
    if includeTimestamp then
      var t := hash + ":" + Decimal.IntToString(timestamp);
      if ':' in hash then t else JoinedTokenSplits(hash, timestamp); t
    else
      if ':' in hash then hash else CountAbsent(hash, ':'); hash
  }

  /**
   * GenerateToken.  The secret is checked before anything else is computed;
   * an expiry outside DateTime's range makes AddMinutes throw; otherwise the
   * token is the formatted hash of the payload.  Every failure reaches the
   * caller unchanged.
   */
  function GenerateToken(svc: TokenService, now: UnixTime, h: Digests): (r: Result<string, Exception>)
    ensures svc.config.secret.None? ==> r == Err(InvalidOperationException(SecretRequired))
    ensures svc.config.secret.Some? && !IsRepresentableDate(Timestamp(svc.config, now)) ==>
              r == Err(ArgumentOutOfRangeException(DateOutOfRange))
    ensures r.Ok? <==> svc.config.secret.Some? && IsRepresentableDate(Timestamp(svc.config, now))
    ensures r.Ok? ==>
              var ts := Timestamp(svc.config, now);
              var payload := Payload(svc.userId, svc.password, svc.config.secret.value, ts);
              r.value == FormatToken(HashPart(SelectAlgorithm(svc.config.algorithm), payload, h), ts,
                                     svc.config.includeTimestamp.GetOr(true))
  {
    var algorithmName := svc.config.algorithm.GetOr(DefaultAlgorithmName);
    match svc.config.secret
    case None => Err(InvalidOperationException(SecretRequired))
    case Some(secret) =>
      var minutes := svc.config.expiryMinutes.GetOr(DefaultExpiryMinutes);
      var expiry := now + 60 * (minutes as int);
      if !IsRepresentableDate(expiry) then Err(ArgumentOutOfRangeException(DateOutOfRange))
      else
        var payload := Payload(svc.userId, svc.password, secret, expiry);
        var token := HashPart(SelectAlgorithm(Some(algorithmName)), payload, h);
        Ok(if svc.config.includeTimestamp.GetOr(true) then token + ":" + Decimal.IntToString(expiry) else token)
  }

  // ---------- reading a token back ----------

  /** The number of occurrences of c in s. */
  function Count(s: string, c: char): nat
    decreases |s|
  {
    if |s| == 0 then 0 else (if s[0] == c then 1 else 0) + Count(s[1..], c)
  }

  lemma {:induction false} CountConcat(a: string, b: string, c: char)
    ensures Count(a + b, c) == Count(a, c) + Count(b, c)
    decreases |a|
  {
    if |a| == 0 {
      assert a + b == b;
    } else {
      assert (a + b)[1..] == a[1..] + b;
      CountConcat(a[1..], b, c);
    }
  }

  lemma {:induction false} CountAbsent(s: string, c: char)
    requires c !in s
    ensures Count(s, c) == 0
    decreases |s|
  {
    if |s| > 0 {
      assert c !in s[1..];
      CountAbsent(s[1..], c);
    }
  }

  /** The position of the first c in s. */
  function IndexOf(s: string, c: char): (r: Option<nat>)
    ensures r.None? <==> c !in s
    ensures r.Some? ==> r.value < |s| && s[r.value] == c && c !in s[..r.value]
    decreases |s|
  {
    if |s| == 0 then None
    else if s[0] == c then Some(0)
    else match IndexOf(s[1..], c)
      case None => None
      case Some(k) => Some(k + 1)
  }

  /** Splits "hash:timestamp" at its first ':'; None when there is no ':' or no number after it. */
  function SplitToken(token: string): Option<(string, int)> {
    match IndexOf(token, ':')
    case None => None
    case Some(k) =>
      match Decimal.ParseInt(token[k + 1..])
      case None => None
      case Some(n) => Some((token[..k], n))
  }

  /** "hash:timestamp" holds one ':' and splits at it, for a hash without ':'. */
  lemma JoinedTokenSplits(hash: string, timestamp: int)
    requires ':' !in hash
    ensures Count(hash + ":" + Decimal.IntToString(timestamp), ':') == 1
    ensures SplitToken(hash + ":" + Decimal.IntToString(timestamp)) == Some((hash, timestamp))
  {
    var digits := Decimal.IntToString(timestamp);
    var t := hash + ":" + digits;
    CountConcat(hash + ":", digits, ':');
    CountConcat(hash, ":", ':');
    CountAbsent(hash, ':');
    CountAbsent(digits, ':');
    assert t[..|hash|] == hash && t[|hash|] == ':';
    assert IndexOf(t, ':') == Some(|hash|);
    assert t[|hash| + 1..] == digits;
    Decimal.ParseIntToString(timestamp);
  }

  /**
   * What a generated token looks like: with the timestamp flag (the
   * default) it is HASH:TIMESTAMP with one ':', splitting back into the
   * Base64 digest of the payload and the expiry time; without it, it is the
   * hash alone.
   */
  lemma GeneratedTokenShape(svc: TokenService, now: UnixTime, h: Digests)
    requires GenerateToken(svc, now, h).Ok?
    ensures var token := GenerateToken(svc, now, h).value;
            var ts := Timestamp(svc.config, now);
            var alg := SelectAlgorithm(svc.config.algorithm);
            var hash := HashPart(alg, Payload(svc.userId, svc.password, svc.config.secret.value, ts), h);
            && |hash| == EncodedLength(alg)
            && (svc.config.includeTimestamp.GetOr(true) ==>
                  Count(token, ':') == 1 && SplitToken(token) == Some((hash, ts)))
            && (!svc.config.includeTimestamp.GetOr(true) ==> token == hash && Count(token, ':') == 0)
  {
    var ts := Timestamp(svc.config, now);
    var alg := SelectAlgorithm(svc.config.algorithm);
    var hash := HashPart(alg, Payload(svc.userId, svc.password, svc.config.secret.value, ts), h);
    assert ':' !in hash;
  }

  /**
   * The token is a function of the user id, password, secret, expiry
   * timestamp, selected algorithm and timestamp flag alone: how the expiry
   * was reached and how the algorithm name was capitalised do not matter.
   */
  lemma TokenDeterminedByInputs(s1: TokenService, now1: UnixTime, s2: TokenService, now2: UnixTime, h: Digests)
    requires s1.userId == s2.userId && s1.password == s2.password && s1.config.secret == s2.config.secret
    requires Timestamp(s1.config, now1) == Timestamp(s2.config, now2)
    requires SelectAlgorithm(s1.config.algorithm) == SelectAlgorithm(s2.config.algorithm)
    requires s1.config.includeTimestamp.GetOr(true) == s2.config.includeTimestamp.GetOr(true)
    ensures GenerateToken(s1, now1, h) == GenerateToken(s2, now2, h)
  {
  }
}

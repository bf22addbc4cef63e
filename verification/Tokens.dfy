/** Compact signed tokens (packages/acip_auth/tokens.py). HMAC-SHA256 and the
    JSON text are parameters; base64url and the token layout are spelled out. */
module Tokens {
  import opened Wrappers

  type Byte = n: int | 0 <= n < 256

  // ---- base64url, sections 4 and 5 of RFC 4648 ---------------------------------------

  function Symbol(v: nat): char
    requires v < 64
  {
    if v < 26 then 'A' + v as char
    else if v < 52 then 'a' + (v - 26) as char
    else if v < 62 then '0' + (v - 52) as char
    else if v == 62 then '-' else '_'
  }

  function Value(c: char): Option<Sextet> {
    if 'A' <= c <= 'Z' then Some(c as int - 'A' as int)
    else if 'a' <= c <= 'z' then Some(c as int - 'a' as int + 26)
    else if '0' <= c <= '9' then Some(c as int - '0' as int + 52)
    else if c == '-' then Some(62)
    else if c == '_' then Some(63)
    else None
  }

  lemma SymbolValue(v: nat)
    requires v < 64
    ensures Value(Symbol(v)) == Some(v)
    ensures Symbol(v) != '=' && Symbol(v) != '.'
  {
  }

  type Sextet = n: nat | n < 64

  // the four sextets of the bytes a, b, c, and the way back

  function S0(a: Byte): Sextet { a / 4 }
  function S1(a: Byte, b: Byte): Sextet { a % 4 * 16 + b / 16 }
  function S2(b: Byte, c: Byte): Sextet { b % 16 * 4 + c / 64 }
  function S3(c: Byte): Sextet { c % 64 }

  function B0(w: Sextet, x: Sextet): Byte { w * 4 + x / 16 }
  function B1(x: Sextet, y: Sextet): Byte { x % 16 * 16 + y / 4 }
  function B2(y: Sextet, z: Sextet): Byte { y % 4 * 64 + z }

  lemma Regrouped(a: Byte, b: Byte, c: Byte)
    ensures B0(S0(a), S1(a, b)) == a
    ensures B1(S1(a, b), S2(b, c)) == b
    ensures B2(S2(b, c), S3(c)) == c
  {
  }

  function Quad(w: Sextet, x: Sextet, y: Sextet, z: Sextet): string {
    [Symbol(w), Symbol(x), Symbol(y), Symbol(z)]
  }

  /** `base64.urlsafe_b64encode`. */
  function EncodePadded(b: seq<Byte>): string {
    if |b| == 0 then ""
    else if |b| == 1 then [Symbol(S0(b[0])), Symbol(S1(b[0], 0)), '=', '=']
    else if |b| == 2 then [Symbol(S0(b[0])), Symbol(S1(b[0], b[1])), Symbol(S2(b[1], 0)), '=']
    else Quad(S0(b[0]), S1(b[0], b[1]), S2(b[1], b[2]), S3(b[2])) + EncodePadded(b[3..])
  }

  /** `base64.urlsafe_b64decode` on alphabet characters and final padding. */
  function DecodePadded(s: string): Option<seq<Byte>> {
    if |s| == 0 then Some([])
    else if |s| < 4 || Value(s[0]).None? || Value(s[1]).None? then None
    else
      var w, x := Value(s[0]).value, Value(s[1]).value;
      if |s| == 4 && s[2] == '=' && s[3] == '=' then Some([B0(w, x)])
      else if Value(s[2]).None? then None
      else
        var y := Value(s[2]).value;
        if |s| == 4 && s[3] == '=' then Some([B0(w, x), B1(x, y)])
        else if Value(s[3]).None? then None
        else
          var z := Value(s[3]).value;
          var rest := DecodePadded(s[4..]);
          if rest.None? then None
          else Some([B0(w, x), B1(x, y), B2(y, z)] + rest.value)
  }

  /** `text.rstrip("=")`. */
  function StripPadding(s: string): string {
    if s == "" || s[|s| - 1] != '=' then s else StripPadding(s[..|s| - 1])
  }

  function Padding(n: nat): string {
    if n == 0 then "" else Padding(n - 1) + "="
  }

  function B64Url(raw: seq<Byte>): string {
    StripPadding(EncodePadded(raw))
  }

  /** `-len(text) % 4`. */
  function PadLength(length: nat): nat {
    (-(length as int)) % 4
  }

  function B64UrlDecode(text: string): Option<seq<Byte>> {
    DecodePadded(text + Padding(PadLength(|text|)))
  }

  lemma QuadDecodes(w: Sextet, x: Sextet, y: Sextet, z: Sextet, t: string)
    requires DecodePadded(t).Some?
    ensures DecodePadded(Quad(w, x, y, z) + t) == Some([B0(w, x), B1(x, y), B2(y, z)] + DecodePadded(t).value)
  {
    SymbolValue(w); SymbolValue(x); SymbolValue(y); SymbolValue(z);
    var s := Quad(w, x, y, z) + t;
    assert s[0] == Symbol(w) && s[1] == Symbol(x) && s[2] == Symbol(y) && s[3] == Symbol(z) && s[4..] == t;
  }

  lemma TailsDecode(w: Sextet, x: Sextet, y: Sextet)
    ensures DecodePadded([Symbol(w), Symbol(x), '=', '=']) == Some([B0(w, x)])
    ensures DecodePadded([Symbol(w), Symbol(x), Symbol(y), '=']) == Some([B0(w, x), B1(x, y)])
  {
    SymbolValue(w); SymbolValue(x); SymbolValue(y);
  }

  lemma OneByte(a: Byte)
    ensures DecodePadded(EncodePadded([a])) == Some([a])
  {
  }

  lemma TwoBytes(a: Byte, b: Byte)
    ensures DecodePadded(EncodePadded([a, b])) == Some([a, b])
  {
    TailsDecode(S0(a), S1(a, b), S2(b, 0));
    Regrouped(a, b, 0);
  }

  lemma ThreeBytes(a: Byte, b: Byte, c: Byte, rest: seq<Byte>)
    requires DecodePadded(EncodePadded(rest)) == Some(rest)
    ensures DecodePadded(EncodePadded([a, b, c] + rest)) == Some([a, b, c] + rest)
  {
    QuadDecodes(S0(a), S1(a, b), S2(b, c), S3(c), EncodePadded(rest));
    Regrouped(a, b, c);
    assert ([a, b, c] + rest)[3..] == rest;
  }

  lemma {:induction false} PaddedRoundTrip(b: seq<Byte>)
    ensures DecodePadded(EncodePadded(b)) == Some(b)
  {
    if |b| == 1 {
      assert b == [b[0]];
      OneByte(b[0]);
    } else if |b| == 2 {
      assert b == [b[0], b[1]];
      TwoBytes(b[0], b[1]);
    } else if |b| >= 3 {
      PaddedRoundTrip(b[3..]);
      ThreeBytes(b[0], b[1], b[2], b[3..]);
      assert b == [b[0], b[1], b[2]] + b[3..];
    }
  }

  lemma PaddingUnfolds()
    ensures Padding(0) == "" && Padding(1) == "=" && Padding(2) == "=="
  {
  }

  /** The padded text is a run of alphabet symbols, then fewer than three '='. */
  lemma {:induction false} PaddedShape(b: seq<Byte>) returns (core: string, n: nat, quads: nat)
    ensures EncodePadded(b) == core + Padding(n) && n < 3
    ensures '=' !in core && '.' !in core
    ensures |core| + n == 4 * quads
  {
    PaddingUnfolds();
    if |b| == 0 {
      core, n, quads := "", 0, 0;
    } else if |b| == 1 {
      SymbolValue(S0(b[0]));
      SymbolValue(S1(b[0], 0));
      core, n, quads := [Symbol(S0(b[0])), Symbol(S1(b[0], 0))], 2, 1;
    } else if |b| == 2 {
      SymbolValue(S0(b[0]));
      SymbolValue(S1(b[0], b[1]));
      SymbolValue(S2(b[1], 0));
      core, n, quads := [Symbol(S0(b[0])), Symbol(S1(b[0], b[1])), Symbol(S2(b[1], 0))], 1, 1;
    } else {
      var w, x, y, z := S0(b[0]), S1(b[0], b[1]), S2(b[1], b[2]), S3(b[2]);
      SymbolValue(w); SymbolValue(x); SymbolValue(y); SymbolValue(z);
      var tail;
      tail, n, quads := PaddedShape(b[3..]);
      core, quads := Quad(w, x, y, z) + tail, quads + 1;
      assert core + Padding(n) == Quad(w, x, y, z) + (tail + Padding(n));
    }
  }

  lemma {:induction false} StripRemovesPadding(core: string, n: nat)
    requires '=' !in core
    ensures StripPadding(core + Padding(n)) == core
  {
    if n == 0 {
      assert core + Padding(0) == core;
    } else {
      var s := core + Padding(n);
      assert s[..|s| - 1] == core + Padding(n - 1);
      StripRemovesPadding(core, n - 1);
    }
  }

  lemma PadCount(length: nat, n: nat, quads: nat)
    requires length + n == 4 * quads && n < 4
    ensures PadLength(length) == n
  {
  }

  lemma B64UrlShape(raw: seq<Byte>)
    ensures '=' !in B64Url(raw) && '.' !in B64Url(raw)
    ensures B64Url(raw) + Padding(PadLength(|B64Url(raw)|)) == EncodePadded(raw)
  {
    var core, n, quads := PaddedShape(raw);
    StripRemovesPadding(core, n);
    assert B64Url(raw) == core;
    PadCount(|core|, n, quads);
  }

  /** Unpadded base64url loses nothing, for every byte string. */
  lemma B64UrlRoundTrip(raw: seq<Byte>)
    ensures B64UrlDecode(B64Url(raw)) == Some(raw)
  {
    B64UrlShape(raw);
    PaddedRoundTrip(raw);
  }

  // ---- the token, section 7.1 of RFC 7515 ----------------------------------------------

  datatype Claims = Claims(iss: Option<string>, exp: Option<int>, rest: map<string, string>)

  datatype TokenError = NoSecret | Malformed | BadSignature | Undecodable | Expired | WrongIssuer

  datatype Result<T> = Ok(value: T) | Err(error: TokenError)

  /** What the code calls into: JSON text of claims, and HMAC of a text. */
  datatype Crypto = Crypto(
    header: seq<Byte>,
    dumps: Claims -> seq<Byte>,
    loads: seq<Byte> -> Option<Claims>,
    mac: (string, string) -> seq<Byte>)

  ghost predicate Faithful(c: Crypto) {
    forall p: Claims :: c.loads(c.dumps(p)) == Some(p)
  }

  const ISSUER := "acip-auth"

  function Sign(c: Crypto, input: string, secret: string): string {
    B64Url(c.mac(secret, input))
  }

  function SigningInput(c: Crypto, payload: Claims): string {
    B64Url(c.header) + "." + B64Url(c.dumps(payload))
  }

  function Encode(c: Crypto, payload: Claims, secret: string): Result<string> {
    if secret == "" then Err(NoSecret)
    else Ok(SigningInput(c, payload) + "." + Sign(c, SigningInput(c, payload), secret))
  }

  /** `token.split(".")`. */
  function Split(s: string): (parts: seq<string>)
    ensures |parts| >= 1
  {
    if s == "" then [""]
    else
      var rest := Split(s[1..]);
      if s[0] == '.' then [""] + rest else [[s[0]] + rest[0]] + rest[1..]
  }

  function Decode(c: Crypto, token: string, secret: string, now: int): Result<Claims> {
    if secret == "" then Err(NoSecret)
    else
      var parts := Split(token);
      if |parts| != 3 then Err(Malformed)
      else if Sign(c, parts[0] + "." + parts[1], secret) != parts[2] then Err(BadSignature)
      else
        var raw := B64UrlDecode(parts[1]);
        var claims := if raw.None? then None else c.loads(raw.value);
        if claims.None? then Err(Undecodable)
        else if claims.value.exp.None? || now >= claims.value.exp.value then Err(Expired)
        else if claims.value.iss != Some(ISSUER) then Err(WrongIssuer)
        else Ok(claims.value)
  }

  lemma {:induction false} SplitFirst(a: string, b: string)
    requires '.' !in a
    ensures Split(a + ("." + b)) == [a] + Split(b)
    ensures Split(a) == [a]
  {
    if a == "" {
      assert a + ("." + b) == "." + b && ("." + b)[1..] == b;
    } else {
      assert (a + ("." + b))[1..] == a[1..] + ("." + b);
      SplitFirst(a[1..], b);
      assert a == [a[0]] + a[1..];
    }
  }

  /** `".".join(parts)`. */
  function Join(parts: seq<string>): string
    requires parts != []
  {
    if |parts| == 1 then parts[0] else parts[0] + ("." + Join(parts[1..]))
  }

  lemma JoinPrepends(c: char, parts: seq<string>)
    requires parts != []
    ensures Join([[c] + parts[0]] + parts[1..]) == [c] + Join(parts)
  {
  }

  lemma {:induction false} SplitJoins(s: string)
    ensures Join(Split(s)) == s
  {
    if s != "" {
      var rest := Split(s[1..]);
      SplitJoins(s[1..]);
      assert s == [s[0]] + s[1..];
      if s[0] == '.' {
        assert Split(s)[1..] == rest;
      } else {
        JoinPrepends(s[0], rest);
      }
    }
  }

  /** A minted token splits into exactly its three segments. */
  lemma MintedSplits(c: Crypto, payload: Claims, secret: string)
    requires secret != ""
    ensures Split(Encode(c, payload, secret).value)
         == [B64Url(c.header), B64Url(c.dumps(payload)), Sign(c, SigningInput(c, payload), secret)]
  {
    var h, p, g := B64Url(c.header), B64Url(c.dumps(payload)), Sign(c, SigningInput(c, payload), secret);
    B64UrlShape(c.header);
    B64UrlShape(c.dumps(payload));
    B64UrlShape(c.mac(secret, SigningInput(c, payload)));
    ThreeSegments(h, p, g);
  }

  lemma ThreeSegments(h: string, p: string, g: string)
    requires '.' !in h && '.' !in p && '.' !in g
    ensures Split(h + "." + p + "." + g) == [h, p, g]
  {
    assert h + "." + p + "." + g == h + ("." + (p + ("." + g)));
    SplitFirst(h, p + ("." + g));
    SplitFirst(p, g);
    SplitFirst(g, "");
  }

  /** Decoding a minted token gives its claims back exactly while it is unexpired
      and carries the issuer; otherwise it names the first of the two that fails. */
  lemma MintedTokenDecodes(c: Crypto, payload: Claims, secret: string, now: int)
    requires Faithful(c) && secret != ""
    ensures Encode(c, payload, secret).Ok?
    ensures var r := Decode(c, Encode(c, payload, secret).value, secret, now);
            var live := payload.exp.Some? && now < payload.exp.value;
            && (r == Ok(payload) <==> live && payload.iss == Some(ISSUER))
            && (r == Err(Expired) <==> !live)
            && (r == Err(WrongIssuer) <==> live && payload.iss != Some(ISSUER))
  {
    MintedSplits(c, payload, secret);
    B64UrlRoundTrip(c.dumps(payload));
  }

  /** Another secret is refused exactly when it signs the token differently. */
  lemma OtherSecretRefused(c: Crypto, payload: Claims, secret: string, other: string, now: int)
    requires secret != "" && other != ""
    ensures Decode(c, Encode(c, payload, secret).value, other, now) == Err(BadSignature)
       <==> c.mac(other, SigningInput(c, payload)) != c.mac(secret, SigningInput(c, payload))
  {
    MintedSplits(c, payload, secret);
    B64UrlRoundTrip(c.mac(other, SigningInput(c, payload)));
    B64UrlRoundTrip(c.mac(secret, SigningInput(c, payload)));
  }

  lemma SegmentsJoin(token: string)
    requires |Split(token)| == 3
    ensures var parts := Split(token); token == parts[0] + "." + parts[1] + "." + parts[2]
  {
    var parts := Split(token);
    SplitJoins(token);
    assert Join(parts[1..]) == parts[1] + ("." + parts[2]);
  }

  /** Whatever is accepted was signed as presented: the text is its first two
      segments and their signature, and the claims are live and ours. */
  lemma AcceptedIsAuthentic(c: Crypto, token: string, secret: string, now: int)
    requires Decode(c, token, secret, now).Ok?
    ensures exists header: string, payload: string ::
              && token == header + "." + payload + "." + Sign(c, header + "." + payload, secret)
              && B64UrlDecode(payload).Some?
              && c.loads(B64UrlDecode(payload).value) == Some(Decode(c, token, secret, now).value)
    ensures var claims := Decode(c, token, secret, now).value;
            claims.iss == Some(ISSUER) && claims.exp.Some? && now < claims.exp.value
  {
    SegmentsJoin(token);
  }
}

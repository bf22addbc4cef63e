/** Keys of the exact-match cache (packages/acip_cache/l1.py). Letters are folded
    in the ASCII range only. */
module CacheKeys {

  /** The characters Python's `split` and `strip` treat as blank. */
  predicate IsSpace(c: char) {
    || '\t' <= c <= '\r' || '\U{1C}' <= c <= ' ' || c == '\U{85}' || c == '\U{A0}' || c == '\U{1680}'
    || '\U{2000}' <= c <= '\U{200A}' || c == '\U{2028}' || c == '\U{2029}' || c == '\U{202F}' || c == '\U{205F}'
    || c == '\U{3000}'
  }

  /** The unit separator between the parts of a hashed key. */
  const SEP: char := '\U{1F}'

  function LowerChar(c: char): char {
    if 'A' <= c <= 'Z' then c - 'A' + 'a' else c
  }

  function Lower(s: string): string {
    if s == "" then "" else [LowerChar(s[0])] + Lower(s[1..])
  }

  function StripLeft(s: string): string {
    if s != "" && IsSpace(s[0]) then StripLeft(s[1..]) else s
  }

  function StripRight(s: string): string {
    if s != "" && IsSpace(s[|s| - 1]) then StripRight(s[..|s| - 1]) else s
  }

  predicate Spaceless(s: string) {
    forall c :: c in s ==> !IsSpace(c)
  }

  function WordEnd(s: string): (n: nat)
    ensures n <= |s| && Spaceless(s[..n]) && (n < |s| ==> IsSpace(s[n]))
    ensures s != "" && !IsSpace(s[0]) ==> n > 0
  {
    if s == "" || IsSpace(s[0]) then 0
    else
      var n := WordEnd(s[1..]);
      assert s[..n + 1] == [s[0]] + s[1..][..n];
      n + 1
  }

  /** Python's `split()`: the maximal runs of non-blank characters. */
  function Words(s: string): seq<string>
    decreases |s|
  {
    if s == "" then []
    else if IsSpace(s[0]) then Words(s[1..])
    else [s[..WordEnd(s)]] + Words(s[WordEnd(s)..])
  }

  function Join(ws: seq<string>): string {
    if ws == [] then "" else if |ws| == 1 then ws[0] else ws[0] + " " + Join(ws[1..])
  }

  function Normalize(text: string): string {
    Join(Words(Lower(StripRight(StripLeft(text)))))
  }

  predicate AreWords(ws: seq<string>) {
    forall w :: w in ws ==> w != "" && Spaceless(w)
  }

  lemma {:induction false} WordsAreWords(s: string)
    ensures AreWords(Words(s))
    decreases |s|
  {
    if s != "" {
      if IsSpace(s[0]) {
        WordsAreWords(s[1..]);
      } else {
        WordsAreWords(s[WordEnd(s)..]);
      }
    }
  }

  /** A word in front of blank text, or of nothing, is split off whole. */
  lemma {:induction false} WordThenRest(w: string, rest: string)
    requires w != "" && Spaceless(w) && (rest == "" || IsSpace(rest[0]))
    ensures WordEnd(w + rest) == |w|
    ensures Words(w + rest) == [w] + Words(rest)
  {
    WordEndAtBlank(w, rest);
    var s := w + rest;
    assert s[0] == w[0] && w[0] in w;
    assert s[..|w|] == w && s[|w|..] == rest;
  }

  lemma {:induction false} WordEndAtBlank(w: string, rest: string)
    requires Spaceless(w) && (rest == "" || IsSpace(rest[0]))
    ensures WordEnd(w + rest) == |w|
  {
    if w == "" {
      assert w + rest == rest;
    } else {
      assert w[0] in w;
      WordEndAtBlank(w[1..], rest);
      assert (w + rest)[1..] == w[1..] + rest;
    }
  }

  lemma {:induction false} WordsOfJoin(ws: seq<string>)
    requires AreWords(ws)
    ensures Words(Join(ws)) == ws
  {
    assert ws != [] ==> ws[0] in ws;
    if |ws| == 1 {
      WordThenRest(ws[0], "");
      assert ws[0] + "" == ws[0] && Words("") == [];
    } else if |ws| > 1 {
      WordsOfJoin(ws[1..]);
      var rest := " " + Join(ws[1..]);
      assert ws[0] + " " + Join(ws[1..]) == ws[0] + rest && rest[1..] == Join(ws[1..]);
      WordThenRest(ws[0], rest);
    }
  }

  lemma {:induction false} JoinCharacters(ws: seq<string>, c: char)
    requires AreWords(ws) && IsSpace(c) && c != ' '
    ensures c !in Join(ws)
  {
    if ws != [] {
      assert ws[0] in ws;
      JoinCharacters(ws[1..], c);
    }
  }

  // ---- what normalising keeps -----------------------------------------------------------------

  lemma {:induction false} LowerKeeps(s: string)
    ensures |Lower(s)| == |s| && forall i :: 0 <= i < |s| ==> Lower(s)[i] == LowerChar(s[i])
  {
    if s != "" {
      LowerKeeps(s[1..]);
    }
  }

  lemma LowerTwice(s: string)
    ensures Lower(Lower(s)) == Lower(s)
  {
  }

  lemma {:induction false} StripLeftKeepsWords(s: string)
    ensures Words(StripLeft(s)) == Words(s)
  {
    if s != "" && IsSpace(s[0]) {
      StripLeftKeepsWords(s[1..]);
    }
  }

  /** A blank at the end adds no word. */
  lemma {:induction false} BlankAtEnd(s: string, c: char)
    requires IsSpace(c)
    ensures Words(s + [c]) == Words(s)
    decreases |s|
  {
    if s == "" {
      assert Words([c][1..]) == [];
      assert s + [c] == [c];
    } else if IsSpace(s[0]) {
      BlankAtEnd(s[1..], c);
      assert (s + [c])[1..] == s[1..] + [c];
    } else {
      var n := WordEnd(s);
      assert s == s[..n] + s[n..] && s + [c] == s[..n] + (s[n..] + [c]);
      BlankAtEnd(s[n..], c);
      WordThenRest(s[..n], s[n..]);
      WordThenRest(s[..n], s[n..] + [c]);
    }
  }

  lemma {:induction false} StripRightKeepsWords(s: string)
    ensures Words(StripRight(s)) == Words(s)
  {
    if s != "" && IsSpace(s[|s| - 1]) {
      StripRightKeepsWords(s[..|s| - 1]);
      BlankAtEnd(s[..|s| - 1], s[|s| - 1]);
      assert s == s[..|s| - 1] + [s[|s| - 1]];
    }
  }

  lemma {:induction false} LowerConcat(a: string, b: string)
    ensures Lower(a + b) == Lower(a) + Lower(b)
  {
    LowerKeeps(a);
    LowerKeeps(b);
    LowerKeeps(a + b);
  }

  lemma {:induction false} LowerStripLeft(s: string)
    ensures Lower(StripLeft(s)) == StripLeft(Lower(s))
  {
    if s != "" {
      assert IsSpace(LowerChar(s[0])) <==> IsSpace(s[0]);
      LowerStripLeft(s[1..]);
      assert Lower(s)[1..] == Lower(s[1..]);
    }
  }

  lemma {:induction false} LowerStripRight(s: string)
    ensures Lower(StripRight(s)) == StripRight(Lower(s))
  {
    if s != "" {
      var init, last := s[..|s| - 1], s[|s| - 1];
      assert s == init + [last] && Lower([last]) == [LowerChar(last)];
      LowerConcat(init, [last]);
      LowerStripRight(init);
    }
  }

  /** Stripping first changes nothing: the words of the folded text decide. */
  lemma NormalizeIsJoinedWords(text: string)
    ensures Normalize(text) == Join(Words(Lower(text)))
  {
    LowerStripLeft(text);
    LowerStripRight(StripLeft(text));
    StripRightKeepsWords(StripLeft(Lower(text)));
    StripLeftKeepsWords(Lower(text));
  }

  /** Two questions share a cache entry exactly when they have the same words up to
      letter case. */
  lemma SameKeyTextIffSameWords(s: string, t: string)
    ensures Normalize(s) == Normalize(t) <==> Words(Lower(s)) == Words(Lower(t))
  {
    NormalizeIsJoinedWords(s);
    NormalizeIsJoinedWords(t);
    WordsAreWords(Lower(s));
    WordsAreWords(Lower(t));
    WordsOfJoin(Words(Lower(s)));
    WordsOfJoin(Words(Lower(t)));
  }

  predicate Folded(s: string) {
    Lower(s) == s
  }

  lemma {:induction false} JoinOfFolded(ws: seq<string>)
    requires forall w :: w in ws ==> Folded(w)
    ensures Folded(Join(ws))
  {
    assert ws != [] ==> ws[0] in ws;
    if |ws| > 1 {
      assert Lower(" ") == " ";
      JoinOfFolded(ws[1..]);
      LowerConcat(ws[0] + " ", Join(ws[1..]));
      LowerConcat(ws[0], " ");
    }
  }

  lemma {:induction false} WordsOfFolded(s: string)
    requires Folded(s)
    ensures forall w :: w in Words(s) ==> Folded(w)
    decreases |s|
  {
    if s != "" {
      var n := if IsSpace(s[0]) then 1 else WordEnd(s);
      assert s == s[..n] + s[n..];
      LowerConcat(s[..n], s[n..]);
      LowerKeeps(s[..n]);
      assert Lower(s[..n]) == s[..n] && Lower(s[n..]) == s[n..];
      WordsOfFolded(s[n..]);
    }
  }

  lemma NormalizeTwice(text: string)
    ensures Normalize(Normalize(text)) == Normalize(text)
  {
    var ws := Words(Lower(text));
    NormalizeIsJoinedWords(text);
    NormalizeIsJoinedWords(Join(ws));
    LowerTwice(text);
    WordsOfFolded(Lower(text));
    JoinOfFolded(ws);
    WordsAreWords(Lower(text));
    WordsOfJoin(ws);
  }

  // ---- keys ---------------------------------------------------------------------------------

  function Decimal(n: nat): string {
    if n < 10 then [n as char + '0'] else Decimal(n / 10) + [(n % 10) as char + '0']
  }

  lemma {:induction false} DecimalInjective(m: nat, n: nat)
    ensures Decimal(m) == Decimal(n) <==> m == n
    ensures SEP !in Decimal(m)
  {
    DecimalDigits(m);
    if m >= 10 && n >= 10 {
      DecimalInjective(m / 10, n / 10);
      assert Decimal(m)[..|Decimal(m)| - 1] == Decimal(m / 10) && Decimal(n)[..|Decimal(n)| - 1] == Decimal(n / 10);
    } else if m >= 10 {
      DecimalDigits(m / 10);
    } else if n >= 10 {
      DecimalDigits(n / 10);
    }
  }

  lemma {:induction false} DecimalDigits(n: nat)
    ensures |Decimal(n)| >= 1 && forall c :: c in Decimal(n) ==> '0' <= c <= '9'
  {
    if n >= 10 {
      DecimalDigits(n / 10);
    }
  }

  function Hashed(tenant: string, text: string, version: nat): string {
    tenant + [SEP] + Normalize(text) + [SEP] + Decimal(version)
  }

  function CacheKey(digest: string -> string, tenant: string, text: string, version: nat): string {
    "l1:" + tenant + ":" + digest(Hashed(tenant, text, version))
  }

  /** The part after the last separator determines the split. */
  lemma {:induction false} LastField(a: string, x: string, b: string, y: string)
    requires SEP !in x && SEP !in y
    ensures a + [SEP] + x == b + [SEP] + y <==> a == b && x == y
  {
    var s, t := a + [SEP] + x, b + [SEP] + y;
    if x == "" || y == "" {
      assert s[|s| - 1] == if x == "" then SEP else x[|x| - 1];
      assert t[|t| - 1] == if y == "" then SEP else y[|y| - 1];
      assert x == "" ==> s[..|s| - 1] == a;
      assert y == "" ==> t[..|t| - 1] == b;
    } else {
      var x', y' := x[..|x| - 1], y[..|y| - 1];
      LastField(a, x', b, y');
      assert s == a + [SEP] + x' + [x[|x| - 1]] && t == b + [SEP] + y' + [y[|y| - 1]];
      assert s[..|s| - 1] == a + [SEP] + x' && t[..|t| - 1] == b + [SEP] + y';
    }
  }

  /** A normalised text never holds the separator, so what is hashed determines the
      tenant, the words and the data version, whatever the tenant id. */
  lemma HashedInjective(t: string, q: string, m: nat, u: string, r: string, n: nat)
    ensures Hashed(t, q, m) == Hashed(u, r, n) <==> t == u && Normalize(q) == Normalize(r) && m == n
  {
    NormalizedHasNoSeparator(q);
    NormalizedHasNoSeparator(r);
    DecimalInjective(m, n);
    DecimalInjective(n, m);
    LastField(t + [SEP] + Normalize(q), Decimal(m), u + [SEP] + Normalize(r), Decimal(n));
    LastField(t, Normalize(q), u, Normalize(r));
  }

  lemma NormalizedHasNoSeparator(text: string)
    ensures SEP !in Normalize(text)
  {
    NormalizeIsJoinedWords(text);
    WordsAreWords(Lower(text));
    JoinCharacters(Words(Lower(text)), SEP);
  }

  /** Unless the digest collides on these two inputs, two cache keys are the same
      exactly when tenant, words and data version are. */
  lemma CacheKeyInjective(digest: string -> string, t: string, q: string, m: nat, u: string, r: string, n: nat)
    requires |digest(Hashed(t, q, m))| == |digest(Hashed(u, r, n))|
    requires digest(Hashed(t, q, m)) == digest(Hashed(u, r, n)) ==> Hashed(t, q, m) == Hashed(u, r, n)
    ensures CacheKey(digest, t, q, m) == CacheKey(digest, u, r, n) <==> t == u && Normalize(q) == Normalize(r) && m == n
  {
    HashedInjective(t, q, m, u, r, n);
    var d, e := digest(Hashed(t, q, m)), digest(Hashed(u, r, n));
    SameTail("l1:" + t + ":", d, "l1:" + u + ":", e);
  }

  lemma SameTail(a: string, d: string, b: string, e: string)
    requires |d| == |e|
    ensures a + d == b + e ==> d == e
  {
    assert d == (a + d)[|a + d| - |d|..] && e == (b + e)[|b + e| - |e|..];
  }
}

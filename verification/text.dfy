/**
 The string normalisation applied to every query before matching:
 `String.prototype.toLowerCase` followed by `String.prototype.trim`.
 */
module Text {

  /** The code points ECMAScript's `trim` strips: WhiteSpace and LineTerminator. */
  predicate IsJsWhitespace(c: char) {
    || c == '\t' || c == '\n' || c == '\U{000B}' || c == '\U{000C}' || c == '\r' || c == ' '
    || c == '\U{00A0}' || c == '\U{1680}' || ('\U{2000}' <= c <= '\U{200A}')
    || c == '\U{2028}' || c == '\U{2029}' || c == '\U{202F}' || c == '\U{205F}'
    || c == '\U{3000}' || c == '\U{FEFF}'
  }

  predicate AllWhitespace(s: string) {
    forall i :: 0 <= i < |s| ==> IsJsWhitespace(s[i])
  }

  /** Neither end of `s` is whitespace: `s` is what `trim` leaves. */
  predicate Trimmed(s: string) {
    |s| == 0 || (!IsJsWhitespace(s[0]) && !IsJsWhitespace(s[|s| - 1]))
  }

  predicate IsUpper(c: char) {
    'A' <= c <= 'Z'
  }

  function LowerChar(c: char): (r: char)
    ensures !IsUpper(r)
    ensures IsJsWhitespace(r) <==> IsJsWhitespace(c)
    ensures !IsUpper(c) ==> r == c
  {
    if IsUpper(c) then (c as int + 32) as char else c
  }

  /** Lower-cases every letter and keeps every other character where it is. */
  function ToLower(s: string): (r: string)
    ensures |r| == |s|
    ensures forall i :: 0 <= i < |s| ==> r[i] == LowerChar(s[i])
  {
    seq(|s|, i requires 0 <= i < |s| => LowerChar(s[i]))
  }

  /** Removes leading whitespace: the result is a suffix of `s`. */
  function TrimStart(s: string): (r: string)
    ensures |r| <= |s| && r == s[|s| - |r|..]
    ensures AllWhitespace(s[..|s| - |r|])
    ensures |r| == 0 || !IsJsWhitespace(r[0])
  {
    if |s| > 0 && IsJsWhitespace(s[0]) then TrimStart(s[1..]) else s
  }

  /** Removes trailing whitespace: the result is a prefix of `s`. */
  function TrimEnd(s: string): (r: string)
    ensures |r| <= |s| && r == s[..|r|]
    ensures AllWhitespace(s[|r|..])
    ensures |r| == 0 || !IsJsWhitespace(r[|r| - 1])
  {
    if |s| > 0 && IsJsWhitespace(s[|s| - 1]) then TrimEnd(s[..|s| - 1]) else s
  }

  function Trim(s: string): (r: string)
    ensures Trimmed(r)
    ensures |r| <= |s|
  {
    TrimEnd(TrimStart(s))
  }

  /** The normalisation of the query: lower-case first, then trim. */
  function Normalize(query: string): string {
    Trim(ToLower(query))
  }

  lemma {:induction false} TrimStartOverWhitespace(a: string, t: string)
    requires AllWhitespace(a)
    requires |t| == 0 || !IsJsWhitespace(t[0])
    ensures TrimStart(a + t) == t
    decreases |a|
  {
    if |a| > 0 {
      assert (a + t)[1..] == a[1..] + t;
      TrimStartOverWhitespace(a[1..], t);
    } else {
      assert a + t == t;
    }
  }

  lemma {:induction false} TrimEndOverWhitespace(t: string, b: string)
    requires AllWhitespace(b)
    requires |t| == 0 || !IsJsWhitespace(t[|t| - 1])
    ensures TrimEnd(t + b) == t
    decreases |b|
  {
    if |b| > 0 {
      assert (t + b)[..|t + b| - 1] == t + b[..|b| - 1];
      TrimEndOverWhitespace(t, b[..|b| - 1]);
    } else {
      assert t + b == t;
    }
  }

  /**
   `trim` is fully determined by its two properties: whatever whitespace
   surrounds a string whose ends are not whitespace is removed, and nothing
   inside it is touched.
   */
  lemma {:induction false} TrimUnique(a: string, m: string, b: string)
    requires AllWhitespace(a) && AllWhitespace(b) && Trimmed(m)
    ensures Trim(a + m + b) == m
  {
    if |m| == 0 {
      assert a + m + b == a + b;
    } else {
      assert a + m + b == a + (m + b);
      TrimStartOverWhitespace(a, m + b);
      TrimEndOverWhitespace(m, b);
    }
  }

  lemma TrimOfTrimmed(m: string)
    requires Trimmed(m)
    ensures Trim(m) == m
  {
    TrimUnique([], m, []);
    assert [] + m + [] == m;
  }

  /** Every string is its trimmed form padded with whitespace on both sides. */
  lemma TrimSplit(s: string) returns (a: string, b: string)
    ensures s == a + Trim(s) + b
    ensures AllWhitespace(a) && AllWhitespace(b)
  {
    var t := TrimStart(s);
    var k := |s| - |t|;
    a := s[..k];
    assert t == s[k..];
    SplitAt(s, k);
    var r := TrimEnd(t);
    b := t[|r|..];
    SplitAt(t, |r|);
    assert Trim(s) == r;
    assert s == a + (r + b);
    ConcatAssoc(a, r, b);
  }

  lemma ConcatAssoc(x: string, y: string, z: string)
    ensures x + (y + z) == x + y + z
  {
  }

  lemma SplitAt(s: string, k: nat)
    requires k <= |s|
    ensures s == s[..k] + s[k..]
  {
  }

  lemma {:induction false} ToLowerConcat(x: string, y: string)
    ensures ToLower(x + y) == ToLower(x) + ToLower(y)
  {
  }

  lemma ToLowerIdempotent(s: string)
    ensures ToLower(ToLower(s)) == ToLower(s)
  {
  }

  /** Lower-casing neither creates nor removes whitespace, so padding and trimmed ends survive it. */
  lemma ToLowerKeepsWhitespace(s: string)
    ensures AllWhitespace(s) ==> AllWhitespace(ToLower(s))
    ensures Trimmed(s) ==> Trimmed(ToLower(s))
  {
  }

  /** Lower-casing and trimming commute, so the order the source uses is immaterial. */
  lemma TrimLowerCommute(s: string)
    ensures Trim(ToLower(s)) == ToLower(Trim(s))
  {
    var a, b := TrimSplit(s);
    var m := Trim(s);
    assert ToLower(s) == ToLower(a) + ToLower(m) + ToLower(b) by {
      ToLowerConcat(a, m);
      ToLowerConcat(a + m, b);
    }
    ToLowerKeepsWhitespace(a);
    ToLowerKeepsWhitespace(m);
    ToLowerKeepsWhitespace(b);
    TrimUnique(ToLower(a), ToLower(m), ToLower(b));
  }

  /** Normalising an already normalised query changes nothing. */
  lemma NormalizeIdempotent(query: string)
    ensures Normalize(Normalize(query)) == Normalize(query)
  {
    var t := Trim(query);
    var n := ToLower(t);
    TrimLowerCommute(query);
    assert Normalize(query) == n;
    ToLowerIdempotent(t);
    ToLowerKeepsWhitespace(t);
    TrimOfTrimmed(n);
  }

  /**
   Only the ends of the query are touched: the interior, including all of
   its internal whitespace, survives normalisation apart from letter case.
   */
  lemma NormalizeKeepsInterior(a: string, m: string, b: string)
    requires AllWhitespace(a) && AllWhitespace(b) && Trimmed(m)
    ensures Normalize(a + m + b) == ToLower(m)
  {
    assert ToLower(a + m + b) == ToLower(a) + ToLower(m) + ToLower(b) by {
      ToLowerConcat(a, m);
      ToLowerConcat(a + m, b);
    }
    ToLowerKeepsWhitespace(a);
    ToLowerKeepsWhitespace(m);
    ToLowerKeepsWhitespace(b);
    TrimUnique(ToLower(a), ToLower(m), ToLower(b));
  }
}

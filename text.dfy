/** String operations the source takes from its languages' runtimes: JavaScript's `trim`,
    Python's `upper`/`lower` (ASCII letters only), `sep.join`, `str.split` on one character,
    and decimal rendering of integers in template strings. */
module Text {

  /** ECMAScript WhiteSpace and LineTerminator code points: what `String.prototype.trim` strips. */
  const JsWhitespace: set<char> := {
    '\t', '\n', '\U{B}', '\U{C}', '\r', ' ', '\U{A0}', '\U{1680}', '\U{2028}', '\U{2029}',
    '\U{202F}', '\U{205F}', '\U{3000}', '\U{FEFF}'
  }

  predicate IsJsWhitespace(c: char)
  {
    c in JsWhitespace || '\U{2000}' <= c <= '\U{200A}'
  }

  predicate AllWhitespace(s: string)
  {
    forall i :: 0 <= i < |s| ==> IsJsWhitespace(s[i])
  }

  /** Drops the leading whitespace: the result is the suffix of `s` after its whitespace prefix. */
  function TrimStart(s: string): (r: string)
    ensures |r| <= |s| && r == s[|s| - |r|..]
    ensures r == "" || !IsJsWhitespace(r[0])
    ensures forall i :: 0 <= i < |s| - |r| ==> IsJsWhitespace(s[i])
  {
    if s == "" || !IsJsWhitespace(s[0]) then s else TrimStart(s[1..])
  }

  /** Drops the trailing whitespace: the result is the prefix of `s` before its whitespace suffix. */
  function TrimEnd(s: string): (r: string)
    ensures |r| <= |s| && r == s[..|r|]
    ensures r == "" || !IsJsWhitespace(r[|r| - 1])
    ensures forall i :: |r| <= i < |s| ==> IsJsWhitespace(s[i])
  {
    if s == "" || !IsJsWhitespace(s[|s| - 1]) then s else TrimEnd(s[..|s| - 1])
  }

  /** `s.trim()`: the part of `s` left between a white-space prefix and a white-space suffix,
      starting and ending with a character that is not white space. */
  function Trim(s: string): (r: string)
    ensures exists i :: StrippedAt(s, r, i)
    ensures r == "" || (!IsJsWhitespace(r[0]) && !IsJsWhitespace(r[|r| - 1]))
  {
    var a := TrimStart(s);
    var r := TrimEnd(a);
    StripBoth(s, |s| - |a|, a, r);
    r
  }

  /** `r` sits at index `i` of `s` with only white space before and after it. */
  predicate StrippedAt(s: string, r: string, i: int)
  {
    0 <= i <= |s| - |r| && s[i..i + |r|] == r && AllWhitespace(s[..i]) && AllWhitespace(s[i + |r|..])
  }

  /** `r` is what is left of `s` once `i` white-space characters go from the front and the
      white space after `r` goes from the back. */
  lemma StripBoth(s: string, i: nat, a: string, r: string)
    requires i <= |s| && a == s[i..] && |r| <= |a| && r == a[..|r|]
    requires forall k :: 0 <= k < i ==> IsJsWhitespace(s[k])
    requires forall k :: |r| <= k < |a| ==> IsJsWhitespace(a[k])
    requires a == "" || !IsJsWhitespace(a[0])
    requires r == "" || !IsJsWhitespace(r[|r| - 1])
    ensures StrippedAt(s, r, i)
    ensures r == "" || (!IsJsWhitespace(r[0]) && !IsJsWhitespace(r[|r| - 1]))
  {
    assert s[i..i + |r|] == a[..|r|];
    assert forall k :: 0 <= k < i ==> s[..i][k] == s[k];
    assert s[i + |r|..] == a[|r|..];
    assert forall k :: 0 <= k < |a| - |r| ==> a[|r|..][k] == a[|r| + k];
    assert r != "" ==> r[0] == a[0];
  }

  predicate StartsWith(s: string, prefix: string)
  {
    |prefix| <= |s| && s[..|prefix|] == prefix
  }

  predicate EndsWith(s: string, suffix: string)
  {
    |suffix| <= |s| && s[|s| - |suffix|..] == suffix
  }

  /** The trimmed string is blank exactly when the input is whitespace only. */
  lemma TrimBlankIff(s: string)
    ensures Trim(s) == "" <==> AllWhitespace(s)
  {
    var a := TrimStart(s);
    var r := TrimEnd(a);
    assert Trim(s) == r;
    if AllWhitespace(s) {
      assert a == "";
    } else {
      var k :| 0 <= k < |s| && !IsJsWhitespace(s[k]);
      assert a != "";
      assert !IsJsWhitespace(a[0]);
      assert r != "";
    }
  }

  /** A non-blank trimmed string starts and ends with a character that is not whitespace. */
  lemma TrimEnds(s: string)
    ensures Trim(s) != "" ==> !IsJsWhitespace(Trim(s)[0]) && !IsJsWhitespace(Trim(s)[|Trim(s)| - 1])
  {
    var a := TrimStart(s);
    var r := TrimEnd(a);
    assert Trim(s) == r;
    if r != "" {
      assert r[0] == a[0];
    }
  }

  /** Trimming twice gives what trimming once gives. */
  lemma TrimIdempotent(s: string)
    ensures Trim(Trim(s)) == Trim(s)
  {
    TrimEnds(s);
    var r := Trim(s);
    assert TrimStart(r) == r;
    assert TrimEnd(r) == r;
  }

  function UpperChar(c: char): char
  {
    if 'a' <= c <= 'z' then (c as int - 32) as char else c
  }

  function LowerChar(c: char): char
  {
    if 'A' <= c <= 'Z' then (c as int + 32) as char else c
  }

  /** `s.upper()` on ASCII letters. */
  function AsciiUpper(s: string): (r: string)
    ensures |r| == |s|
    ensures forall i :: 0 <= i < |s| ==> r[i] == UpperChar(s[i])
  {
    seq(|s|, i requires 0 <= i < |s| => UpperChar(s[i]))
  }

  /** `s.lower()` on ASCII letters. */
  function AsciiLower(s: string): (r: string)
    ensures |r| == |s|
    ensures forall i :: 0 <= i < |s| ==> r[i] == LowerChar(s[i])
  {
    seq(|s|, i requires 0 <= i < |s| => LowerChar(s[i]))
  }

  /** Python's `sep.join(parts)`. */
  function Join(parts: seq<string>, sep: string): string
  {
    if |parts| == 0 then ""
    else if |parts| == 1 then parts[0]
    else parts[0] + sep + Join(parts[1..], sep)
  }

  /** Joining one more part puts it last, after a separator when there were parts before. */
  lemma {:induction false} JoinAppend(parts: seq<string>, t: string, sep: string)
    ensures Join(parts + [t], sep) == if |parts| == 0 then t else Join(parts, sep) + sep + t
  {
    var all := parts + [t];
    if |parts| == 0 {
      assert all == [t];
    } else if |parts| == 1 {
      assert all[0] == parts[0] && all[1..] == [t];
      assert Join(all, sep) == parts[0] + sep + t;
    } else {
      assert all[0] == parts[0] && all[1..] == parts[1..] + [t];
      JoinAppend(parts[1..], t, sep);
      assert Join(all, sep) == parts[0] + sep + (Join(parts[1..], sep) + sep + t);
      assert Join(parts, sep) == parts[0] + sep + Join(parts[1..], sep);
    }
  }

  /** A joined sequence ends with its last part. */
  lemma JoinEndsWithLast(parts: seq<string>, t: string, sep: string)
    ensures EndsWith(Join(parts + [t], sep), t)
  {
    JoinAppend(parts, t, sep);
    var pre := if |parts| == 0 then "" else Join(parts, sep) + sep;
    assert Join(parts + [t], sep) == pre + t;
    assert (pre + t)[|pre|..] == t;
  }

  /** A text that ends with `t` still ends with `t` after something is put before it. */
  lemma EndsWithConcat(a: string, b: string, t: string)
    requires EndsWith(b, t)
    ensures EndsWith(a + b, t)
  {
    assert (a + b)[|a + b| - |t|..] == b[|b| - |t|..];
  }

  /** The position of the first `c` in `s`. */
  function IndexOf(s: string, c: char): (i: nat)
    requires c in s
    ensures i < |s| && s[i] == c && c !in s[..i]
  {
    if s[0] == c then 0 else 1 + IndexOf(s[1..], c)
  }

  /** Python's `s.split(c)` for a one-character separator. */
  function Split(s: string, c: char): (r: seq<string>)
    ensures |r| >= 1
    decreases |s|
  {
    if c in s then
      var i := IndexOf(s, c);
      [s[..i]] + Split(s[i + 1..], c)
    else [s]
  }

  lemma IndexOfAfterPrefix(p: string, c: char, t: string)
    requires c !in p
    ensures c in p + [c] + t
    ensures IndexOf(p + [c] + t, c) == |p|
  {
    assert (p + [c] + t)[|p|] == c;
  }

  /** Splitting at the first separator peels off the text before it. */
  lemma SplitAtFirst(p: string, c: char, t: string)
    requires c !in p
    ensures Split(p + [c] + t, c) == [p] + Split(t, c)
  {
    var s := p + [c] + t;
    IndexOfAfterPrefix(p, c, t);
    assert s[..|p|] == p;
    assert s[|p| + 1..] == t;
  }

  /** Three parts without the separator, joined by it, split back into those three. */
  lemma SplitThree(a: string, b: string, d: string, c: char)
    requires c !in a && c !in b && c !in d
    ensures Split(a + [c] + (b + [c] + d), c) == [a, b, d]
  {
    SplitAtFirst(a, c, b + [c] + d);
    SplitAtFirst(b, c, d);
  }

  /** Joining with `c` and splitting on `c` gives the parts back when no part contains `c`. */
  lemma {:induction false} SplitJoin(parts: seq<string>, c: char)
    requires |parts| >= 1
    requires forall k :: 0 <= k < |parts| ==> c !in parts[k]
    ensures Split(Join(parts, [c]), c) == parts
  {
    if |parts| > 1 {
      var rest := Join(parts[1..], [c]);
      assert c !in parts[0];
      SplitAtFirst(parts[0], c, rest);
      SplitJoin(parts[1..], c);
      assert parts == [parts[0]] + parts[1..];
    }
  }

  predicate IsDigit(c: char)
  {
    '0' <= c <= '9'
  }

  function DigitChar(d: nat): (c: char)
    requires d < 10
    ensures IsDigit(c) && c as int - '0' as int == d
  {
    (d + '0' as int) as char
  }

  /** Decimal rendering of a non-negative integer, as a template string shows it. */
  function NatToString(n: nat): (s: string)
    ensures |s| >= 1
    ensures forall i :: 0 <= i < |s| ==> IsDigit(s[i])
  {
    if n < 10 then [DigitChar(n)] else NatToString(n / 10) + [DigitChar(n % 10)]
  }

  /** Decimal rendering of an integer, with a leading '-' when negative. */
  function IntToString(i: int): string
  {
    if i < 0 then "-" + NatToString(-i) else NatToString(i)
  }

  function DigitValue(c: char): nat
    requires IsDigit(c)
  {
    c as int - '0' as int
  }

  /** Reads a decimal numeral. */
  function ParseNat(s: string): nat
    requires forall i :: 0 <= i < |s| ==> IsDigit(s[i])
  {
    if s == "" then 0 else 10 * ParseNat(s[..|s| - 1]) + DigitValue(s[|s| - 1])
  }

  /** Reads what IntToString writes. */
  function ParseInt(s: string): int
    requires s != ""
    requires forall i :: (if s[0] == '-' then 1 else 0) <= i < |s| ==> IsDigit(s[i])
  {
    if s[0] == '-' then 0 - ParseNat(s[1..]) else ParseNat(s)
  }

  /** Reading back a rendered natural number gives the number. */
  lemma {:induction false} ParseNatToString(n: nat)
    ensures ParseNat(NatToString(n)) == n
  {
    if n >= 10 {
      var s := NatToString(n);
      assert s[..|s| - 1] == NatToString(n / 10);
      ParseNatToString(n / 10);
    }
  }

  /** Reading back a rendered integer gives the integer, so the rendering loses nothing. */
  lemma ParseIntToString(i: int)
    ensures IntToString(i) != ""
    ensures ParseInt(IntToString(i)) == i
  {
    if i < 0 {
      assert IntToString(i)[1..] == NatToString(-i);
      ParseNatToString(-i);
    } else {
      ParseNatToString(i);
    }
  }
}

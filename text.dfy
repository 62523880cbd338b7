/**
 * The string primitives the pipeline relies on: TensorFlow 1's `string_split`
 * (split at any character of a delimiter set, empty tokens skipped),
 * `string_join`, and the int32 reading of `string_to_number`.
 */
module Text {
  import opened Outcomes

  /** No character of s is a delimiter. */
  predicate Free(s: string, delims: set<char>) {
    forall i :: 0 <= i < |s| ==> s[i] !in delims
  }

  /** Length of the longest prefix of s that holds no delimiter. */
  function TokenLength(s: string, delims: set<char>): (k: nat)
    ensures k <= |s|
    ensures Free(s[..k], delims)
    ensures k < |s| ==> s[k] in delims
  {
    if s == [] || s[0] in delims then 0
    else
      var k' := TokenLength(s[1..], delims);
      assert s[..1 + k'] == [s[0]] + s[1..][..k'];
      1 + k'
  }

  /**
   * `tf.string_split` with its default `skip_empty`: the maximal runs of
   * non-delimiter characters of s, in order.
   */
  function Split(s: string, delims: set<char>): (tokens: seq<string>)
    ensures forall i :: 0 <= i < |tokens| ==> tokens[i] != [] && Free(tokens[i], delims)
    decreases |s|
  {
    if s == [] then []
    else if s[0] in delims then Split(s[1..], delims)
    else
      var k := TokenLength(s, delims);
      [s[..k]] + Split(s[k..], delims)
  }

  /** `tf.string_join(parts, sep)`: the parts in order, one separator between each two. */
  function Join(parts: seq<string>, sep: string): (s: string)
    ensures parts != [] ==> parts[0] <= s
  {
    if parts == [] then []
    else if |parts| == 1 then parts[0]
    else parts[0] + sep + Join(parts[1..], sep)
  }

  /** A join with a one-character separator adds only separators: removing them leaves the parts concatenated. */
  lemma {:induction false} JoinKeepsContent(parts: seq<string>, d: char)
    requires forall i :: 0 <= i < |parts| ==> Free(parts[i], {d})
    ensures Without(Join(parts, [d]), {d}) == Flatten(parts)
    decreases |parts|
  {
    if |parts| == 1 {
      WithoutFree(parts[0], {d});
      assert parts[1..] == [];
    } else if |parts| > 1 {
      var rest := Join(parts[1..], [d]);
      JoinKeepsContent(parts[1..], d);
      WithoutFree(parts[0], {d});
      WithoutAppend(parts[0], [d] + rest, {d});
      WithoutAppend([d], rest, {d});
      assert Without([d], {d}) == [] by { assert [d][1..] == []; }
      assert parts[0] + [d] + rest == parts[0] + ([d] + rest);
    }
  }

  /** The concatenation of a sequence of sequences. */
  function Flatten<T>(xss: seq<seq<T>>): seq<T> {
    if xss == [] then [] else xss[0] + Flatten(xss[1..])
  }

  /** Every line split again, the tokens concatenated in order (a split applied to a vector of strings). */
  function SplitAll(lines: seq<string>, delims: set<char>): (tokens: seq<string>)
    ensures forall i :: 0 <= i < |tokens| ==> tokens[i] != [] && Free(tokens[i], delims)
    ensures Flatten(tokens) == Without(Flatten(lines), delims)
  {
    if lines == [] then []
    else
      SplitKeepsContent(lines[0], delims);
      FlattenAppend(Split(lines[0], delims), SplitAll(lines[1..], delims));
      WithoutAppend(lines[0], Flatten(lines[1..]), delims);
      Split(lines[0], delims) + SplitAll(lines[1..], delims)
  }

  lemma {:induction false} FlattenAppend<T>(a: seq<seq<T>>, b: seq<seq<T>>)
    ensures Flatten(a + b) == Flatten(a) + Flatten(b)
    decreases |a|
  {
    if a != [] {
      assert (a + b)[0] == a[0] && (a + b)[1..] == a[1..] + b;
      FlattenAppend(a[1..], b);
    } else {
      assert a + b == b;
    }
  }

  /** The characters of s that are not delimiters, in order. */
  function Without(s: string, delims: set<char>): string {
    if s == [] then [] else (if s[0] in delims then [] else [s[0]]) + Without(s[1..], delims)
  }

  // ---------------------------------------------------------------------------
  // Properties of Split and Join

  lemma {:induction false} WithoutAppend(a: string, b: string, delims: set<char>)
    ensures Without(a + b, delims) == Without(a, delims) + Without(b, delims)
    decreases |a|
  {
    if a != [] {
      assert (a + b)[1..] == a[1..] + b;
      WithoutAppend(a[1..], b, delims);
    } else {
      assert a + b == b;
    }
  }

  lemma {:induction false} WithoutFree(t: string, delims: set<char>)
    requires Free(t, delims)
    ensures Without(t, delims) == t
    decreases |t|
  {
    if t != [] {
      WithoutFree(t[1..], delims);
    }
  }

  /** Splitting loses exactly the delimiters: the tokens put back together are s without them. */
  lemma {:induction false} SplitKeepsContent(s: string, delims: set<char>)
    ensures Flatten(Split(s, delims)) == Without(s, delims)
    decreases |s|
  {
    if s == [] {
    } else if s[0] in delims {
      SplitKeepsContent(s[1..], delims);
    } else {
      var k := TokenLength(s, delims);
      var rest := Split(s[k..], delims);
      assert Split(s, delims) == [s[..k]] + rest;
      assert ([s[..k]] + rest)[1..] == rest;
      SplitKeepsContent(s[k..], delims);
      assert s == s[..k] + s[k..];
      WithoutAppend(s[..k], s[k..], delims);
      WithoutFree(s[..k], delims);
    }
  }

  lemma {:induction false} TokenLengthAppend(a: string, b: string, delims: set<char>)
    requires b == [] || b[0] in delims
    ensures TokenLength(a + b, delims) == TokenLength(a, delims)
    decreases |a|
  {
    if a == [] {
      assert a + b == b;
    } else if a[0] !in delims {
      assert (a + b)[1..] == a[1..] + b;
      TokenLengthAppend(a[1..], b, delims);
    }
  }

  /** A split point at the seam: splitting a + b is splitting a, then b. */
  lemma {:induction false} SplitAppend(a: string, b: string, delims: set<char>)
    requires b == [] || b[0] in delims
    ensures Split(a + b, delims) == Split(a, delims) + Split(b, delims)
    decreases |a|
  {
    if a == [] {
      assert a + b == b;
    } else if a[0] in delims {
      assert (a + b)[1..] == a[1..] + b;
      SplitAppend(a[1..], b, delims);
    } else {
      var k := TokenLength(a, delims);
      TokenLengthAppend(a, b, delims);
      assert (a + b)[..k] == a[..k];
      assert (a + b)[k..] == a[k..] + b;
      SplitAppend(a[k..], b, delims);
    }
  }

  /** A non-empty delimiter-free string is one token. */
  lemma {:induction false} SplitToken(t: string, delims: set<char>)
    requires t != [] && Free(t, delims)
    ensures Split(t, delims) == [t]
  {
    var k := TokenLength(t, delims);
    assert k == |t|;
    assert t[..k] == t && t[k..] == [];
  }

  /** Joining non-empty, delimiter-free parts with a delimiter and splitting again gives the parts back. */
  lemma {:induction false} SplitJoin(parts: seq<string>, d: char, delims: set<char>)
    requires d in delims
    requires forall i :: 0 <= i < |parts| ==> parts[i] != [] && Free(parts[i], delims)
    ensures Split(Join(parts, [d]), delims) == parts
    decreases |parts|
  {
    if parts == [] {
    } else if |parts| == 1 {
      SplitToken(parts[0], delims);
    } else {
      var tail := Join(parts[1..], [d]);
      assert Join(parts, [d]) == parts[0] + ([d] + tail);
      SplitAppend(parts[0], [d] + tail, delims);
      SplitToken(parts[0], delims);
      assert ([d] + tail)[1..] == tail;
      SplitJoin(parts[1..], d, delims);
      assert parts == [parts[0]] + parts[1..];
    }
  }

  lemma {:induction false} TokenLengthWidened(a: string, outer: set<char>, inner: set<char>)
    requires Free(a, outer)
    ensures TokenLength(a, outer + inner) == TokenLength(a, inner)
    decreases |a|
  {
    if a != [] && a[0] !in inner {
      TokenLengthWidened(a[1..], outer, inner);
    }
  }

  /** Extra delimiters that never occur in a do not change its split. */
  lemma {:induction false} SplitWidened(a: string, outer: set<char>, inner: set<char>)
    requires Free(a, outer)
    ensures Split(a, outer + inner) == Split(a, inner)
    decreases |a|
  {
    if a == [] {
    } else if a[0] in inner {
      SplitWidened(a[1..], outer, inner);
    } else {
      var k := TokenLength(a, inner);
      TokenLengthWidened(a, outer, inner);
      SplitWidened(a[k..], outer, inner);
    }
  }

  lemma SplitAllCons(line: string, lines: seq<string>, delims: set<char>)
    ensures SplitAll([line] + lines, delims) == Split(line, delims) + SplitAll(lines, delims)
  {
    assert ([line] + lines)[1..] == lines;
  }

  /**
   * Splitting at the outer delimiters and then splitting every piece at the
   * inner ones is one split at both sets.
   */
  lemma {:induction false} SplitTwice(s: string, outer: set<char>, inner: set<char>)
    ensures SplitAll(Split(s, outer), inner) == Split(s, outer + inner)
    decreases |s|
  {
    if s == [] {
    } else if s[0] in outer {
      SplitTwice(s[1..], outer, inner);
    } else {
      var k := TokenLength(s, outer);
      var head, rest := s[..k], s[k..];
      assert s == head + rest;
      SplitAppend(head, rest, outer + inner);
      SplitWidened(head, outer, inner);
      SplitTwice(rest, outer, inner);
      SplitAllCons(head, Split(rest, outer), inner);
    }
  }

  // ---------------------------------------------------------------------------
  // int32 literals, as `tf.string_to_number(..., out_type=tf.int32)` reads them

  const Int32Min: int := -0x8000_0000
  const Int32Max: int := 0x7fff_ffff

  predicate IsInt32(n: int) { Int32Min <= n <= Int32Max }

  predicate IsDigit(c: char) { '0' <= c <= '9' }

  predicate AllDigits(s: string) { forall i :: 0 <= i < |s| ==> IsDigit(s[i]) }

  function DigitChar(d: nat): (c: char)
    requires d < 10
    ensures IsDigit(c) && c as int - '0' as int == d
  {
    ('0' as int + d) as char
  }

  /** The value of a string of decimal digits, most significant first. */
  function DigitsValue(s: string): nat
    requires AllDigits(s)
  {
    if s == [] then 0 else DigitsValue(s[..|s| - 1]) * 10 + (s[|s| - 1] as int - '0' as int)
  }

  /** An optional minus sign followed by at least one decimal digit. */
  predicate IsDecimalLiteral(t: string) {
    (t != [] && AllDigits(t)) || (|t| >= 2 && t[0] == '-' && AllDigits(t[1..]))
  }

  function LiteralValue(t: string): int
    requires IsDecimalLiteral(t)
  {
    if t[0] == '-' then 0 - DigitsValue(t[1..]) else DigitsValue(t)
  }

  /** A token read as int32: None for anything that is not a decimal literal in the int32 range. */
  function ParseInt32(t: string): (r: Option<int>)
    ensures r.Some? ==> IsInt32(r.value)
  {
    if IsDecimalLiteral(t) && IsInt32(LiteralValue(t)) then Some(LiteralValue(t)) else None
  }

  /** Shortest decimal spelling of a natural number. */
  function NatToString(n: nat): (s: string)
    ensures s != [] && AllDigits(s)
  {
    if n < 10 then [DigitChar(n)] else NatToString(n / 10) + [DigitChar(n % 10)]
  }

  /** Decimal spelling of an integer, with a leading `-` when negative. */
  function IntToString(n: int): (s: string)
    ensures s != []
    ensures forall i :: 0 <= i < |s| ==> IsDigit(s[i]) || s[i] == '-'
  {
    if n < 0 then "-" + NatToString(-n) else NatToString(n)
  }

  lemma {:induction false} DigitsValueOfNatToString(n: nat)
    ensures DigitsValue(NatToString(n)) == n
  {
    if n >= 10 {
      var s := NatToString(n);
      assert s[..|s| - 1] == NatToString(n / 10);
      DigitsValueOfNatToString(n / 10);
    }
  }

  /** Every int32 printed in decimal reads back as itself. */
  lemma ParseInt32RoundTrip(n: int)
    requires IsInt32(n)
    ensures ParseInt32(IntToString(n)) == Some(n)
  {
    var t := IntToString(n);
    if n < 0 {
      assert t[1..] == NatToString(-n);
      DigitsValueOfNatToString(-n);
    } else {
      DigitsValueOfNatToString(n);
    }
  }

  /** A token holding any character other than digits and one leading minus sign is rejected. */
  lemma ParseInt32Rejects(t: string, i: nat)
    requires i < |t| && !IsDigit(t[i]) && !(i == 0 && t[i] == '-')
    ensures ParseInt32(t) == None
  {
  }
}

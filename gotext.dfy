/**
 * The parts of Go's `strings` package and of its decimal formatting that the
 * service relies on. A Go string is a sequence of bytes; here it is a `string`
 * whose elements each stand for one byte, so `|s|` is Go's `len(s)` and
 * slicing is byte slicing.
 */
module GoText {

  /** unicode.IsSpace on a single-byte rune: tab, newline, vertical tab, form feed, carriage return, space. */
  predicate IsSpace(c: char) {
    c == ' ' || c == '\t' || c == '\n' || c == '\r' || c == 11 as char || c == 12 as char
  }

  predicate NoSpace(s: string) {
    forall i :: 0 <= i < |s| ==> !IsSpace(s[i])
  }

  predicate AllSpace(s: string) {
    forall i :: 0 <= i < |s| ==> IsSpace(s[i])
  }

  /** strings.HasPrefix */
  predicate HasPrefix(s: string, prefix: string) {
    |prefix| <= |s| && s[..|prefix|] == prefix
  }

  /** strings.HasSuffix */
  predicate HasSuffix(s: string, suffix: string) {
    |suffix| <= |s| && s[|s| - |suffix|..] == suffix
  }

  /** strings.Contains: `t` occurs somewhere in `s`. */
  predicate Contains(s: string, t: string) {
    exists i :: 0 <= i <= |s| - |t| && OccursAt(s, t, i)
  }

  /** `t` occurs in `s` at `i`: every character of `t` is in place. */
  predicate OccursAt(s: string, t: string, i: int) {
    0 <= i <= |s| - |t| && forall k :: 0 <= k < |t| ==> s[i + k] == t[k]
  }

  /** An occurrence at `i` is a slice of `s` starting at `i`. */
  lemma OccursAtSlice(s: string, t: string, i: int)
    ensures OccursAt(s, t, i) <==> 0 <= i <= |s| - |t| && s[i..i + |t|] == t
  {
    if 0 <= i <= |s| - |t| && OccursAt(s, t, i) {
      assert forall k :: 0 <= k < |t| ==> s[i..i + |t|][k] == t[k];
    }
  }

  /** A string cannot contain a pattern that has a character the string lacks. */
  lemma MissingCharNotContained(s: string, t: string, c: char)
    requires c in t && c !in s
    ensures !Contains(s, t)
  {
    var k :| 0 <= k < |t| && t[k] == c;
    forall i | 0 <= i <= |s| - |t|
      ensures !OccursAt(s, t, i)
    {
      assert s[i + k] != c;
    }
  }

  /** Showing one occurrence is enough for Contains. */
  lemma ContainsAt(s: string, t: string, i: nat)
    requires i + |t| <= |s| && s[i..i + |t|] == t
    ensures Contains(s, t)
  {
    OccursAtSlice(s, t, i);
  }

  // ---------------------------------------------------------------------------
  // strings.TrimSpace

  /** Drops the leading white space. */
  function TrimLeft(s: string): (r: string)
    ensures |r| <= |s|
    ensures r != [] ==> !IsSpace(r[0])
  {
    if s != [] && IsSpace(s[0]) then TrimLeft(s[1..]) else s
  }

  /** TrimLeft keeps a suffix and drops only white space. */
  lemma {:induction false} TrimLeftDropsSpace(s: string)
    ensures TrimLeft(s) == s[|s| - |TrimLeft(s)|..]
    ensures AllSpace(s[..|s| - |TrimLeft(s)|])
    decreases |s|
  {
    if s != [] && IsSpace(s[0]) {
      var r := TrimLeft(s[1..]);
      TrimLeftDropsSpace(s[1..]);
      assert s[1..][..|s| - 1 - |r|] == s[1..|s| - |r|];
    }
  }

  /** Drops the trailing white space. */
  function TrimRight(s: string): (r: string)
    ensures |r| <= |s|
    ensures r != [] ==> !IsSpace(r[|r| - 1])
  {
    if s != [] && IsSpace(s[|s| - 1]) then TrimRight(s[..|s| - 1]) else s
  }

  /** TrimRight keeps a prefix and drops only white space. */
  lemma {:induction false} TrimRightDropsSpace(s: string)
    ensures TrimRight(s) == s[..|TrimRight(s)|]
    ensures AllSpace(s[|TrimRight(s)|..])
    decreases |s|
  {
    if s != [] && IsSpace(s[|s| - 1]) {
      var r := TrimRight(s[..|s| - 1]);
      TrimRightDropsSpace(s[..|s| - 1]);
      assert s[|r|..] == s[..|s| - 1][|r|..] + [s[|s| - 1]];
    }
  }

  /**
   * strings.TrimSpace: the longest infix of `s` that neither starts nor ends
   * with white space, obtained by removing only white space from both ends.
   */
  function TrimSpace(s: string): (r: string)
    ensures |r| <= |s|
    ensures r != [] ==> !IsSpace(r[0]) && !IsSpace(r[|r| - 1])
  {
    var l := TrimLeft(s);
    TrimRightDropsSpace(l);
    TrimRight(l)
  }

  /** What TrimSpace removed is white space at the two ends, and nothing else. */
  lemma TrimSpaceIsInfix(s: string) returns (i: nat)
    ensures i + |TrimSpace(s)| <= |s| && TrimSpace(s) == s[i..i + |TrimSpace(s)|]
    ensures AllSpace(s[..i]) && AllSpace(s[i + |TrimSpace(s)|..])
  {
    var l := TrimLeft(s);
    TrimLeftDropsSpace(s);
    TrimRightDropsSpace(l);
    i := InfixOfTrims(s, l, TrimRight(l));
  }

  /** A prefix `r` of a suffix `l` of `s`, with only white space cut on either side. */
  lemma InfixOfTrims(s: string, l: string, r: string) returns (i: nat)
    requires |l| <= |s| && l == s[|s| - |l|..] && AllSpace(s[..|s| - |l|])
    requires |r| <= |l| && r == l[..|r|] && AllSpace(l[|r|..])
    ensures i + |r| <= |s| && r == s[i..i + |r|]
    ensures AllSpace(s[..i]) && AllSpace(s[i + |r|..])
  {
    i := |s| - |l|;
    var tail := s[i + |r|..];
    forall k | 0 <= k < |tail|
      ensures IsSpace(tail[k])
    {
      assert tail[k] == l[|r|..][k];
    }
  }

  /** Trimming twice changes nothing. */
  lemma TrimSpaceIdempotent(s: string)
    ensures TrimSpace(TrimSpace(s)) == TrimSpace(s)
  {
    var t := TrimSpace(s);
    TrimLeftNoop(t);
    TrimRightNoop(t);
  }

  lemma TrimLeftNoop(s: string)
    requires s != [] ==> !IsSpace(s[0])
    ensures TrimLeft(s) == s
  {
  }

  lemma TrimRightNoop(s: string)
    requires s != [] ==> !IsSpace(s[|s| - 1])
    ensures TrimRight(s) == s
  {
  }

  // ---------------------------------------------------------------------------
  // strings.Fields and word counting

  /** A maximal run of non-space bytes, as strings.Fields yields them. */
  predicate IsWord(w: string) {
    w != [] && NoSpace(w)
  }

  /** Length of the run of non-space bytes that starts `s`. */
  function WordLength(s: string): (n: nat)
    ensures n <= |s| && NoSpace(s[..n])
    ensures n < |s| ==> IsSpace(s[n])
  {
    if s == [] || IsSpace(s[0]) then 0
    else
      var n := 1 + WordLength(s[1..]);
      assert s[..n] == [s[0]] + s[1..][..n - 1];
      n
  }

  /** strings.Fields: the maximal runs of non-space bytes, in order. */
  function Fields(s: string): (ws: seq<string>)
    ensures forall k :: 0 <= k < |ws| ==> IsWord(ws[k])
    decreases |s|
  {
    if s == [] then []
    else if IsSpace(s[0]) then Fields(s[1..])
    else
      var n := WordLength(s);
      [s[..n]] + Fields(s[n..])
  }

  /** len(strings.Fields(s)): the number of words in `s`. */
  function WordCount(s: string): nat {
    |Fields(s)|
  }

  /** `s` with every white-space byte removed. */
  function Squeeze(s: string): (r: string)
    ensures NoSpace(r)
  {
    if s == [] then []
    else if IsSpace(s[0]) then Squeeze(s[1..])
    else [s[0]] + Squeeze(s[1..])
  }

  function Concat(ws: seq<string>): string {
    if ws == [] then [] else ws[0] + Concat(ws[1..])
  }

  lemma SqueezeAppend(a: string, b: string)
    ensures Squeeze(a + b) == Squeeze(a) + Squeeze(b)
  {
    if a != [] {
      var s := a + b;
      assert s[0] == a[0] && s[1..] == a[1..] + b;
      SqueezeAppend(a[1..], b);
      if IsSpace(a[0]) {
        assert Squeeze(s) == Squeeze(a[1..] + b);
      } else {
        assert Squeeze(s) == [a[0]] + Squeeze(a[1..] + b);
      }
    } else {
      assert a + b == b;
    }
  }

  lemma SqueezeWord(w: string)
    requires NoSpace(w)
    ensures Squeeze(w) == w
  {
    if w != [] {
      SqueezeWord(w[1..]);
    }
  }

  /** The words, put back together, are exactly the non-space bytes of `s`, in order. */
  lemma {:induction false} FieldsCoverText(s: string)
    ensures Concat(Fields(s)) == Squeeze(s)
    decreases |s|
  {
    if s == [] {
    } else if IsSpace(s[0]) {
      FieldsCoverText(s[1..]);
    } else {
      var n := WordLength(s);
      FieldsCoverText(s[n..]);
      assert s == s[..n] + s[n..];
      SqueezeAppend(s[..n], s[n..]);
      SqueezeWord(s[..n]);
      assert Fields(s)[1..] == Fields(s[n..]);
    }
  }

  lemma WordLengthPrefix(a: string, b: string)
    requires WordLength(a) < |a|
    ensures WordLength(a + b) == WordLength(a)
    decreases |a|
  {
    if !IsSpace(a[0]) {
      assert (a + b)[1..] == a[1..] + b;
      WordLengthPrefix(a[1..], b);
    }
  }

  lemma WordLengthBeforeSpace(a: string, c: char, b: string)
    requires IsSpace(c)
    ensures WordLength(a + [c] + b) == WordLength(a)
    decreases |a|
  {
    if a == [] {
    } else if !IsSpace(a[0]) {
      assert (a + [c] + b)[1..] == a[1..] + [c] + b;
      WordLengthBeforeSpace(a[1..], c, b);
    }
  }

  /**
   * Words never straddle white space: splitting the text at a space splits its
   * words, so the word count of the whole is the sum of the parts' counts.
   */
  lemma {:induction false} FieldsSplitAtSpace(a: string, c: char, b: string)
    requires IsSpace(c)
    ensures Fields(a + [c] + b) == Fields(a) + Fields(b)
    ensures WordCount(a + [c] + b) == WordCount(a) + WordCount(b)
    decreases |a|
  {
    var s := a + [c] + b;
    if a == [] {
      assert s[1..] == b;
    } else if IsSpace(a[0]) {
      assert s[1..] == a[1..] + [c] + b;
      FieldsSplitAtSpace(a[1..], c, b);
    } else {
      var n := WordLength(a);
      WordLengthBeforeSpace(a, c, b);
      assert s[..n] == a[..n];
      assert s[n..] == a[n..] + [c] + b;
      FieldsSplitAtSpace(a[n..], c, b);
    }
  }

  /** A word on its own is one field. */
  lemma SingleWord(w: string)
    requires IsWord(w)
    ensures Fields(w) == [w]
  {
    assert w[..WordLength(w)] == w;
    assert w[WordLength(w)..] == [];
  }

  /** Two words with one space between them are two fields. */
  lemma TwoWords(a: string, b: string)
    requires IsWord(a) && IsWord(b)
    ensures Fields(a + [' '] + b) == [a, b]
  {
    SingleWord(a);
    SingleWord(b);
    FieldsSplitAtSpace(a, ' ', b);
  }

  /** strings.Fields("hello world") has two elements. */
  lemma HelloWorldHasTwoWords()
    ensures WordCount("hello world") == 2
  {
    assert "hello world" == "hello" + [' '] + "world";
    TwoWords("hello", "world");
  }

  // ---------------------------------------------------------------------------
  // ASCII case folding (strings.ToLower on the bytes that matter here)

  function ToLowerChar(c: char): char {
    if 'A' <= c <= 'Z' then (c as int + 32) as char else c
  }

  function ToLower(s: string): (r: string)
    ensures |r| == |s|
    ensures forall i :: 0 <= i < |s| ==> r[i] == ToLowerChar(s[i])
  {
    if s == [] then [] else [ToLowerChar(s[0])] + ToLower(s[1..])
  }

  lemma ToLowerSuffix(s: string, k: nat)
    requires k <= |s|
    ensures ToLower(s[k..]) == ToLower(s)[k..]
  {
  }

  // ---------------------------------------------------------------------------
  // Decimal formatting: fmt's %d and %02d, and the numeric fields of time.Format

  function DigitChar(d: nat): char
    requires d < 10
  {
    ('0' as int + d) as char
  }

  predicate IsDigit(c: char) {
    '0' <= c <= '9'
  }

  predicate AllDigits(s: string) {
    forall i :: 0 <= i < |s| ==> IsDigit(s[i])
  }

  function DigitValue(c: char): nat
    requires IsDigit(c)
  {
    c as int - '0' as int
  }

  /** %d of a non-negative integer: its decimal digits, no leading zero. */
  function Decimal(n: nat): (s: string)
    ensures |s| >= 1 && AllDigits(s)
    ensures |s| > 1 ==> s[0] != '0'
  {
    if n < 10 then [DigitChar(n)] else Decimal(n / 10) + [DigitChar(n % 10)]
  }

  /** The value a string of decimal digits denotes. */
  function DecimalValue(s: string): nat
    requires AllDigits(s)
  {
    if s == [] then 0 else DecimalValue(s[..|s| - 1]) * 10 + DigitValue(s[|s| - 1])
  }

  /** %0<width>d of a non-negative integer: left-padded with zeros to at least `width` digits. */
  function ZeroPad(n: nat, width: nat): (s: string)
    ensures |s| == if |Decimal(n)| < width then width else |Decimal(n)|
    ensures AllDigits(s)
  {
    var d := Decimal(n);
    if |d| < width then Zeros(width - |d|) + d else d
  }

  /** Reading back what %d wrote gives the number. */
  lemma {:induction false} DecimalRoundTrip(n: nat)
    ensures DecimalValue(Decimal(n)) == n
  {
    if n >= 10 {
      DecimalRoundTrip(n / 10);
      var s := Decimal(n);
      assert s[..|s| - 1] == Decimal(n / 10);
    }
  }

  lemma {:induction false} LeadingZeroIgnored(s: string)
    requires AllDigits(s)
    ensures DecimalValue(['0'] + s) == DecimalValue(s)
    decreases |s|
  {
    if s != [] {
      var t := ['0'] + s;
      assert t[..|t| - 1] == ['0'] + s[..|s| - 1];
      LeadingZeroIgnored(s[..|s| - 1]);
    }
  }

  function Zeros(k: nat): (z: string)
    ensures |z| == k && AllDigits(z)
  {
    if k == 0 then [] else ['0'] + Zeros(k - 1)
  }

  lemma {:induction false} ZerosIgnored(k: nat, s: string)
    requires AllDigits(s)
    ensures AllDigits(Zeros(k) + s)
    ensures DecimalValue(Zeros(k) + s) == DecimalValue(s)
  {
    if k > 0 {
      ZerosIgnored(k - 1, s);
      var t := Zeros(k - 1) + s;
      assert Zeros(k) + s == ['0'] + t;
      LeadingZeroIgnored(t);
    } else {
      assert Zeros(k) + s == s;
    }
  }

  /** Left-padding digits with zeros up to `width` keeps their value. */
  lemma PadKeepsValue(d: string, width: nat)
    requires AllDigits(d)
    ensures |d| < width ==> AllDigits(Zeros(width - |d|) + d) && DecimalValue(Zeros(width - |d|) + d) == DecimalValue(d)
  {
    if |d| < width {
      ZerosIgnored(width - |d|, d);
    }
  }

  /** Reading back what %0<width>d wrote gives the number. */
  lemma ZeroPadRoundTrip(n: nat, width: nat)
    ensures DecimalValue(ZeroPad(n, width)) == n
  {
    var d := Decimal(n);
    DecimalRoundTrip(n);
    PadKeepsValue(d, width);
  }

  /** Numbers below 10^width are written in exactly `width` digits. */
  lemma {:induction false} DecimalLength(n: nat, width: nat)
    requires 1 <= width && n < Pow10(width)
    ensures |Decimal(n)| <= width
  {
    if n >= 10 {
      assert width >= 2;
      assert n / 10 < Pow10(width - 1);
      DecimalLength(n / 10, width - 1);
    }
  }

  function Pow10(k: nat): nat {
    if k == 0 then 1 else 10 * Pow10(k - 1)
  }

  /** %d of any integer: a minus sign before the digits of a negative one. */
  function SignedDecimal(n: int): (s: string)
    ensures s != [] && (s[0] == '-' <==> n < 0)
    ensures n >= 0 ==> s == Decimal(n)
  {
    if n < 0 then "-" + Decimal(-n) else Decimal(n)
  }
}

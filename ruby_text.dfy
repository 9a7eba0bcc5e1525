/**
  The pieces of Ruby's String and Array behaviour that the OAuth controller relies on:
  String#strip, String#split with a one-character separator, Array#[] with an index past
  the end, and Integer#to_s in base ten.
 */
module RubyText {
  import opened Outcomes

  /** The characters String#strip removes: NUL and the ASCII whitespace "\t\n\v\f\r ". */
  predicate IsStripSpace(c: char) {
    c == '\0' || c == ' ' || '\t' <= c <= '\r'
  }

  predicate AllSpace(s: string) {
    forall i :: 0 <= i < |s| ==> IsStripSpace(s[i])
  }

  /** A string strip leaves as it is: empty, or no strippable character at either end. */
  predicate Bare(s: string) {
    s == [] || (!IsStripSpace(s[0]) && !IsStripSpace(s[|s| - 1]))
  }

  /** Length of the run of strippable characters at the front of s. */
  function LeadingSpace(s: string): (n: nat)
    ensures n <= |s| && forall i :: 0 <= i < n ==> IsStripSpace(s[i])
    ensures n < |s| ==> !IsStripSpace(s[n])
  {
    if s == [] || !IsStripSpace(s[0]) then 0 else 1 + LeadingSpace(s[1..])
  }

  /** Length of the run of strippable characters at the back of s. */
  function TrailingSpace(s: string): (n: nat)
    ensures n <= |s| && forall i :: |s| - n <= i < |s| ==> IsStripSpace(s[i])
    ensures n < |s| ==> !IsStripSpace(s[|s| - n - 1])
  {
    if s == [] || !IsStripSpace(s[|s| - 1]) then 0 else 1 + TrailingSpace(s[..|s| - 1])
  }

  /** String#strip: s with the strippable runs at both ends removed. */
  function Strip(s: string): (r: string)
    ensures Bare(r) && |r| <= |s|
  {
    var rest := s[LeadingSpace(s)..];
    rest[..|rest| - TrailingSpace(rest)]
  }

  /**
    Strip returns a slice of its input, and everything around that slice is strippable:
    nothing but leading and trailing whitespace is removed.
   */
  lemma StripRemovesOnlySpace(s: string)
    ensures LeadingSpace(s) + |Strip(s)| <= |s|
    ensures Strip(s) == s[LeadingSpace(s)..LeadingSpace(s) + |Strip(s)|]
    ensures forall i :: 0 <= i < LeadingSpace(s) ==> IsStripSpace(s[i])
    ensures forall i :: LeadingSpace(s) + |Strip(s)| <= i < |s| ==> IsStripSpace(s[i])
  {
    var a := LeadingSpace(s);
    var rest := s[a..];
    var t := TrailingSpace(rest);
    forall i | a + (|rest| - t) <= i < |s|
      ensures IsStripSpace(s[i])
    {
      assert s[i] == rest[i - a];
    }
  }

  lemma {:induction false} LeadingSpaceAppend(p: string, t: string)
    requires AllSpace(p)
    ensures LeadingSpace(p + t) == |p| + LeadingSpace(t)
  {
    if p == [] {
      assert p + t == t;
    } else {
      assert (p + t)[1..] == p[1..] + t;
      LeadingSpaceAppend(p[1..], t);
    }
  }

  lemma {:induction false} TrailingSpaceAppend(t: string, q: string)
    requires AllSpace(q)
    ensures TrailingSpace(t + q) == TrailingSpace(t) + |q|
  {
    if q == [] {
      assert t + q == t;
    } else {
      assert (t + q)[..|t + q| - 1] == t + q[..|q| - 1];
      TrailingSpaceAppend(t, q[..|q| - 1]);
    }
  }

  /** Whatever whitespace surrounds a bare string, strip returns exactly that string. */
  lemma {:induction false} StripExact(p: string, m: string, q: string)
    requires AllSpace(p) && Bare(m) && AllSpace(q)
    ensures Strip(p + m + q) == m
  {
    var s := p + m + q;
    assert s == p + (m + q);
    LeadingSpaceAppend(p, m + q);
    if m == [] {
      assert m + q == q + [];
      LeadingSpaceAppend(q, []);
      assert LeadingSpace(s) == |s|;
    } else {
      assert LeadingSpace(m + q) == 0 by { assert (m + q)[0] == m[0]; }
      assert s[|p|..] == m + q;
      TrailingSpaceAppend(m, q);
      assert TrailingSpace(m) == 0;
      assert (m + q)[..|m|] == m;
    }
  }

  /** Stripping twice is stripping once. */
  lemma StripIdempotent(s: string)
    ensures Strip(Strip(s)) == Strip(s)
  {
    var r := Strip(s);
    assert [] + r + [] == r;
    StripExact([], r, []);
  }

  /** All sep-separated fields of s, empty ones included: one more field than separators. */
  function Fields(s: string, sep: char): (r: seq<string>)
    ensures |r| >= 1
    ensures forall i :: 0 <= i < |r| ==> sep !in r[i]
  {
    if s == [] then [""]
    else
      var rest := Fields(s[1..], sep);
      if s[0] == sep then [""] + rest else [[s[0]] + rest[0]] + rest[1..]
  }

  /** The fields put back together with sep between neighbours. */
  function Join(fs: seq<string>, sep: char): string
    requires |fs| >= 1
  {
    if |fs| == 1 then fs[0] else fs[0] + [sep] + Join(fs[1..], sep)
  }

  /** Splitting into fields loses nothing: joining them restores the string. */
  lemma {:induction false} JoinFields(s: string, sep: char)
    ensures Join(Fields(s, sep), sep) == s
  {
    if s != [] {
      var rest := Fields(s[1..], sep);
      JoinFields(s[1..], sep);
      if s[0] == sep {
        assert ([""] + rest)[1..] == rest;
      } else {
        var fs := [[s[0]] + rest[0]] + rest[1..];
        if |rest| > 1 {
          assert fs[1..] == rest[1..];
        }
      }
    }
  }

  lemma {:induction false} FieldsOfPrefix(x: string, t: string, sep: char)
    requires sep !in x
    ensures Fields(x + t, sep) == [x + Fields(t, sep)[0]] + Fields(t, sep)[1..]
  {
    if x == [] {
      assert x + t == t;
      assert x + Fields(t, sep)[0] == Fields(t, sep)[0];
    } else {
      assert (x + t)[0] == x[0];
      assert (x + t)[1..] == x[1..] + t;
      FieldsOfPrefix(x[1..], t, sep);
      assert [x[0]] + (x[1..] + Fields(t, sep)[0]) == x + Fields(t, sep)[0];
    }
  }

  /** Fields separated by sep and free of it come back out of the split unchanged. */
  lemma {:induction false} FieldsOfJoin(fs: seq<string>, sep: char)
    requires |fs| >= 1
    requires forall i :: 0 <= i < |fs| ==> sep !in fs[i]
    ensures Fields(Join(fs, sep), sep) == fs
  {
    if |fs| == 1 {
      FieldsOfPrefix(fs[0], [], sep);
      assert fs[0] + [] == fs[0];
    } else {
      var tail := Join(fs[1..], sep);
      FieldsOfJoin(fs[1..], sep);
      assert fs[0] + [sep] + tail == fs[0] + ([sep] + tail);
      FieldsOfPrefix(fs[0], [sep] + tail, sep);
      assert ([sep] + tail)[1..] == tail;
      assert fs[0] + "" == fs[0];
    }
  }

  /** Drops the empty strings at the end of a list of fields, as split does. */
  function TrimTrailingEmpty(fs: seq<string>): (r: seq<string>)
    ensures |r| <= |fs| && r == fs[..|r|]
    ensures r == [] || r[|r| - 1] != ""
    ensures forall i :: |r| <= i < |fs| ==> fs[i] == ""
  {
    if fs == [] || fs[|fs| - 1] != "" then fs else TrimTrailingEmpty(fs[..|fs| - 1])
  }

  /** String#split with a one-character string separator (no limit). */
  function Split(s: string, sep: char): seq<string> {
    TrimTrailingEmpty(Fields(s, sep))
  }

  /** Array#[]: the element at i, or nil past the end. */
  function At(xs: seq<string>, i: nat): Option<string> {
    if i < |xs| then Some(xs[i]) else None
  }

  function DigitChar(d: nat): char
    requires d < 10
  {
    ('0' as int + d) as char
  }

  predicate AllDigits(s: string) {
    forall i :: 0 <= i < |s| ==> '0' <= s[i] <= '9'
  }

  /** Integer#to_s: base-ten digits, no leading zero except for zero itself. */
  function Decimal(n: nat): (r: string)
    ensures |r| >= 1 && AllDigits(r)
    ensures r[0] == '0' <==> n == 0
  {
    if n < 10 then [DigitChar(n)] else Decimal(n / 10) + [DigitChar(n % 10)]
  }

  /** The number a string of base-ten digits denotes. */
  function DecimalValue(s: string): nat
    requires AllDigits(s)
  {
    if s == [] then 0 else 10 * DecimalValue(s[..|s| - 1]) + (s[|s| - 1] as int - '0' as int)
  }

  /** Printing a number and reading the digits back gives the number. */
  lemma {:induction false} DecimalRoundTrip(n: nat)
    ensures DecimalValue(Decimal(n)) == n
  {
    if n >= 10 {
      var r := Decimal(n);
      assert r[..|r| - 1] == Decimal(n / 10);
      DecimalRoundTrip(n / 10);
    }
  }
}

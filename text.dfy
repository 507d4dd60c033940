/** String operations shared by the client components: JavaScript's
    `s.replace(/\s+/g, c)` restricted to ASCII whitespace, and the decimal
    rendering of a non-negative integer inside a template literal. */
module Text {

  /** ASCII whitespace as matched by `\s`: space, tab, line feed, vertical tab,
      form feed and carriage return. */
  predicate IsSpace(ch: char) {
    ch == ' ' || ch == '\t' || ch == '\n' || ch == '\r' || ch == '\U{000B}' || ch == '\U{000C}'
  }

  predicate NoSpace(s: string) {
    forall i :: 0 <= i < |s| ==> !IsSpace(s[i])
  }

  predicate AllSpace(s: string) {
    forall i :: 0 <= i < |s| ==> IsSpace(s[i])
  }

  /** `s` without its leading whitespace run. */
  function DropSpaces(s: string): (r: string)
    ensures |r| <= |s| && r == s[|s| - |r|..]
    ensures AllSpace(s[..|s| - |r|])
    ensures r == [] || !IsSpace(r[0])
  {
    if s != [] && IsSpace(s[0]) then DropSpaces(s[1..]) else s
  }

  /** `s.replace(/\s+/g, c)`: every maximal run of whitespace becomes one `c`. */
  function ReplaceSpaceRuns(s: string, c: char): (r: string)
    ensures |r| <= |s|
    decreases |s|
  {
    if s == [] then []
    else if IsSpace(s[0]) then [c] + ReplaceSpaceRuns(DropSpaces(s[1..]), c)
    else [s[0]] + ReplaceSpaceRuns(s[1..], c)
  }

  /** With a replacement that is not whitespace, no whitespace is left. */
  lemma {:induction false} ReplaceNoSpace(s: string, c: char)
    requires !IsSpace(c)
    ensures NoSpace(ReplaceSpaceRuns(s, c))
    decreases |s|
  {
    if s != [] {
      if IsSpace(s[0]) {
        ReplaceNoSpace(DropSpaces(s[1..]), c);
      } else {
        ReplaceNoSpace(s[1..], c);
      }
    }
  }

  /** A string without whitespace is left as it is. */
  lemma {:induction false} ReplaceNoSpaceIdentity(s: string, c: char)
    ensures NoSpace(s) ==> ReplaceSpaceRuns(s, c) == s
    decreases |s|
  {
    if s != [] && NoSpace(s) {
      ReplaceNoSpaceIdentity(s[1..], c);
      assert [s[0]] + s[1..] == s;
    }
  }

  /** `s` with every whitespace character and every `c` removed: what the
      replacement must leave intact. */
  function Strip(s: string, c: char): (r: string)
    ensures |r| <= |s|
  {
    if s == [] then []
    else if IsSpace(s[0]) || s[0] == c then Strip(s[1..], c)
    else [s[0]] + Strip(s[1..], c)
  }

  lemma {:induction false} StripDropSpaces(s: string, c: char)
    ensures Strip(DropSpaces(s), c) == Strip(s, c)
    decreases |s|
  {
    if s != [] && IsSpace(s[0]) {
      StripDropSpaces(s[1..], c);
    }
  }

  /** The replacement only turns whitespace into `c`: every other character
      survives, in order. */
  lemma {:induction false} ReplaceKeepsText(s: string, c: char)
    ensures Strip(ReplaceSpaceRuns(s, c), c) == Strip(s, c)
    decreases |s|
  {
    if s == [] {
    } else if IsSpace(s[0]) {
      var t := DropSpaces(s[1..]);
      ReplaceKeepsText(t, c);
      StripDropSpaces(s[1..], c);
      assert ReplaceSpaceRuns(s, c) == [c] + ReplaceSpaceRuns(t, c);
    } else {
      ReplaceKeepsText(s[1..], c);
      assert ReplaceSpaceRuns(s, c) == [s[0]] + ReplaceSpaceRuns(s[1..], c);
    }
  }

  /** Concatenation regrouped; stated once so that proofs about long
      concatenations need not rediscover it. */
  lemma ConcatAssoc<T>(x: seq<T>, y: seq<T>, z: seq<T>)
    ensures x + (y + z) == x + y + z
  {
  }

  /** Replacing distributes over a cut after a non-whitespace character. */
  lemma {:induction false} ReplaceAppend(a: string, b: string, c: char)
    requires a == [] || !IsSpace(a[|a| - 1])
    ensures ReplaceSpaceRuns(a + b, c) == ReplaceSpaceRuns(a, c) + ReplaceSpaceRuns(b, c)
    decreases |a|
  {
    if a == [] {
      assert a + b == b;
    } else {
      var ab := a + b;
      assert ab[0] == a[0];
      assert ab[1..] == a[1..] + b;
      if IsSpace(a[0]) {
        // the run starting at a[0] ends inside a, since a ends in non-whitespace
        var t := DropSpaces(a[1..]);
        assert t != [];
        DropSpacesAppend(a[1..], b);
        assert t[|t| - 1] == a[|a| - 1];
        ReplaceAppend(t, b, c);
        ConcatAssoc([c], ReplaceSpaceRuns(t, c), ReplaceSpaceRuns(b, c));
      } else {
        ReplaceAppend(a[1..], b, c);
        ConcatAssoc([a[0]], ReplaceSpaceRuns(a[1..], c), ReplaceSpaceRuns(b, c));
      }
    }
  }

  lemma {:induction false} DropSpacesAppend(a: string, b: string)
    requires DropSpaces(a) != []
    ensures DropSpaces(a + b) == DropSpaces(a) + b
    decreases |a|
  {
    assert a != [];
    assert (a + b)[0] == a[0];
    if IsSpace(a[0]) {
      assert (a + b)[1..] == a[1..] + b;
      DropSpacesAppend(a[1..], b);
    } else {
      assert DropSpaces(a) == a;
      assert DropSpaces(a + b) == a + b;
    }
  }

  lemma {:induction false} DropAllSpace(w: string, b: string)
    requires AllSpace(w)
    requires b == [] || !IsSpace(b[0])
    ensures DropSpaces(w + b) == b
    decreases |w|
  {
    if w == [] {
      assert w + b == b;
    } else {
      assert (w + b)[1..] == w[1..] + b;
      DropAllSpace(w[1..], b);
    }
  }

  lemma ReplaceLeadingRun(w: string, b: string, c: char)
    requires w != [] && AllSpace(w)
    requires b == [] || !IsSpace(b[0])
    ensures ReplaceSpaceRuns(w + b, c) == [c] + ReplaceSpaceRuns(b, c)
  {
    var wb := w + b;
    assert IsSpace(wb[0]);
    assert wb[1..] == w[1..] + b;
    DropAllSpace(w[1..], b);
  }

  /** Each maximal whitespace run between text `a` and text `b` becomes exactly
      one `c`, however long the run. */
  lemma RunBecomesOneChar(a: string, w: string, b: string, c: char)
    requires a == [] || !IsSpace(a[|a| - 1])
    requires w != [] && AllSpace(w)
    requires b == [] || !IsSpace(b[0])
    ensures ReplaceSpaceRuns(a + w + b, c) == ReplaceSpaceRuns(a, c) + [c] + ReplaceSpaceRuns(b, c)
  {
    ConcatAssoc(a, w, b);
    ReplaceAppend(a, w + b, c);
    ReplaceLeadingRun(w, b, c);
    ConcatAssoc(ReplaceSpaceRuns(a, c), [c], ReplaceSpaceRuns(b, c));
  }

  /** The parts of `x + y` can be read back by position, and the whole has no
      whitespace when neither part has any. */
  lemma AppendParts(x: string, y: string)
    ensures (x + y)[..|x|] == x && (x + y)[|x|..] == y
    ensures NoSpace(x) && NoSpace(y) ==> NoSpace(x + y)
  {
    assert (x + y)[..|x|] == x;
    assert (x + y)[|x|..] == y;
  }

  /** The parts of `pre + mid + post` can be read back by position, and the
      whole has no whitespace when no part has any. */
  lemma FramedParts(pre: string, mid: string, post: string)
    ensures var n := pre + mid + post;
              n[..|pre|] == pre && n[|pre|..|n| - |post|] == mid && n[|n| - |post|..] == post
    ensures NoSpace(pre) && NoSpace(mid) && NoSpace(post) ==> NoSpace(pre + mid + post)
  {
    var n := pre + mid + post;
    assert n[..|pre|] == pre;
    assert n[|pre|..|n| - |post|] == mid;
    assert n[|n| - |post|..] == post;
  }

  // ----- decimal numerals -----

  predicate IsDigit(ch: char) {
    '0' <= ch <= '9'
  }

  function DigitChar(d: nat): (ch: char)
    requires d < 10
    ensures IsDigit(ch) && ch as int - '0' as int == d
  {
    ('0' as int + d) as char
  }

  function DigitValue(ch: char): nat
    requires IsDigit(ch)
  {
    ch as int - '0' as int
  }

  /** `${n}` for a non-negative integer: its decimal numeral, no leading zeros. */
  function Decimal(n: nat): (r: string)
    ensures r != []
    ensures forall i :: 0 <= i < |r| ==> IsDigit(r[i])
  {
    if n < 10 then [DigitChar(n)] else Decimal(n / 10) + [DigitChar(n % 10)]
  }

  /** The number a string of decimal digits denotes. */
  function DecimalValue(s: string): nat
    requires forall i :: 0 <= i < |s| ==> IsDigit(s[i])
  {
    if s == [] then 0
    else DecimalValue(s[..|s| - 1]) * 10 + DigitValue(s[|s| - 1])
  }

  lemma {:induction false} DecimalRoundTrip(n: nat)
    ensures DecimalValue(Decimal(n)) == n
  {
    if n >= 10 {
      DecimalRoundTrip(n / 10);
      var r := Decimal(n);
      assert r[..|r| - 1] == Decimal(n / 10);
    }
  }

  /** Distinct numbers have distinct numerals. */
  lemma DecimalInjective(m: nat, n: nat)
    requires Decimal(m) == Decimal(n)
    ensures m == n
  {
    DecimalRoundTrip(m);
    DecimalRoundTrip(n);
  }
}

/** The string operations both clients rely on: Python's `str.isdigit`,
    `str.strip()`, `str.lstrip('+')`, a digit filter, `",".join` and `split(",")`.
    Characters are restricted to their ASCII meaning. */
module Text {

  /** An ASCII decimal digit. */
  predicate IsDigit(c: char) {
    '0' <= c <= '9'
  }

  /** The ASCII characters for which Python's `str.isspace` holds:
      tab, line feed, vertical tab, form feed, carriage return,
      the four separators 0x1C-0x1F, and the space. */
  predicate IsSpace(c: char) {
    c == ' ' || '\t' <= c <= '\r' || '\U{1C}' <= c <= '\U{1F}'
  }

  predicate AllDigits(s: string) {
    forall i :: 0 <= i < |s| ==> IsDigit(s[i])
  }

  predicate AllSpace(s: string) {
    forall i :: 0 <= i < |s| ==> IsSpace(s[i])
  }

  predicate HasDigit(s: string) {
    exists i :: 0 <= i < |s| && IsDigit(s[i])
  }

  /** Python's `s.isdigit()`: false on the empty string. */
  predicate IsDigitString(s: string) {
    |s| > 0 && AllDigits(s)
  }

  predicate AllPlus(s: string) {
    forall i :: 0 <= i < |s| ==> s[i] == '+'
  }

  /** `s.lstrip()`: leading whitespace removed. */
  function LStrip(s: string): (r: string)
    ensures |r| <= |s|
  {
    if s != [] && IsSpace(s[0]) then LStrip(s[1..]) else s
  }

  /** What `lstrip` leaves is the suffix that starts at the first non-space character. */
  lemma {:induction false} LStripShape(s: string)
    ensures var r := LStrip(s);
      r == s[|s| - |r|..] && AllSpace(s[..|s| - |r|]) && (r == [] || !IsSpace(r[0]))
  {
    if s != [] && IsSpace(s[0]) {
      LStripShape(s[1..]);
      var r := LStrip(s);
      assert s[..|s| - |r|] == [s[0]] + s[1..][..|s| - 1 - |r|];
    }
  }

  /** `s.rstrip()`: trailing whitespace removed. */
  function RStrip(s: string): (r: string)
    ensures |r| <= |s|
  {
    if s != [] && IsSpace(s[|s| - 1]) then RStrip(s[..|s| - 1]) else s
  }

  /** What `rstrip` leaves is the prefix that ends at the last non-space character. */
  lemma {:induction false} RStripShape(s: string)
    ensures var r := RStrip(s);
      r == s[..|r|] && AllSpace(s[|r|..]) && (r == [] || !IsSpace(r[|r| - 1]))
  {
    if s != [] && IsSpace(s[|s| - 1]) {
      RStripShape(s[..|s| - 1]);
      var r := RStrip(s);
      assert s[|r|..] == s[..|s| - 1][|r|..] + [s[|s| - 1]];
    }
  }

  /** `s.strip()`: whitespace removed from both ends. */
  function Strip(s: string): (r: string)
    ensures |r| <= |s|
    ensures r != [] ==> !IsSpace(r[0]) && !IsSpace(r[|r| - 1])
  {
    LStripShape(s);
    RStripShape(LStrip(s));
    var l := LStrip(s);
    var r := RStrip(l);
    assert r != [] ==> r[0] == l[0];
    r
  }

  /** `strip` cuts `s` into leading whitespace, the result, and trailing whitespace. */
  lemma {:induction false} StripSplit(s: string) returns (lead: string, trail: string)
    ensures s == lead + Strip(s) + trail
    ensures AllSpace(lead) && AllSpace(trail)
  {
    LStripShape(s);
    var l := LStrip(s);
    RStripShape(l);
    var r := RStrip(l);
    lead, trail := s[..|s| - |l|], l[|r|..];
    assert s == lead + l;
    assert l == r + trail;
  }

  /** `strip` gives the empty string exactly when all of `s` is whitespace. */
  lemma {:induction false} StripEmptyIff(s: string)
    ensures Strip(s) == [] <==> AllSpace(s)
  {
    var lead, trail := StripSplit(s);
    if Strip(s) == [] {
      assert s == lead + trail;
      assert forall i :: 0 <= i < |s| ==> s[i] == if i < |lead| then lead[i] else trail[i - |lead|];
    } else {
      assert s[|lead|] == Strip(s)[0];
    }
  }

  /** Stripping a string that already starts and ends with a non-space changes nothing. */
  lemma {:induction false} StripUnchanged(s: string)
    requires s != [] && !IsSpace(s[0]) && !IsSpace(s[|s| - 1])
    ensures Strip(s) == s
  {
    assert LStrip(s) == s;
  }

  /** `s.lstrip('+')`: every leading plus sign removed. */
  function LStripPlus(s: string): (r: string)
    ensures |r| <= |s|
  {
    if s != [] && s[0] == '+' then LStripPlus(s[1..]) else s
  }

  /** What `lstrip('+')` leaves is the suffix that starts at the first character other than `+`. */
  lemma {:induction false} LStripPlusShape(s: string)
    ensures var r := LStripPlus(s);
      r == s[|s| - |r|..] && AllPlus(s[..|s| - |r|]) && (r == [] || r[0] != '+')
  {
    if s != [] && s[0] == '+' {
      LStripPlusShape(s[1..]);
      var r := LStripPlus(s);
      assert s[..|s| - |r|] == [s[0]] + s[1..][..|s| - 1 - |r|];
    }
  }

  /** Removing leading plus signs stops at the first character that is not one. */
  lemma {:induction false} LStripPlusStopsAt(s: string, k: nat)
    requires k <= |s| && AllPlus(s[..k]) && (k == |s| || s[k] != '+')
    ensures LStripPlus(s) == s[k..]
  {
    if k > 0 {
      assert s[..k][0] == '+';
      var rest := s[1..];
      assert AllPlus(rest[..k - 1]) by {
        forall i | 0 <= i < k - 1 ensures rest[i] == '+' {
          assert rest[i] == s[..k][i + 1];
        }
      }
      LStripPlusStopsAt(rest, k - 1);
      assert rest[k - 1..] == s[k..];
    }
  }

  /** The digits of `s` in their original order, every other character dropped. */
  function Digits(s: string): (r: string)
    ensures AllDigits(r)
    ensures |r| <= |s|
  {
    if s == [] then [] else (if IsDigit(s[0]) then [s[0]] else []) + Digits(s[1..])
  }

  /** The digit filter distributes over concatenation, so it keeps order. */
  lemma {:induction false} DigitsAppend(a: string, b: string)
    ensures Digits(a + b) == Digits(a) + Digits(b)
  {
    if a != [] {
      assert (a + b)[1..] == a[1..] + b;
      DigitsAppend(a[1..], b);
    } else {
      assert a + b == b;
    }
  }

  /** A string of digits is its own digit filter. */
  lemma {:induction false} DigitsOfDigits(s: string)
    requires AllDigits(s)
    ensures Digits(s) == s
  {
    if s != [] {
      DigitsOfDigits(s[1..]);
    }
  }

  /** Whitespace holds no digit. */
  lemma {:induction false} DigitsOfSpace(s: string)
    requires AllSpace(s)
    ensures Digits(s) == []
  {
    if s != [] {
      DigitsOfSpace(s[1..]);
    }
  }

  /** The filter is empty exactly when the string holds no digit. */
  lemma {:induction false} DigitsEmptyIff(s: string)
    ensures Digits(s) == [] <==> !HasDigit(s)
  {
    if s != [] {
      DigitsEmptyIff(s[1..]);
      if HasDigit(s[1..]) {
        var i :| 0 <= i < |s[1..]| && IsDigit(s[1..][i]);
        assert IsDigit(s[i + 1]);
      }
      if HasDigit(s) && !IsDigit(s[0]) {
        var i :| 0 <= i < |s| && IsDigit(s[i]);
        assert IsDigit(s[1..][i - 1]);
      }
    }
  }

  /** Stripping whitespace does not change which digits a string holds. */
  lemma {:induction false} DigitsOfStrip(s: string)
    ensures Digits(Strip(s)) == Digits(s)
  {
    var lead, trail := StripSplit(s);
    var mid := Strip(s);
    DigitsAppend(lead + mid, trail);
    DigitsAppend(lead, mid);
    DigitsOfSpace(lead);
    DigitsOfSpace(trail);
  }

  /** `sep.join(xs)`: the elements in order with `sep` between neighbours. */
  function Join(xs: seq<string>, sep: char): (r: string)
    ensures |xs| == 1 ==> r == xs[0]
  {
    if |xs| == 0 then []
    else if |xs| == 1 then xs[0]
    else xs[0] + [sep] + Join(xs[1..], sep)
  }

  /** `s.split(sep)`: the pieces between separators; always at least one piece. */
  function Split(s: string, sep: char): (r: seq<string>)
    ensures |r| >= 1
    ensures forall i :: 0 <= i < |r| ==> sep !in r[i]
  {
    if s == [] then
      [[]]
    else
      var rest := Split(s[1..], sep);
      if s[0] == sep then [[]] + rest else [[s[0]] + rest[0]] + rest[1..]
  }

  /** A separator-free prefix extends the first piece of what follows it. */
  lemma {:induction false} SplitPrefix(a: string, t: string, sep: char)
    requires sep !in a
    ensures Split(a + t, sep) == [a + Split(t, sep)[0]] + Split(t, sep)[1..]
  {
    if a != [] {
      assert (a + t)[1..] == a[1..] + t;
      SplitPrefix(a[1..], t, sep);
      assert [a[0]] + (a[1..] + Split(t, sep)[0]) == a + Split(t, sep)[0];
    } else {
      assert a + t == t;
      assert a + Split(t, sep)[0] == Split(t, sep)[0];
      assert Split(t, sep) == [Split(t, sep)[0]] + Split(t, sep)[1..];
    }
  }

  /** Splitting a join recovers the pieces, provided none holds the separator. */
  lemma {:induction false} SplitJoin(xs: seq<string>, sep: char)
    requires |xs| > 0
    requires forall i :: 0 <= i < |xs| ==> sep !in xs[i]
    ensures Split(Join(xs, sep), sep) == xs
  {
    if |xs| == 1 {
      SplitPrefix(xs[0], [], sep);
      assert xs[0] + [] == xs[0];
    } else {
      var t := [sep] + Join(xs[1..], sep);
      assert Join(xs, sep) == xs[0] + t;
      SplitPrefix(xs[0], t, sep);
      SplitJoin(xs[1..], sep);
      assert t[1..] == Join(xs[1..], sep);
      assert Split(t, sep) == [[]] + xs[1..];
      assert xs[0] + [] == xs[0];
      assert xs == [xs[0]] + xs[1..];
    }
  }
}

/**
 * The few string helpers of Go's standard library that the parser relies on:
 * `strings.TrimSpace`, `strings.Fields`, `strconv.Atoi`, and the `%d` verb of
 * `fmt.Sprintf`. They work on ASCII white space and signed decimal numerals,
 * which approximates the library (see README).
 */
module Text {
  import opened Wrappers

  /** ASCII white space, the part of `unicode.IsSpace` the model covers. */
  predicate IsSpace(c: char) {
    c == ' ' || c == '\t' || c == '\n' || c == '\r' || c as int == 11 || c as int == 12
  }

  predicate NoSpace(s: string) {
    forall i :: 0 <= i < |s| ==> !IsSpace(s[i])
  }

  predicate AllSpace(s: string) {
    forall i :: 0 <= i < |s| ==> IsSpace(s[i])
  }

  /** `s` with leading white space removed. */
  function TrimLeft(s: string): (r: string)
    ensures |r| <= |s|
  {
    if s != [] && IsSpace(s[0]) then TrimLeft(s[1..]) else s
  }

  /** `TrimLeft` keeps a suffix and cuts exactly the leading white space. */
  lemma {:induction false} TrimLeftSpec(s: string)
    ensures var r := TrimLeft(s);
      r == s[|s| - |r|..] && AllSpace(s[..|s| - |r|]) && (r == [] || !IsSpace(r[0]))
  {
    if s != [] && IsSpace(s[0]) {
      TrimLeftSpec(s[1..]);
      var r := TrimLeft(s);
      assert s[..|s| - |r|] == [s[0]] + s[1..][..|s| - 1 - |r|];
    }
  }

  /** `s` with trailing white space removed. */
  function TrimRight(s: string): (r: string)
    ensures |r| <= |s|
  {
    if s != [] && IsSpace(s[|s| - 1]) then TrimRight(s[..|s| - 1]) else s
  }

  /** `TrimRight` keeps a prefix and cuts exactly the trailing white space. */
  lemma {:induction false} TrimRightSpec(s: string)
    ensures var r := TrimRight(s);
      r == s[..|r|] && AllSpace(s[|r|..]) && (r == [] || !IsSpace(r[|r| - 1]))
  {
    if s != [] && IsSpace(s[|s| - 1]) {
      TrimRightSpec(s[..|s| - 1]);
      var r := TrimRight(s);
      assert s[|r|..] == s[..|s| - 1][|r|..] + [s[|s| - 1]];
    }
  }

  /** `strings.TrimSpace`: `s` with white space cut from both ends. */
  function TrimSpace(s: string): (r: string)
    ensures |r| <= |s|
  {
    TrimRight(TrimLeft(s))
  }

  /**
   * `TrimSpace` leaves no white space at either end, is empty exactly for blank
   * text, and leaves text that has none at its ends unchanged.
   */
  lemma TrimSpaceSpec(s: string)
    ensures var r := TrimSpace(s);
      (r == [] || (!IsSpace(r[0]) && !IsSpace(r[|r| - 1]))) &&
      (r == [] <==> AllSpace(s)) &&
      ((s == [] || (!IsSpace(s[0]) && !IsSpace(s[|s| - 1]))) ==> r == s)
  {
    var l := TrimLeft(s);
    TrimLeftSpec(s);
    TrimRightSpec(l);
    var r := TrimRight(l);
    if r == [] {
      assert s == s[..|s| - |l|] + l;
    } else {
      assert r[0] == l[0];
    }
  }

  /** Text that starts and ends with a non-space character is unchanged by trimming. */
  lemma TrimSpaceUnpadded(s: string)
    requires s != [] && !IsSpace(s[0]) && !IsSpace(s[|s| - 1])
    ensures TrimSpace(s) == s
  {
    TrimSpaceSpec(s);
  }

  /** Leading white space before text that starts with none is exactly what `TrimLeft` removes. */
  lemma {:induction false} TrimLeftSpaces(sp: string, w: string)
    requires AllSpace(sp) && (w == [] || !IsSpace(w[0]))
    ensures TrimLeft(sp + w) == w
    decreases |sp|
  {
    if sp == [] {
      assert sp + w == w;
    } else {
      assert (sp + w)[0] == sp[0];
      assert (sp + w)[1..] == sp[1..] + w;
      TrimLeftSpaces(sp[1..], w);
    }
  }

  /** Trailing white space after text that ends with none is exactly what `TrimRight` removes. */
  lemma {:induction false} TrimRightSpaces(w: string, sp: string)
    requires AllSpace(sp) && (w == [] || !IsSpace(w[|w| - 1]))
    ensures TrimRight(w + sp) == w
    decreases |sp|
  {
    if sp == [] {
      assert w + sp == w;
    } else {
      var sp' := sp[..|sp| - 1];
      assert (w + sp)[|w + sp| - 1] == sp[|sp| - 1];
      assert (w + sp)[..|w + sp| - 1] == w + sp';
      TrimRightSpaces(w, sp');
    }
  }

  /** `TrimSpace` of a word padded with white space on both sides is the word. */
  lemma TrimSpaceSurrounded(left: string, w: string, right: string)
    requires AllSpace(left) && AllSpace(right)
    requires w != [] && !IsSpace(w[0]) && !IsSpace(w[|w| - 1])
    ensures TrimSpace(left + w + right) == w
  {
    assert left + w + right == left + (w + right);
    assert (w + right)[0] == w[0];
    TrimLeftSpaces(left, w + right);
    TrimRightSpaces(w, right);
  }

  /** Length of the leading run of non-space characters. */
  function WordLength(s: string): (n: nat)
    ensures n <= |s|
  {
    if s == [] || IsSpace(s[0]) then 0 else 1 + WordLength(s[1..])
  }

  /** `WordLength` stops at the first white space, or at the end. */
  lemma {:induction false} WordLengthSpec(s: string)
    ensures var n := WordLength(s); NoSpace(s[..n]) && (n < |s| ==> IsSpace(s[n]))
  {
    if s != [] && !IsSpace(s[0]) {
      WordLengthSpec(s[1..]);
      var n := WordLength(s);
      assert s[..n] == [s[0]] + s[1..][..n - 1];
    }
  }

  /** `strings.Fields`: the maximal runs of non-space characters of `s`, in order. */
  function Fields(s: string): seq<string>
    decreases |s|
  {
    if s == [] then []
    else if IsSpace(s[0]) then Fields(s[1..])
    else
      var n := WordLength(s);
      [s[..n]] + Fields(s[n..])
  }

  /** Every field is a non-empty word. */
  lemma {:induction false} FieldsSpec(s: string)
    ensures var fs := Fields(s); forall i :: 0 <= i < |fs| ==> fs[i] != [] && NoSpace(fs[i])
    decreases |s|
  {
    if s == [] {
    } else if IsSpace(s[0]) {
      assert Fields(s) == Fields(s[1..]);
      FieldsSpec(s[1..]);
    } else {
      var n := WordLength(s);
      WordLengthSpec(s);
      FieldsSpec(s[n..]);
      assert Fields(s) == [s[..n]] + Fields(s[n..]);
      assert s[..n] != [] by { assert n >= 1; }
    }
  }

  function DigitValue(c: char): int {
    (c as int) - ('0' as int)
  }

  predicate IsDigit(c: char) {
    '0' <= c <= '9'
  }

  predicate AllDigits(s: string) {
    forall i :: 0 <= i < |s| ==> IsDigit(s[i])
  }

  /** The value of a string of decimal digits, most significant first. */
  function DigitsValue(s: string): nat
    requires AllDigits(s)
  {
    if s == [] then 0 else 10 * DigitsValue(s[..|s| - 1]) + DigitValue(s[|s| - 1])
  }

  /**
   * `strconv.Atoi` without its range check: an optional sign followed by one
   * or more digits. Leading zeros are accepted ("05" is 5), and so are "+5"
   * and "-0".
   */
  function Atoi(s: string): (r: Option<int>)
    ensures r.Some? ==> s != [] && !IsSpace(s[0])
    ensures s != [] && IsDigit(s[0]) ==> (r.Some? <==> AllDigits(s))
    ensures r.Some? <==> (s != [] && AllDigits(s)) || (|s| >= 2 && (s[0] == '-' || s[0] == '+') && AllDigits(s[1..]))
    ensures s != [] && AllDigits(s) ==> r == Some(DigitsValue(s))
    ensures |s| >= 2 && s[0] == '-' && AllDigits(s[1..]) ==> r == Some(-(DigitsValue(s[1..]) as int))
    ensures |s| >= 2 && s[0] == '+' && AllDigits(s[1..]) ==> r == Some(DigitsValue(s[1..]) as int)
  {
    if |s| >= 1 && (s[0] == '-' || s[0] == '+') then
      var digits := s[1..];
      if digits != [] && AllDigits(digits) then
        Some(if s[0] == '-' then -(DigitsValue(digits) as int) else DigitsValue(digits))
      else None
    else if s != [] && AllDigits(s) then Some(DigitsValue(s))
    else None
  }

  function DigitChar(d: nat): (c: char)
    requires d < 10
    ensures IsDigit(c) && DigitValue(c) == d
  {
    ('0' as int + d) as char
  }

  /** The decimal digits of `n`, with no leading zero. */
  function NatToString(n: nat): (s: string)
    ensures s != [] && AllDigits(s)
    ensures |s| > 1 ==> s[0] != '0'
  {
    if n < 10 then [DigitChar(n)] else NatToString(n / 10) + [DigitChar(n % 10)]
  }

  /** The `%d` rendering of an integer: a minus sign for negatives, then the digits. */
  function Itoa(n: int): (s: string)
    ensures s != [] && NoSpace(s)
  {
    if n < 0 then "-" + NatToString(-n) else NatToString(n)
  }

  lemma {:induction false} NatToStringValue(n: nat)
    ensures DigitsValue(NatToString(n)) == n
  {
    if n >= 10 {
      NatToStringValue(n / 10);
      var s := NatToString(n);
      assert s[..|s| - 1] == NatToString(n / 10);
    }
  }

  /** Numerals that are not `%d` renderings: a leading zero, an explicit plus, a negative zero, and a bare sign. */
  lemma AtoiNonCanonical()
    ensures Atoi("05") == Some(5)
    ensures Atoi("+5") == Some(5)
    ensures Atoi("-0") == Some(0)
    ensures Atoi("-") == None && Atoi("+") == None && Atoi("") == None
  {
    assert DigitsValue("05") == 10 * DigitsValue("0") + 5 by {
      assert "05"[..1] == "0";
    }
    assert "+5"[1..] == "5";
    assert "-0"[1..] == "0";
  }

  /** Parsing a rendered integer gives it back. */
  lemma AtoiItoa(n: int)
    ensures Atoi(Itoa(n)) == Some(n)
  {
    var s := Itoa(n);
    if n < 0 {
      var digits := NatToString(-n);
      NatToStringValue(-n);
      assert s == "-" + digits;
      assert s[0] == '-' && s[1..] == digits;
      assert Atoi(s) == Some(-(DigitsValue(digits) as int));
    } else {
      NatToStringValue(n);
      assert IsDigit(s[0]);
      assert Atoi(s) == Some(DigitsValue(s));
    }
  }

  lemma {:induction false} WordLengthOf(a: string, rest: string)
    requires NoSpace(a)
    requires rest == [] || IsSpace(rest[0])
    ensures WordLength(a + rest) == |a|
  {
    if a != [] {
      assert (a + rest)[1..] == a[1..] + rest;
      WordLengthOf(a[1..], rest);
    } else if rest != [] {
      assert (a + rest)[0] == rest[0];
    }
  }

  /** A word followed by nothing or by white space is the first field. */
  lemma FieldsCons(a: string, rest: string)
    requires a != [] && NoSpace(a)
    requires rest == [] || IsSpace(rest[0])
    ensures Fields(a + rest) == [a] + Fields(rest)
  {
    WordLengthOf(a, rest);
    assert (a + rest)[..|a|] == a;
    assert (a + rest)[|a|..] == rest;
  }

  /** Leading white space is never part of a field. */
  lemma {:induction false} FieldsSkipSpace(sp: string, s: string)
    requires AllSpace(sp)
    ensures Fields(sp + s) == Fields(s)
  {
    if sp != [] {
      assert IsSpace(sp[0]);
      assert (sp + s)[0] == sp[0];
      assert (sp + s)[1..] == sp[1..] + s;
      FieldsSkipSpace(sp[1..], s);
    } else {
      assert sp + s == s;
    }
  }

  /** A word followed by a space and more text is the first field. */
  lemma FieldsWordSpace(a: string, rest: string)
    requires a != [] && NoSpace(a)
    ensures Fields(a + " " + rest) == [a] + Fields(rest)
  {
    assert a + " " + rest == a + (" " + rest);
    FieldsCons(a, " " + rest);
    FieldsSkipSpace(" ", rest);
  }

  /** Fields of three words joined by single spaces are those words. */
  lemma Fields3(a: string, b: string, c: string)
    requires a != [] && NoSpace(a) && b != [] && NoSpace(b) && c != [] && NoSpace(c)
    ensures Fields(a + " " + b + " " + c) == [a, b, c]
  {
    FieldsCons(c, []);
    assert c + [] == c;
    FieldsWordSpace(b, c);
    assert a + " " + b + " " + c == a + " " + (b + " " + c);
    FieldsWordSpace(a, b + " " + c);
  }

  /** Three words separated by the same run of white space split into those words. */
  lemma FieldsGaps3(a: string, gap: string, b: string, c: string)
    requires a != [] && NoSpace(a) && b != [] && NoSpace(b) && c != [] && NoSpace(c)
    requires gap != [] && AllSpace(gap)
    ensures Fields(a + gap + b + gap + c) == [a, b, c]
  {
    var tail := gap + c;
    var mid := gap + (b + tail);
    assert a + gap + b + gap + c == a + mid;
    assert c + [] == c;
    FieldsSkipSpace(gap, c);
    FieldsCons(c, []);
    assert Fields(tail) == [c];
    FieldsCons(b, tail);
    FieldsSkipSpace(gap, b + tail);
    assert Fields(mid) == [b, c];
    FieldsCons(a, mid);
  }

  /** Fields of four words joined by single spaces are those words. */
  lemma Fields4(a: string, b: string, c: string, d: string)
    requires a != [] && NoSpace(a) && b != [] && NoSpace(b) && c != [] && NoSpace(c) && d != [] && NoSpace(d)
    ensures Fields(a + " " + b + " " + c + " " + d) == [a, b, c, d]
  {
    var t := b + " " + c + " " + d;
    assert a + " " + b + " " + c + " " + d == a + " " + t;
    Fields3(b, c, d);
    FieldsWordSpace(a, t);
    assert Fields(a + " " + t) == [a] + [b, c, d];
  }
}

/** The numeric text inputs of the forms (src/pages/AddProduct.tsx,
    src/pages/Transactions.tsx): every keystroke passes through a sanitiser
    that drops all but the decimal digits, and the submitted text is read back
    with `parseInt`. */
module Digits {
  import opened Js
  import opened Seqs

  predicate IsDigit(c: char) { '0' <= c <= '9' }

  predicate AllDigits(s: string) { forall i :: 0 <= i < |s| ==> IsDigit(s[i]) }

  /** `value.replace(/[^0-9]/g, '')`. */
  function Sanitize(s: string): (r: string)
    ensures AllDigits(r)
    ensures |r| <= |s|
  {
    Filter(s, IsDigit)
  }

  /** The sanitiser keeps exactly the digits of its input, in order, and is
      the identity on text that is already all digits. */
  lemma SanitizeExact(s: string)
    ensures forall c :: c in Sanitize(s) <==> c in s && IsDigit(c)
    ensures AllDigits(s) ==> Sanitize(s) == s
  {
    FilterMembers(s, IsDigit);
    if AllDigits(s) {
      FilterKeepsAll(s, IsDigit);
    }
  }

  /** Sanitising twice is sanitising once. */
  lemma SanitizeIdempotent(s: string)
    ensures Sanitize(Sanitize(s)) == Sanitize(s)
  {
    SanitizeExact(Sanitize(s));
  }

  /** The decimal value of a digit string, most significant digit first. */
  function Value(s: string): nat
    requires AllDigits(s)
  {
    if s == [] then 0 else Value(s[..|s| - 1]) * 10 + (s[|s| - 1] as int - '0' as int)
  }

  /** Length of the longest all-digit prefix. */
  function LeadingDigits(s: string): (k: nat)
    ensures k <= |s|
    ensures AllDigits(s[..k])
    ensures k < |s| ==> !IsDigit(s[k])
  {
    if s == [] || !IsDigit(s[0]) then 0
    else
      var k := 1 + LeadingDigits(s[1..]);
      assert s[..k] == [s[0]] + s[1..][..k - 1];
      k
  }

  /** `parseInt(s)` on text without leading blanks or sign: the value of the
      leading digits, or `NaN` (here `None`) when there are none. */
  function ParseInt(s: string): (r: Option<nat>)
    ensures r.None? <==> s == [] || !IsDigit(s[0])
  {
    var k := LeadingDigits(s);
    if k == 0 then None else Some(Value(s[..k]))
  }

  /** On sanitised text, `parseInt` fails exactly on the empty string, and
      otherwise reads the whole string. */
  lemma ParseSanitized(s: string)
    requires AllDigits(s)
    ensures ParseInt(s).None? <==> s == []
    ensures s != [] ==> ParseInt(s) == Some(Value(s))
  {
    assert s[..|s|] == s;
  }

  /** `parseInt(x) > 0`, false for `NaN`. */
  predicate Positive(n: Option<nat>) { n.Some? && n.value > 0 }

  /** Leading zeros are read away, and parsing stops at the first non-digit. */
  lemma ParseExamples()
    ensures ParseInt("007") == Some(7)
    ensures ParseInt("12a3") == Some(12)
    ensures ParseInt("") == None
    ensures ParseInt("a1") == None
  {
    assert LeadingDigits("007") == 3 by {
      assert LeadingDigits("7") == 1 by { assert "7"[1..] == ""; }
      assert "07"[1..] == "7";
      assert "007"[1..] == "07";
    }
    assert "007"[..3] == "007";
    assert Value("007") == 7 by {
      assert "007"[..2] == "00";
      assert "00"[..1] == "0";
      assert "0"[..0] == "";
    }
    assert LeadingDigits("12a3") == 2 by {
      assert "a3"[0] == 'a';
      assert "2a3"[1..] == "a3";
      assert "12a3"[1..] == "2a3";
    }
    assert "12a3"[..2] == "12";
    assert Value("12") == 12 by {
      assert "12"[..1] == "1";
      assert "1"[..0] == "";
    }
  }
}

/** The few JavaScript value semantics the application depends on, stated
    once: nullable values and the `??` operator, `Math.round`, rounding to two
    decimals, `String.prototype.trim`, and the "first n characters plus an
    ellipsis" label shortening used by the charts. Numbers that the
    application treats as floating point are `real` here; strings are sequences of
    Unicode scalar values rather than UTF-16 code units. */
module Js {

  /** A value that may be `null` or `undefined`. */
  datatype Option<T> = None | Some(value: T)

  /** `a ?? b`: the fallback is taken only when `a` is absent. */
  function Coalesce<T>(a: Option<T>, b: T): T
  {
    match a
    case Some(v) => v
    case None => b
  }

  /** `Math.round(x)`: rounds half-way cases up, i.e. floor(x + 0.5). */
  function Round(x: real): (r: int)
    ensures x - 0.5 < r as real <= x + 0.5
  {
    (x + 0.5).Floor
  }

  /** `Math.round(x * 100) / 100`: rounding to two decimals. */
  function Round2(x: real): (r: real)
    ensures x - 0.005 < r <= x + 0.005
  {
    Round(x * 100.0) as real / 100.0
  }

  /** `Math.round` of an integer is that integer. */
  lemma RoundOfInt(n: int)
    ensures Round(n as real) == n
  {
  }

  /** `Math.round` is monotone. */
  lemma RoundMonotone(x: real, y: real)
    requires x <= y
    ensures Round(x) <= Round(y)
  {
  }

  /** The characters `String.prototype.trim` removes: white space and line
      terminators, by code point. */
  predicate IsSpace(c: char)
  {
    var n := c as int;
    n == 0x09 || n == 0x0A || n == 0x0B || n == 0x0C || n == 0x0D || n == 0x20
    || n == 0xA0 || n == 0x1680 || (0x2000 <= n <= 0x200A) || n == 0x2028
    || n == 0x2029 || n == 0x202F || n == 0x205F || n == 0x3000 || n == 0xFEFF
  }

  /** Number of leading white-space characters. */
  function LeadingSpaces(s: string): (k: nat)
    ensures k <= |s|
    ensures forall i :: 0 <= i < k ==> IsSpace(s[i])
    ensures k < |s| ==> !IsSpace(s[k])
  {
    if |s| == 0 || !IsSpace(s[0]) then 0 else 1 + LeadingSpaces(s[1..])
  }

  /** Length of `s` without its trailing white space. */
  function ContentEnd(s: string): (j: nat)
    ensures j <= |s|
    ensures forall i :: j <= i < |s| ==> IsSpace(s[i])
    ensures j > 0 ==> !IsSpace(s[j - 1])
  {
    if |s| == 0 || !IsSpace(s[|s| - 1]) then |s| else ContentEnd(s[..|s| - 1])
  }

  /** `s.trim()`. */
  function Trim(s: string): (r: string)
    ensures |r| <= |s|
    ensures r != [] ==> !IsSpace(r[0]) && !IsSpace(r[|r| - 1])
    ensures exists i, j ::
              && 0 <= i <= j <= |s| && r == s[i..j]
              && (forall k :: 0 <= k < i ==> IsSpace(s[k]))
              && (forall k :: j <= k < |s| ==> IsSpace(s[k]))
  {
    var i := LeadingSpaces(s);
    var t := s[i..];
    TrimSpan(s, i, t);
    t[..ContentEnd(t)]
  }

  /** The trimmed text sits between the leading blanks and the trailing ones. */
  lemma TrimSpan(s: string, i: nat, t: string)
    requires i == LeadingSpaces(s) && t == s[i..]
    ensures i + ContentEnd(t) <= |s| && t[..ContentEnd(t)] == s[i..i + ContentEnd(t)]
    ensures forall k :: 0 <= k < i ==> IsSpace(s[k])
    ensures forall k :: i + ContentEnd(t) <= k < |s| ==> IsSpace(s[k])
  {
    TrailingSpaces(s, i, t);
  }

  lemma TrailingSpaces(s: string, i: nat, t: string)
    requires i <= |s| && t == s[i..]
    ensures forall k :: i + ContentEnd(t) <= k < |s| ==> IsSpace(s[k])
  {
    var j := i + ContentEnd(t);
    forall k | j <= k < |s|
      ensures IsSpace(s[k])
    {
      assert s[k] == t[k - i];
    }
  }

  /** `!s.trim()` holds exactly when `s` consists of white space only. */
  lemma TrimBlank(s: string)
    ensures Trim(s) == [] <==> forall i :: 0 <= i < |s| ==> IsSpace(s[i])
  {
    var k := LeadingSpaces(s);
    var t := s[k..];
    if k < |s| {
      assert t[0] == s[k];
      assert ContentEnd(t) > 0;
    }
  }

  /** Trimming a string that has no surrounding white space leaves it as is. */
  lemma TrimIdempotent(s: string)
    ensures Trim(Trim(s)) == Trim(s)
  {
    var r := Trim(s);
    if r != [] {
      assert LeadingSpaces(r) == 0;
      assert r[LeadingSpaces(r)..] == r;
    }
  }

  /** `s.length > n ? s.substring(0, n) + '...' : s`. */
  function Ellipsize(s: string, n: nat): (r: string)
  {
    if |s| > n then s[..n] + "..." else s
  }

  /** A shortened label is at most three characters longer than the limit,
      starts with the original's first characters, and is the original
      itself whenever that already fits. */
  lemma EllipsizeBounds(s: string, n: nat)
    ensures |Ellipsize(s, n)| <= n + 3
    ensures |s| <= n ==> Ellipsize(s, n) == s
    ensures |s| > n ==> |Ellipsize(s, n)| == n + 3 && Ellipsize(s, n)[..n] == s[..n]
  {
  }
}

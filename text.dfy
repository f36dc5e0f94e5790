/**
 * String operations the recommender relies on, written as Python performs them:
 * substring containment (`t in s`), `str.strip()`, `str.split(',')`,
 * `str.replace(" ", "")`, `int(s)` on a decimal string and `str(i)` on an int.
 */
module Text {

  import opened Wrappers

  /** `t in s` for Python strings: t occurs as a contiguous slice of s. */
  predicate Contains(s: string, t: string)
  {
    exists i | 0 <= i && i + |t| <= |s| :: OccursAt(s, t, i)
  }

  /** t stands in s starting at position i. */
  predicate OccursAt(s: string, t: string, i: int)
  {
    0 <= i && i + |t| <= |s| && s[i..i + |t|] == t
  }

  /** A witnessed occurrence is an occurrence. */
  lemma ContainsAt(s: string, t: string, i: int)
    requires 0 <= i && i + |t| <= |s| && s[i..i + |t|] == t
    ensures Contains(s, t)
  {
    assert OccursAt(s, t, i);
  }

  /** Containment is transitive: a query holding "안무서운" also holds "무서운". */
  lemma ContainsTransitive(s: string, t: string, u: string)
    requires Contains(s, t) && Contains(t, u)
    ensures Contains(s, u)
  {
    var i :| OccursAt(s, t, i);
    var j :| OccursAt(t, u, j);
    assert OccursAt(s, t, i) && OccursAt(t, u, j);
    var n := |u|;
    assert forall k :: 0 <= k < n ==> s[i + j + k] == t[j + k] == u[k];
    assert s[i + j..i + j + n] == u;
    ContainsAt(s, u, i + j);
  }

  /**
   * The ASCII characters `str.strip()` removes: space, \t, \n, \r, \v, \f and the
   * separators U+001C to U+001F.
   */
  predicate IsSpace(c: char)
  {
    c == ' ' || c == '\t' || c == '\n' || c == '\r' || c == '\U{000B}' || c == '\U{000C}'
    || ('\U{001C}' <= c <= '\U{001F}')
  }

  /** The first index from i on that does not hold whitespace (|s| if there is none). */
  function SkipSpaces(s: string, i: nat): (n: nat)
    requires i <= |s|
    ensures i <= n <= |s|
    ensures n < |s| ==> !IsSpace(s[n])
    decreases |s| - i
  {
    if i < |s| && IsSpace(s[i]) then SkipSpaces(s, i + 1) else i
  }

  /** The end of the text in s[i..j] once the whitespace it ends with is dropped. */
  function TrimEnd(s: string, i: nat, j: nat): (e: nat)
    requires i <= j <= |s|
    ensures i <= e <= j
    ensures i < e ==> !IsSpace(s[e - 1])
  {
    if i < j && IsSpace(s[j - 1]) then TrimEnd(s, i, j - 1) else j
  }

  lemma {:induction false} SkippedAreSpaces(s: string, i: nat)
    requires i <= |s|
    ensures forall k :: i <= k < SkipSpaces(s, i) ==> IsSpace(s[k])
    decreases |s| - i
  {
    if i < |s| && IsSpace(s[i]) {
      SkippedAreSpaces(s, i + 1);
    }
  }

  lemma {:induction false} TrimmedAreSpaces(s: string, i: nat, j: nat)
    requires i <= j <= |s|
    ensures forall k :: TrimEnd(s, i, j) <= k < j ==> IsSpace(s[k])
  {
    if i < j && IsSpace(s[j - 1]) {
      TrimmedAreSpaces(s, i, j - 1);
    }
  }

  /** How many whitespace characters s starts with. */
  function LeadingSpaces(s: string): (n: nat)
    ensures n <= |s|
  {
    SkipSpaces(s, 0)
  }

  /** Where the text that `s.strip()` keeps ends: before the whitespace s ends with. */
  function StripEnd(s: string): nat
    requires LeadingSpaces(s) <= |s|
  {
    TrimEnd(s, LeadingSpaces(s), |s|)
  }

  /**
   * The two cuts of `s.strip()`: whitespace before the first and from the second on,
   * and none at either end of what lies between, which is empty exactly when s is
   * all whitespace.
   */
  lemma StripCuts(s: string)
    ensures var i, j := LeadingSpaces(s), StripEnd(s);
      && i <= j <= |s|
      && (forall k :: 0 <= k < i ==> IsSpace(s[k]))
      && (forall k :: j <= k < |s| ==> IsSpace(s[k]))
      && (i < j ==> !IsSpace(s[i]) && !IsSpace(s[j - 1]))
      && (i == j <==> forall k :: 0 <= k < |s| ==> IsSpace(s[k]))
  {
    SkippedAreSpaces(s, 0);
    TrimmedAreSpaces(s, LeadingSpaces(s), |s|);
  }

  /**
   * `s.strip()`: the result is the slice of s that starts after the leading
   * whitespace; everything before and after it is whitespace, it neither starts nor
   * ends with whitespace, and it is empty exactly when s is all whitespace.
   */
  function Strip(s: string): (r: string)
    ensures r == [] || (!IsSpace(r[0]) && !IsSpace(r[|r| - 1]))
    ensures LeadingSpaces(s) + |r| <= |s| && r == s[LeadingSpaces(s)..LeadingSpaces(s) + |r|]
    ensures forall k :: 0 <= k < LeadingSpaces(s) ==> IsSpace(s[k])
    ensures forall k :: LeadingSpaces(s) + |r| <= k < |s| ==> IsSpace(s[k])
    ensures r == [] <==> forall k :: 0 <= k < |s| ==> IsSpace(s[k])
    ensures Contains(s, r)
  {
    StripCuts(s);
    ContainsAt(s, s[LeadingSpaces(s)..StripEnd(s)], LeadingSpaces(s));
    s[LeadingSpaces(s)..StripEnd(s)]
  }

  /** A character absent from a string is absent from its stripped form. */
  lemma StripKeepsOut(s: string, c: char)
    requires c !in s
    ensures c !in Strip(s)
  {
    var r := Strip(s);
    var i :| OccursAt(s, r, i);
    assert OccursAt(s, r, i);
    forall k | 0 <= k < |r| ensures r[k] != c {
      assert r[k] == s[i..i + |r|][k] == s[i + k];
    }
  }

  /** `s.split(sep)` for a one-character separator: never empty, and no part holds sep. */
  function Split(s: string, sep: char): (parts: seq<string>)
    ensures |parts| >= 1
    ensures forall k :: 0 <= k < |parts| ==> sep !in parts[k]
    ensures sep !in s ==> parts == [s]
    ensures sep in s ==> |parts| >= 2
  {
    if s == [] then [[]]
    else
      var rest := Split(s[1..], sep);
      assert s == [s[0]] + s[1..];
      if s[0] == sep then [[]] + rest
      else [[s[0]] + rest[0]] + rest[1..]
  }

  /** Joining the parts of `Split` with the separator gives back the string. */
  function Join(parts: seq<string>, sep: char): string
  {
    if |parts| == 0 then []
    else if |parts| == 1 then parts[0]
    else parts[0] + [sep] + Join(parts[1..], sep)
  }

  lemma {:induction false} SplitJoin(s: string, sep: char)
    ensures Join(Split(s, sep), sep) == s
  {
    if s != [] {
      SplitJoin(s[1..], sep);
      var rest := Split(s[1..], sep);
      if s[0] != sep {
        if |rest| > 1 {
          assert [s[0]] + rest[0] + [sep] + Join(rest[1..], sep) == [s[0]] + Join(rest, sep);
        }
      }
    }
  }

  /** `[n.strip() for n in s.split(',')]`, the nickname list of a comma-joined string. */
  function SplitStrip(s: string): (names: seq<string>)
    ensures |names| == |Split(s, ',')|
    ensures forall k :: 0 <= k < |names| ==> names[k] == Strip(Split(s, ',')[k])
  {
    var parts := Split(s, ',');
    seq(|parts|, k requires 0 <= k < |parts| => Strip(parts[k]))
  }

  /**
   * `s.replace(" ", "")`: no space is left, every other character occurs as often as
   * in s, and a string without spaces is kept as it is; with RemoveSpacesConcat and
   * RemoveSpacesDropsSpace, the other characters keep their order.
   */
  function RemoveSpaces(s: string): (r: string)
    ensures ' ' !in r
    ensures |r| <= |s|
    ensures forall c :: c != ' ' ==> multiset(r)[c] == multiset(s)[c]
    ensures ' ' !in s ==> r == s
  {
    if s == [] then []
    else
      assert s == [s[0]] + s[1..];
      if s[0] == ' ' then RemoveSpaces(s[1..])
      else [s[0]] + RemoveSpaces(s[1..])
  }

  /** Removing spaces works piece by piece: the result of a concatenation is the concatenation of the results. */
  lemma {:induction false} RemoveSpacesConcat(a: string, b: string)
    ensures RemoveSpaces(a + b) == RemoveSpaces(a) + RemoveSpaces(b)
  {
    if a != [] {
      var ab := a + b;
      assert ab != [] && ab[0] == a[0] && ab[1..] == a[1..] + b;
      RemoveSpacesConcat(a[1..], b);
      if a[0] != ' ' {
        assert RemoveSpaces(ab) == [a[0]] + (RemoveSpaces(a[1..]) + RemoveSpaces(b));
      }
    } else {
      assert a + b == b;
    }
  }

  /** A space between two pieces is dropped and the pieces are kept, in order, around it. */
  lemma RemoveSpacesDropsSpace(a: string, b: string)
    ensures RemoveSpaces(a + [' '] + b) == RemoveSpaces(a) + RemoveSpaces(b)
  {
    RemoveSpacesConcat(a + [' '], b);
    RemoveSpacesConcat(a, [' ']);
  }

  /** Removing spaces twice removes nothing more. */
  lemma {:induction false} RemoveSpacesIdempotent(s: string)
    ensures RemoveSpaces(RemoveSpaces(s)) == RemoveSpaces(s)
  {
    if s != [] {
      RemoveSpacesIdempotent(s[1..]);
    }
  }

  predicate IsDigit(c: char)
  {
    '0' <= c <= '9'
  }

  function DigitValue(c: char): (d: nat)
    requires IsDigit(c)
    ensures d < 10
  {
    (c as int) - ('0' as int)
  }

  function DigitChar(d: nat): (c: char)
    requires d < 10
    ensures IsDigit(c) && DigitValue(c) == d
  {
    (('0' as int) + d) as char
  }

  predicate AllDigits(s: string)
  {
    forall k :: 0 <= k < |s| ==> IsDigit(s[k])
  }

  /** Value of a non-empty string of decimal digits, most significant first. */
  function DigitsValue(s: string): nat
    requires AllDigits(s)
  {
    if s == [] then 0 else 10 * DigitsValue(s[..|s| - 1]) + DigitValue(s[|s| - 1])
  }

  /** Decimal digits of a natural number, without leading zeros (`str(n)` for n >= 0). */
  function NatToDigits(n: nat): (s: string)
    ensures s != [] && AllDigits(s)
  {
    if n < 10 then [DigitChar(n)] else NatToDigits(n / 10) + [DigitChar(n % 10)]
  }

  /** `str(i)` for a Python int. */
  function IntToString(i: int): (s: string)
    ensures s != []
  {
    if i < 0 then "-" + NatToDigits(-i) else NatToDigits(i)
  }

  /**
   * `int(s)` for a string: an optional sign followed by at least one ASCII digit;
   * None where Python raises ValueError.
   */
  function ParseInt(s: string): (r: Option<int>)
  {
    if |s| > 0 && (s[0] == '-' || s[0] == '+') then
      var digits := s[1..];
      if digits != [] && AllDigits(digits) then
        var v: int := DigitsValue(digits);
        Some(if s[0] == '-' then -v else v)
      else None
    else if s != [] && AllDigits(s) then Some(DigitsValue(s))
    else None
  }

  lemma {:induction false} DigitsRoundTrip(n: nat)
    ensures DigitsValue(NatToDigits(n)) == n
  {
    if n >= 10 {
      DigitsRoundTrip(n / 10);
      var s := NatToDigits(n / 10) + [DigitChar(n % 10)];
      assert s[..|s| - 1] == NatToDigits(n / 10);
    }
  }

  /** `int(str(i)) == i`: an id written as a string parses back to the same id. */
  lemma ParseIntRoundTrip(i: int)
    ensures ParseInt(IntToString(i)) == Some(i)
  {
    if i < 0 {
      DigitsRoundTrip(-i);
      assert IntToString(i)[1..] == NatToDigits(-i);
    } else {
      DigitsRoundTrip(i);
    }
  }
}

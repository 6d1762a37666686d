/** The three .NET Framework conversions LoadSettings relies on
    (Source/TimeZone.cs:121, 126, 131): Int32.Parse with the default
    NumberStyles.Integer, Boolean.Parse, and Int32.ToString. Each is stated
    for the invariant signs "+" and "-". A `None` argument is a null string;
    a `None` result is the exception the conversion throws (null argument,
    bad format or overflow). */
module NetParse {
  import opened Wrappers
  import opened Clr

  // ---- Characters

  /** The white space NumberStyles.AllowLeadingWhite / AllowTrailingWhite
      skip: U+0009 to U+000D and U+0020. */
  predicate IsNumberWhite(c: char)
  {
    c == ' ' || '\t' <= c <= '\r'
  }

  predicate IsDigit(c: char)
  {
    '0' <= c <= '9'
  }

  /** Char.IsWhiteSpace: the Latin-1 white space and the Unicode space,
      line and paragraph separators. */
  predicate IsWhiteSpace(c: char)
  {
    c == ' ' || '\t' <= c <= '\r' || c == '\U{85}' || c == '\U{A0}' || c == '\U{1680}'
    || '\U{2000}' <= c <= '\U{200A}' || c == '\U{2028}' || c == '\U{2029}'
    || c == '\U{202F}' || c == '\U{205F}' || c == '\U{3000}'
  }

  predicate AllNumberWhite(w: string)
  {
    forall i | 0 <= i < |w| :: IsNumberWhite(w[i])
  }

  predicate AllDigits(d: string)
  {
    forall i | 0 <= i < |d| :: IsDigit(d[i])
  }

  predicate AllNul(z: string)
  {
    forall i | 0 <= i < |z| :: z[i] == '\0'
  }

  // ---- Int32.Parse

  /** The end of the run of number white space that starts at `i`. */
  function WhiteEnd(t: string, i: nat): (k: nat)
    requires i <= |t|
    ensures i <= k <= |t| && (k == |t| || !IsNumberWhite(t[k]))
    ensures forall j | i <= j < k :: IsNumberWhite(t[j])
    decreases |t| - i
  {
    if i == |t| || !IsNumberWhite(t[i]) then i else WhiteEnd(t, i + 1)
  }

  /** The end of the run of decimal digits that starts at `i`. */
  function DigitsEnd(t: string, i: nat): (k: nat)
    requires i <= |t|
    ensures i <= k <= |t| && (k == |t| || !IsDigit(t[k]))
    ensures forall j | i <= j < k :: IsDigit(t[j])
    decreases |t| - i
  {
    if i == |t| || !IsDigit(t[i]) then i else DigitsEnd(t, i + 1)
  }

  /** The value of a run of decimal digits, most significant first; leading
      zeros add nothing. */
  function DigitsValue(d: string): nat
    requires AllDigits(d)
  {
    if d == [] then 0
    else 10 * DigitsValue(d[..|d| - 1]) + (d[|d| - 1] - '0') as int
  }

  predicate IsSign(sg: string)
  {
    sg == "" || sg == "+" || sg == "-"
  }

  function SignedValue(sg: string, d: string): int
    requires AllDigits(d)
  {
    var v: int := DigitsValue(d);
    if sg == "-" then -v else v
  }

  /** Where the parts of an Int32.Parse text end: leading white space at
      `lead`, the sign at `sign`, the digits at `digits`, trailing white space
      at `trail`. */
  datatype Int32Scan = Int32Scan(lead: nat, sign: nat, digits: nat, trail: nat)

  function ScanInt32(t: string): (sc: Int32Scan)
    ensures sc.lead <= sc.sign <= sc.digits <= sc.trail <= |t|
    ensures forall x | 0 <= x < sc.lead :: IsNumberWhite(t[x])
    ensures sc.sign == sc.lead || (sc.sign == sc.lead + 1 && (t[sc.lead] == '+' || t[sc.lead] == '-'))
    ensures forall x | sc.sign <= x < sc.digits :: IsDigit(t[x])
    ensures forall x | sc.digits <= x < sc.trail :: IsNumberWhite(t[x])
  {
    var i := WhiteEnd(t, 0);
    var j := if i < |t| && (t[i] == '+' || t[i] == '-') then i + 1 else i;
    var k := DigitsEnd(t, j);
    Int32Scan(i, j, k, WhiteEnd(t, k))
  }

  /** Int32.Parse(s): optional number white space, an optional sign, at least
      one digit, optional number white space, then nothing but NUL
      characters; the value must fit in 32 bits. */
  function ParseInt32(s: Option<string>): (r: Option<i32>)
    // null is the ArgumentNullException, and a text without a digit is rejected
    ensures r.Some? ==> s.Some? && exists x | 0 <= x < |s.value| :: IsDigit(s.value[x])
  {
    match s
    case None => None
    case Some(t) =>
      var sc := ScanInt32(t);
      if sc.digits == sc.sign || !AllNul(t[sc.trail..]) then None
      else
        assert IsDigit(t[sc.sign]);
        var d := t[sc.sign..sc.digits];
        assert AllDigits(d) by {
          forall x | 0 <= x < |d| ensures IsDigit(d[x]) {
            assert d[x] == t[sc.sign + x];
          }
        }
        var n := SignedValue(t[sc.lead..sc.sign], d);
        if MinInt32 <= n <= MaxInt32 then Some(n) else None
  }

  /** A decomposition of `t` into the parts Int32.Parse accepts. */
  predicate Int32Layout(t: string, w1: string, sg: string, d: string, w2: string, z: string)
  {
    t == w1 + sg + d + w2 + z && AllNumberWhite(w1) && IsSign(sg)
    && d != [] && AllDigits(d) && AllNumberWhite(w2) && AllNul(z)
  }

  lemma {:induction false} WhiteEndAt(t: string, i: nat, k: nat)
    requires i <= k <= |t| && (k == |t| || !IsNumberWhite(t[k]))
    requires forall j | i <= j < k :: IsNumberWhite(t[j])
    ensures WhiteEnd(t, i) == k
    decreases k - i
  {
    if i < k {
      WhiteEndAt(t, i + 1, k);
    }
  }

  lemma {:induction false} DigitsEndAt(t: string, i: nat, k: nat)
    requires i <= k <= |t| && (k == |t| || !IsDigit(t[k]))
    requires forall j | i <= j < k :: IsDigit(t[j])
    ensures DigitsEnd(t, i) == k
    decreases k - i
  {
    if i < k {
      DigitsEndAt(t, i + 1, k);
    }
  }

  /** The scan of a text laid out as white space, sign, digits, white space
      and NUL characters ends each part where the layout does. */
  lemma ScanLayout(t: string, w1: string, sg: string, d: string, w2: string, z: string)
    requires Int32Layout(t, w1, sg, d, w2, z)
    ensures ScanInt32(t) == Int32Scan(|w1|, |w1| + |sg|, |w1| + |sg| + |d|, |t| - |z|)
  {
    var i, j := |w1|, |w1| + |sg|;
    var k := j + |d|;
    var m := k + |w2|;
    var a1 := w1 + sg;
    var a2 := a1 + d;
    var a3 := a2 + w2;
    assert t == a3 + z;
    forall x | 0 <= x < i ensures IsNumberWhite(t[x]) {
      assert t[x] == a3[x] == a2[x] == a1[x] == w1[x];
    }
    assert !IsNumberWhite(t[i]) && ((t[i] == '+' || t[i] == '-') <==> sg != "") by {
      if sg == "" { assert t[i] == a2[i] == d[0]; } else { assert t[i] == a2[i] == a1[i] == sg[0]; }
    }
    WhiteEndAt(t, 0, i);
    forall x | j <= x < k ensures IsDigit(t[x]) {
      assert t[x] == a3[x] == a2[x] == d[x - j];
    }
    assert k == |t| || !IsDigit(t[k]) by {
      if k < m { assert t[k] == a3[k] == w2[0]; }
      else if k < |t| { assert t[k] == z[0]; }
    }
    DigitsEndAt(t, j, k);
    forall x | k <= x < m ensures IsNumberWhite(t[x]) {
      assert t[x] == a3[x] == w2[x - k];
    }
    assert m == |t| || !IsNumberWhite(t[m]) by {
      if m < |t| { assert t[m] == z[0]; }
    }
    WhiteEndAt(t, k, m);
  }

  /** Every text laid out as white space, sign, digits, white space and NUL
      characters parses, to its value when that fits in 32 bits. */
  lemma ParseLayout(t: string, w1: string, sg: string, d: string, w2: string, z: string)
    requires Int32Layout(t, w1, sg, d, w2, z)
    ensures var n := SignedValue(sg, d);
      ParseInt32(Some(t)) == if MinInt32 <= n <= MaxInt32 then Some(n) else None
  {
    ScanLayout(t, w1, sg, d, w2, z);
    var j := |w1| + |sg|;
    var k := j + |d|;
    var m := |t| - |z|;
    var a1 := w1 + sg;
    var a2 := a1 + d;
    assert t == a2 + w2 + z;
    assert t[..k] == a2 && a2[..j] == a1 && a1[..|w1|] == w1;
    assert t[|w1|..j] == sg && t[j..k] == d && t[m..] == z;
  }

  /** What a successful Int32.Parse found in the text. */
  lemma ParsedScan(t: string, n: i32)
    requires ParseInt32(Some(t)) == Some(n)
    ensures var sc := ScanInt32(t);
      sc.sign < sc.digits && AllNul(t[sc.trail..]) && AllDigits(t[sc.sign..sc.digits])
      && SignedValue(t[sc.lead..sc.sign], t[sc.sign..sc.digits]) == n
  {
  }

  /** Conversely, a text that parses is laid out that way, with the parsed
      value. */
  lemma ParseShape(t: string, n: i32)
    requires ParseInt32(Some(t)) == Some(n)
    ensures exists w1, sg, d, w2, z :: Int32Layout(t, w1, sg, d, w2, z) && SignedValue(sg, d) == n
  {
    ParsedScan(t, n);
    var sc := ScanInt32(t);
    var w1, sg, d := t[..sc.lead], t[sc.lead..sc.sign], t[sc.sign..sc.digits];
    var w2, z := t[sc.digits..sc.trail], t[sc.trail..];
    assert t == w1 + sg + d + w2 + z by {
      assert t[..sc.sign] == w1 + sg;
      assert t[..sc.digits] == t[..sc.sign] + d;
      assert t[..sc.trail] == t[..sc.digits] + w2;
    }
    assert AllNumberWhite(w1) by {
      forall x | 0 <= x < |w1| ensures IsNumberWhite(w1[x]) { assert w1[x] == t[x]; }
    }
    assert AllNumberWhite(w2) by {
      forall x | 0 <= x < |w2| ensures IsNumberWhite(w2[x]) { assert w2[x] == t[sc.digits + x]; }
    }
    assert IsSign(sg);
    assert Int32Layout(t, w1, sg, d, w2, z);
  }

  // ---- Int32.ToString

  function DigitChar(v: nat): (c: char)
    requires v < 10
    ensures IsDigit(c) && (c - '0') as int == v
  {
    ('0' as int + v) as char
  }

  /** The decimal digits of `v`, without leading zeros. */
  function Digits(v: nat): (d: string)
    ensures d != [] && AllDigits(d) && DigitsValue(d) == v
    ensures |d| > 1 ==> d[0] != '0'
  {
    if v < 10 then [DigitChar(v)]
    else
      var p := Digits(v / 10);
      assert (p + [DigitChar(v % 10)])[..|p|] == p;
      p + [DigitChar(v % 10)]
  }

  /** Int32.ToString(): a minus sign for a negative value, then the digits. */
  function FormatInt32(n: i32): (t: string)
    ensures var k := if n < 0 then 1 else 0;
      k < |t| && IsSign(t[..k]) && (t[..k] == "-" <==> n < 0)
      && AllDigits(t[k..]) && SignedValue(t[..k], t[k..]) == n
  {
    if n < 0 then "-" + Digits(-(n as int)) else Digits(n)
  }

  /** Int32.Parse reads back what Int32.ToString writes. */
  lemma ParseFormat(n: i32)
    ensures ParseInt32(Some(FormatInt32(n))) == Some(n)
  {
    var t := FormatInt32(n);
    var k := if n < 0 then 1 else 0;
    assert t == "" + t[..k] + t[k..] + "" + "";
    ParseLayout(t, "", t[..k], t[k..], "", "");
  }

  lemma FormatThreeHundred()
    ensures FormatInt32(300) == "300"
  {
    assert Digits(3) == "3";
    assert Digits(30) == "30";
  }

  // ---- Boolean.Parse

  /** What Boolean.Parse trims from both ends: Char.IsWhiteSpace and NUL. */
  predicate IsPad(c: char)
  {
    IsWhiteSpace(c) || c == '\0'
  }

  predicate AllPad(p: string)
  {
    forall i | 0 <= i < |p| :: IsPad(p[i])
  }

  /** The first index at or after `i` that is not a pad character. */
  function PadEnd(t: string, i: nat): (k: nat)
    requires i <= |t|
    ensures i <= k <= |t| && (k == |t| || !IsPad(t[k]))
    ensures forall x | i <= x < k :: IsPad(t[x])
    decreases |t| - i
  {
    if i == |t| || !IsPad(t[i]) then i else PadEnd(t, i + 1)
  }

  /** Going back from `j` but not below `lo`, the start of the run of pad
      characters that ends at `j`. */
  function PadStart(t: string, lo: nat, j: nat): (k: nat)
    requires lo <= j <= |t|
    ensures lo <= k <= j && (k == lo || !IsPad(t[k - 1]))
    ensures forall x | k <= x < j :: IsPad(t[x])
    decreases j - lo
  {
    if j == lo || !IsPad(t[j - 1]) then j else PadStart(t, lo, j - 1)
  }

  /** TrimWhiteSpaceAndNull: the start index moves forward over pad
      characters, then the end index moves back over them, never past the
      start. */
  function Trim(t: string): string
  {
    var start := PadEnd(t, 0);
    t[start..PadStart(t, start, |t|)]
  }

  /** Upper-casing as StringComparison.OrdinalIgnoreCase applies it to ASCII
      letters. */
  function UpperAscii(c: char): char
  {
    if 'a' <= c <= 'z' then (c as int - 32) as char else c
  }

  predicate EqualsIgnoreCase(a: string, b: string)
  {
    |a| == |b| && forall i | 0 <= i < |a| :: UpperAscii(a[i]) == UpperAscii(b[i])
  }

  /** Boolean.TrueString and Boolean.FalseString. */
  function BooleanLiteral(b: bool): string
  {
    if b then "True" else "False"
  }

  /** The comparison Boolean.TryParse makes with the two literals. */
  function LiteralValue(u: string): Option<bool>
  {
    if EqualsIgnoreCase(u, "True") then Some(true)
    else if EqualsIgnoreCase(u, "False") then Some(false)
    else None
  }

  /** Boolean.Parse(s): the text, or failing that the text trimmed of
      white space and NUL at both ends, must be "True" or "False" ignoring
      the case of letters. */
  function ParseBoolean(s: Option<string>): (r: Option<bool>)
    // null is the ArgumentNullException; an accepted text, trimmed, is a literal
    ensures r.Some? ==> s.Some? && EqualsIgnoreCase(Trim(s.value), BooleanLiteral(r.value))
  {
    match s
    case None => None
    case Some(t) =>
      var v := LiteralValue(t);
      if v.Some? then
        LiteralValueOf(t, v.value);
        PadEndAt(t, 0, 0);
        PadStartAt(t, 0, |t|, |t|);
        v
      else LiteralValue(Trim(t))
  }

  /** A literal in any letter case is read as that literal, and only as it. */
  lemma LiteralValueOf(x: string, b: bool)
    requires EqualsIgnoreCase(x, BooleanLiteral(b))
    ensures LiteralValue(x) == Some(b)
    ensures x != [] && !IsPad(x[0]) && !IsPad(x[|x| - 1])
  {
    assert UpperAscii(x[0]) == UpperAscii(BooleanLiteral(b)[0]);
    assert UpperAscii(x[|x| - 1]) == UpperAscii(BooleanLiteral(b)[|x| - 1]);
  }

  lemma {:induction false} PadEndAt(t: string, i: nat, k: nat)
    requires i <= k <= |t| && (k == |t| || !IsPad(t[k]))
    requires forall x | i <= x < k :: IsPad(t[x])
    ensures PadEnd(t, i) == k
    decreases k - i
  {
    if i < k {
      PadEndAt(t, i + 1, k);
    }
  }

  lemma {:induction false} PadStartAt(t: string, lo: nat, j: nat, k: nat)
    requires lo <= k <= j <= |t| && (k == lo || !IsPad(t[k - 1]))
    requires forall x | k <= x < j :: IsPad(t[x])
    ensures PadStart(t, lo, j) == k
    decreases j - k
  {
    if k < j {
      PadStartAt(t, lo, j - 1, k);
    }
  }

  /** Trimming takes exactly the padding off a text that starts and ends
      with something else. */
  lemma TrimPadded(p1: string, x: string, p2: string)
    requires AllPad(p1) && AllPad(p2) && x != [] && !IsPad(x[0]) && !IsPad(x[|x| - 1])
    ensures Trim(p1 + x + p2) == x
  {
    var t := p1 + x + p2;
    var i, k := |p1|, |p1| + |x|;
    forall y | 0 <= y < i ensures IsPad(t[y]) {
      assert t[y] == p1[y];
    }
    assert t[i] == x[0];
    PadEndAt(t, 0, i);
    forall y | k <= y < |t| ensures IsPad(t[y]) {
      assert t[y] == p2[y - k];
    }
    assert t[k - 1] == x[|x| - 1];
    PadStartAt(t, i, |t|, k);
    assert t[i..k] == x;
  }

  /** A literal in any letter case, padded on both sides, parses to its
      value. */
  lemma ParseBooleanPadded(p1: string, x: string, p2: string, b: bool)
    requires AllPad(p1) && AllPad(p2) && EqualsIgnoreCase(x, BooleanLiteral(b))
    ensures ParseBoolean(Some(p1 + x + p2)) == Some(b)
  {
    var t := p1 + x + p2;
    LiteralValueOf(x, b);
    TrimPadded(p1, x, p2);
    var v := LiteralValue(t);
    if v.Some? {
      LiteralValueOf(t, v.value);
      TrimPadded("", t, "");
      assert "" + t + "" == t;
    }
  }

  /** A decomposition of `t` into the parts Boolean.Parse accepts as `b`. */
  predicate BooleanLayout(t: string, p1: string, x: string, p2: string, b: bool)
  {
    t == p1 + x + p2 && AllPad(p1) && AllPad(p2) && EqualsIgnoreCase(x, BooleanLiteral(b))
  }

  /** Conversely, a text that parses is a literal in some letter case with
      pad characters around it. */
  lemma ParseBooleanShape(t: string, b: bool)
    requires ParseBoolean(Some(t)) == Some(b)
    ensures exists p1, x, p2 :: BooleanLayout(t, p1, x, p2, b)
  {
    if LiteralValue(t).Some? {
      assert LiteralValue(t) == Some(b);
      assert t == "" + t + "";
      assert BooleanLayout(t, "", t, "", b);
    } else {
      var i := PadEnd(t, 0);
      var k := PadStart(t, i, |t|);
      var p1, x, p2 := t[..i], t[i..k], t[k..];
      assert LiteralValue(x) == Some(b);
      assert t == p1 + x + p2;
      assert AllPad(p1) by {
        forall y | 0 <= y < |p1| ensures IsPad(p1[y]) { assert p1[y] == t[y]; }
      }
      assert AllPad(p2) by {
        forall y | 0 <= y < |p2| ensures IsPad(p2[y]) { assert p2[y] == t[k + y]; }
      }
      assert BooleanLayout(t, p1, x, p2, b);
    }
  }
}

/**
 * The parts of the Java runtime that the settings converters and the bubble
 * geometry depend on: `int` and `long` ranges and wrap-around, integer division
 * by two, `String.trim`, `String.split` with a one-character delimiter,
 * `Integer.parseInt`, `Long.parseLong` and `Boolean.parseBoolean`.
 */
module JavaLang {
  import opened Wrappers

  const INT_MIN: int := -0x8000_0000
  const INT_MAX: int := 0x7fff_ffff
  const LONG_MIN: int := -0x8000_0000_0000_0000
  const LONG_MAX: int := 0x7fff_ffff_ffff_ffff

  /** Java's `int`. */
  type Int32 = x: int | -0x8000_0000 <= x <= 0x7fff_ffff

  /** Java's `long`. */
  type Int64 = x: int | -0x8000_0000_0000_0000 <= x <= 0x7fff_ffff_ffff_ffff

  // ---------------------------------------------------------------------------
  // int arithmetic

  /** The two's-complement truncation Java applies to every `int` sum, difference and product. */
  function Wrap32(x: int): (r: Int32)
    ensures INT_MIN <= x <= INT_MAX ==> r == x
    ensures (x - r) % 0x1_0000_0000 == 0
  {
    var k := (x - INT_MIN) / 0x1_0000_0000;
    var r := (x - INT_MIN) % 0x1_0000_0000 + INT_MIN;
    assert x - r == k * 0x1_0000_0000;
    r
  }

  /** Java's `a / 2` on an `int`: the quotient rounded toward zero. */
  function Half(a: Int32): (h: Int32)
    ensures 0 <= a ==> a == 2 * h || a == 2 * h + 1
    ensures a < 0 ==> a == 2 * h || a == 2 * h - 1
  {
    if a >= 0 then a / 2 else -((-(a as int)) / 2)
  }

  // ---------------------------------------------------------------------------
  // String.trim

  /** The characters `String.trim` strips: every code unit up to and including the space. */
  predicate IsTrimmable(c: char) {
    c <= ' '
  }

  function TrimStart(s: string): (r: string)
    ensures |r| <= |s| && r == s[|s| - |r|..]
    ensures forall i :: 0 <= i < |s| - |r| ==> IsTrimmable(s[i])
    ensures r == [] || !IsTrimmable(r[0])
  {
    if |s| > 0 && IsTrimmable(s[0]) then TrimStart(s[1..]) else s
  }

  function TrimEnd(s: string): (r: string)
    ensures |r| <= |s| && r == s[..|r|]
    ensures forall i :: |r| <= i < |s| ==> IsTrimmable(s[i])
    ensures r == [] || !IsTrimmable(r[|r| - 1])
  {
    if |s| > 0 && IsTrimmable(s[|s| - 1]) then TrimEnd(s[..|s| - 1]) else s
  }

  /** `r` is `s[i..j]`, everything outside that range is trimmable, and `r` has no trimmable end of its own. */
  ghost predicate IsTrimAt(s: string, r: string, i: nat, j: nat) {
    i <= j <= |s| && r == s[i..j] &&
    (r == [] || (!IsTrimmable(r[0]) && !IsTrimmable(r[|r| - 1]))) &&
    (forall k :: 0 <= k < i ==> IsTrimmable(s[k])) &&
    (forall k :: j <= k < |s| ==> IsTrimmable(s[k]))
  }

  /** `r` is `s` without a trimmable prefix and a trimmable suffix, and has no trimmable end of its own. */
  ghost predicate IsTrimOf(s: string, r: string) {
    exists i: nat, j: nat :: IsTrimAt(s, r, i, j)
  }

  /** `String.trim`. */
  function Trim(s: string): (r: string)
    ensures |r| <= |s|
    ensures r == [] || (!IsTrimmable(r[0]) && !IsTrimmable(r[|r| - 1]))
  {
    TrimEnd(TrimStart(s))
  }

  /** A trimmable prefix of length `i` and a trimmable tail of `t == s[i..]` leave `r` as the trim of `s` at `i`. */
  lemma TrimAtOfParts(s: string, t: string, r: string, i: nat)
    requires i <= |s| && t == s[i..] && |r| <= |t| && r == t[..|r|]
    requires forall k :: 0 <= k < i ==> IsTrimmable(s[k])
    requires forall k :: |r| <= k < |t| ==> IsTrimmable(t[k])
    requires r == [] || (!IsTrimmable(r[0]) && !IsTrimmable(r[|r| - 1]))
    ensures IsTrimAt(s, r, i, i + |r|)
  {
    forall k | i + |r| <= k < |s|
      ensures IsTrimmable(s[k])
    {
      assert s[k] == t[k - i];
    }
    assert r == s[i..i + |r|];
  }

  /** What `String.trim` promises: the string without its trimmable prefix and suffix. */
  lemma TrimRemovesTrimmableEnds(s: string)
    ensures IsTrimOf(s, Trim(s))
  {
    var t := TrimStart(s);
    var r := TrimEnd(t);
    var i := |s| - |t|;
    TrimAtOfParts(s, t, r, i);
    assert IsTrimAt(s, r, i, i + |r|);
  }

  /** A string without a trimmable end is its own trim. */
  lemma TrimOfTrimmed(s: string)
    requires s == [] || (!IsTrimmable(s[0]) && !IsTrimmable(s[|s| - 1]))
    ensures Trim(s) == s
  {
  }

  /** Trimming twice is trimming once. */
  lemma TrimIdempotent(s: string)
    ensures Trim(Trim(s)) == Trim(s)
  {
    TrimOfTrimmed(Trim(s));
  }

  // ---------------------------------------------------------------------------
  // String.split with a one-character delimiter

  /** The pieces of `fs` glued back together with `d` between them. */
  function Join(fs: seq<string>, d: char): string
  {
    if |fs| == 0 then ""
    else if |fs| == 1 then fs[0]
    else fs[0] + [d] + Join(fs[1..], d)
  }

  /** Every run of `s` between occurrences of `d`, empty runs included. */
  function Fields(s: string, d: char): (fs: seq<string>)
    ensures |fs| >= 1
    ensures forall i :: 0 <= i < |fs| ==> d !in fs[i]
    ensures Join(fs, d) == s
  {
    if s == [] then [""]
    else
      var rest := Fields(s[1..], d);
      if s[0] == d then
        assert ([""] + rest)[1..] == rest;
        [""] + rest
      else
        var fs := [[s[0]] + rest[0]] + rest[1..];
        assert fs[1..] == rest[1..];
        assert s == [s[0]] + s[1..];
        fs
  }

  /** `fs` with its trailing empty strings removed. */
  function DropTrailingEmpty(fs: seq<string>): (r: seq<string>)
    ensures r <= fs
    ensures r == [] || r[|r| - 1] != ""
    ensures forall i :: |r| <= i < |fs| ==> fs[i] == ""
  {
    if |fs| > 0 && fs[|fs| - 1] == "" then DropTrailingEmpty(fs[..|fs| - 1]) else fs
  }

  /**
   * `s.split(d)` with the default limit 0, for a delimiter that is one literal
   * character: the fields between the delimiters, trailing empty fields dropped;
   * a string without the delimiter (the empty string included) is its own only part.
   */
  function Split(s: string, d: char): (parts: seq<string>)
    ensures d !in s ==> parts == [s]
    ensures d in s ==> parts <= Fields(s, d) && (parts == [] || parts[|parts| - 1] != "")
    ensures d in s ==> forall i :: |parts| <= i < |Fields(s, d)| ==> Fields(s, d)[i] == ""
    ensures forall i :: 0 <= i < |parts| ==> d !in parts[i]
  {
    if d !in s then [s] else DropTrailingEmpty(Fields(s, d))
  }

  /** Splitting a string that does not start with the delimiter adds its first character to the first field. */
  lemma FieldsCons(c: char, t: string, d: char)
    requires c != d
    ensures Fields([c] + t, d) == [[c] + Fields(t, d)[0]] + Fields(t, d)[1..]
  {
    assert ([c] + t)[1..] == t;
  }

  /** A delimiter-free prefix followed by the delimiter is split off as one field. */
  lemma {:induction false} FieldsOfPrefix(a: string, t: string, d: char)
    requires d !in a
    ensures Fields(a + t, d) == [a + Fields(t, d)[0]] + Fields(t, d)[1..]
  {
    if a == [] {
      assert a + t == t;
      var fs := Fields(t, d);
      assert a + fs[0] == fs[0];
      assert fs == [fs[0]] + fs[1..];
    } else {
      FieldsOfPrefix(a[1..], t, d);
      assert a + t == [a[0]] + (a[1..] + t);
      FieldsCons(a[0], a[1..] + t, d);
      assert [a[0]] + (a[1..] + Fields(t, d)[0]) == a + Fields(t, d)[0];
    }
  }

  /** Round trip: splitting what `Join` glued together gives back the pieces. */
  lemma {:induction false} FieldsOfJoin(fs: seq<string>, d: char)
    requires |fs| >= 1
    requires forall i :: 0 <= i < |fs| ==> d !in fs[i]
    ensures Fields(Join(fs, d), d) == fs
  {
    if |fs| == 1 {
      FieldsOfPrefix(fs[0], "", d);
      assert fs[0] + "" == fs[0];
      assert Fields("", d) == [""];
    } else {
      FieldsOfJoin(fs[1..], d);
      var u := Join(fs[1..], d);
      assert Join(fs, d) == fs[0] + ([d] + u);
      FieldsOfPrefix(fs[0], [d] + u, d);
      assert ([d] + u)[1..] == u;
      var g := Fields([d] + u, d);
      assert g == [""] + fs[1..];
      assert g[0] == "" && g[1..] == fs[1..];
      assert fs[0] + g[0] == fs[0];
      assert fs == [fs[0]] + fs[1..];
    }
  }

  /** A value with three commas splits into four parts. */
  lemma SplitFourParts(s: string)
    requires s == "10,20,30,255"
    ensures Split(s, ',') == ["10", "20", "30", "255"]
  {
    var fs := ["10", "20", "30", "255"];
    assert Join(fs, ',') == s;
    FieldsOfJoin(fs, ',');
    assert s[2] == ',';
  }

  /** A value with two commas splits into three parts. */
  lemma SplitThreeParts(s: string)
    requires s == "10,20,30"
    ensures Split(s, ',') == ["10", "20", "30"]
  {
    var fs := ["10", "20", "30"];
    assert Join(fs, ',') == s;
    FieldsOfJoin(fs, ',');
    assert s[2] == ',';
  }

  /** The fields of "1,2,,," are "1", "2" and three empty ones. */
  lemma FieldsWithTrailingEmpty(s: string)
    requires s == "1,2,,,"
    ensures Fields(s, ',') == ["1", "2", "", "", ""]
  {
    var fs := ["1", "2", "", "", ""];
    assert Join(fs, ',') == s;
    FieldsOfJoin(fs, ',');
  }

  /** When the delimiter occurs, the parts are the fields up to the last non-empty one. */
  lemma SplitKeepsUpToLastNonEmpty(s: string, d: char, kept: seq<string>, empties: seq<string>)
    requires d in s && Fields(s, d) == kept + empties
    requires kept == [] || kept[|kept| - 1] != ""
    requires forall i :: 0 <= i < |empties| ==> empties[i] == ""
    ensures Split(s, d) == kept
  {
    var fs, parts := Fields(s, d), Split(s, d);
    assert kept != [] ==> fs[|kept| - 1] != "";
    assert |parts| >= |kept|;
    assert forall i :: |kept| <= i < |fs| ==> fs[i] == empties[i - |kept|] == "";
    assert parts != [] ==> parts[|parts| - 1] == fs[|parts| - 1] != "";
    assert |parts| <= |kept|;
    assert parts == fs[..|kept|];
  }

  /** Trailing empty parts are dropped: "1,2,,," has two parts. */
  lemma SplitDropsTrailingEmpty(s: string)
    requires s == "1,2,,,"
    ensures Split(s, ',') == ["1", "2"]
  {
    FieldsWithTrailingEmpty(s);
    assert s[1] == ',';
    SplitKeepsUpToLastNonEmpty(s, ',', ["1", "2"], ["", "", ""]);
  }

  // ---------------------------------------------------------------------------
  // Integer.parseInt, Long.parseLong and their inverse, Integer.toString

  predicate IsDigit(c: char) {
    '0' <= c <= '9'
  }

  predicate AllDigits(s: string) {
    forall i :: 0 <= i < |s| ==> IsDigit(s[i])
  }

  /** The value of a string of decimal digits, most significant first. */
  function DigitsValue(ds: string): nat
    requires AllDigits(ds)
  {
    if ds == [] then 0
    else DigitsValue(ds[..|ds| - 1]) * 10 + (ds[|ds| - 1] as int - '0' as int)
  }

  /** What the radix-10 parsers accept: an optional `-` or `+`, then at least one digit. */
  predicate IsDecimal(s: string) {
    |s| > 0 &&
    if s[0] == '-' || s[0] == '+' then |s| > 1 && AllDigits(s[1..]) else AllDigits(s)
  }

  function DecimalValue(s: string): int
    requires IsDecimal(s)
  {
    if s[0] == '-' then -(DigitsValue(s[1..]) as int)
    else if s[0] == '+' then DigitsValue(s[1..])
    else DigitsValue(s)
  }

  /** `Integer.parseInt(s)`: `None` stands for the NumberFormatException it throws. */
  function ParseInt(s: string): (r: Option<Int32>)
    ensures r.Some? <==> IsDecimal(s) && INT_MIN <= DecimalValue(s) <= INT_MAX
    ensures r.Some? ==> r.value == DecimalValue(s)
  {
    if IsDecimal(s) && INT_MIN <= DecimalValue(s) <= INT_MAX then Some(DecimalValue(s)) else None
  }

  /** `Long.parseLong(s)`: `None` stands for the NumberFormatException it throws. */
  function ParseLong(s: string): (r: Option<Int64>)
    ensures r.Some? <==> IsDecimal(s) && LONG_MIN <= DecimalValue(s) <= LONG_MAX
    ensures r.Some? ==> r.value == DecimalValue(s)
  {
    if IsDecimal(s) && LONG_MIN <= DecimalValue(s) <= LONG_MAX then Some(DecimalValue(s)) else None
  }

  /** The decimal digits of `n`, without leading zeros. */
  function NatDigits(n: nat): (ds: string)
    ensures |ds| >= 1 && AllDigits(ds) && DigitsValue(ds) == n
    ensures |ds| > 1 ==> ds[0] != '0'
  {
    if n < 10 then [('0' as int + n) as char]
    else
      var hi := NatDigits(n / 10);
      var ds := hi + [('0' as int + n % 10) as char];
      assert ds[..|ds| - 1] == hi;
      ds
  }

  /** `Integer.toString(n)` / `Long.toString(n)`. */
  function ToDecimal(n: int): (s: string)
  {
    if n < 0 then "-" + NatDigits(-n) else NatDigits(n)
  }

  /** Round trip: `Integer.parseInt(Integer.toString(n)) == n` for every `int`. */
  lemma ParseIntOfToDecimal(n: Int32)
    ensures ParseInt(ToDecimal(n)) == Some(n)
  {
    var s := ToDecimal(n);
    if n < 0 {
      assert s[1..] == NatDigits(-(n as int));
    }
  }

  /** Round trip: `Long.parseLong(Long.toString(n)) == n` for every `long`. */
  lemma ParseLongOfToDecimal(n: Int64)
    ensures ParseLong(ToDecimal(n)) == Some(n)
  {
    var s := ToDecimal(n);
    if n < 0 {
      assert s[1..] == NatDigits(-(n as int));
    }
  }

  /** The parsers never trim: a leading or trailing space or control character is a NumberFormatException. */
  lemma ParseRejectsUntrimmed(s: string)
    requires |s| > 0 && (IsTrimmable(s[0]) || IsTrimmable(s[|s| - 1]))
    ensures ParseInt(s) == None && ParseLong(s) == None
  {
  }

  /** The decimal values of the four numbers of the colour value "10,20,30,255". */
  lemma ParseIntExamples()
    ensures ParseInt("10") == Some(10) && ParseInt("20") == Some(20)
    ensures ParseInt("30") == Some(30) && ParseInt("255") == Some(255)
  {
    assert "10"[..1] == "1" && "20"[..1] == "2" && "30"[..1] == "3";
    assert "255"[..2] == "25" && "25"[..1] == "2";
    assert "1"[..0] == "" && "2"[..0] == "" && "3"[..0] == "";
  }

  /** The four numbers of the colour value "10,20,30,255", trimmed and parsed. */
  lemma ChannelTexts()
    ensures ParseInt(Trim("10")) == Some(10) && ParseInt(Trim("20")) == Some(20)
    ensures ParseInt(Trim("30")) == Some(30) && ParseInt(Trim("255")) == Some(255)
  {
    ParseIntExamples();
    TrimOfTrimmed("10");
    TrimOfTrimmed("20");
    TrimOfTrimmed("30");
    TrimOfTrimmed("255");
  }

  // ---------------------------------------------------------------------------
  // Boolean.parseBoolean

  /** Case folding of the Latin letters. */
  function LowerAscii(c: char): char {
    if 'A' <= c <= 'Z' then (c as int + 32) as char else c
  }

  predicate EqualsIgnoreCase(a: string, b: string) {
    |a| == |b| && forall i :: 0 <= i < |a| ==> LowerAscii(a[i]) == LowerAscii(b[i])
  }

  /** `Boolean.parseBoolean(s)`: true exactly for "true" in any case; it never throws. */
  function ParseBoolean(s: string): (r: bool)
    ensures r <==> |s| == 4 && LowerAscii(s[0]) == 't' && LowerAscii(s[1]) == 'r' &&
                   LowerAscii(s[2]) == 'u' && LowerAscii(s[3]) == 'e'
  {
    EqualsIgnoreCase("true", s)
  }
}

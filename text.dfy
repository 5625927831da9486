/** String helpers shared by the serialisers and the path handling:
    decimal rendering of integers (Python `str(int)`), Python's `int(str)`
    parse, `str.strip`, `str.split`, `str.join`, ASCII `str.lower`, and the
    `posixpath` functions `basename`, `splitext` and `join`. */
module Text {
  import opened Wrappers

  predicate IsDigit(c: char) { '0' <= c <= '9' }

  predicate AllDigits(s: string) { forall i :: 0 <= i < |s| ==> IsDigit(s[i]) }

  function DigitChar(d: nat): (c: char)
    requires d < 10
    ensures IsDigit(c) && c as int - '0' as int == d
  {
    ('0' as int + d) as char
  }

  /** Python `str(n)` for a non-negative integer: no sign, no leading zero. */
  function NatToString(n: nat): (s: string)
    ensures |s| > 0 && AllDigits(s)
    ensures s[0] == '0' ==> n == 0
  {
    if n < 10 then [DigitChar(n)] else NatToString(n / 10) + [DigitChar(n % 10)]
  }

  /** Python `str(i)` for any integer. */
  function IntToString(i: int): string {
    if i < 0 then "-" + NatToString(-i) else NatToString(i)
  }

  /** The value of a string of decimal digits, most significant first. */
  function DigitsValue(s: string): nat
    requires AllDigits(s)
  {
    if s == [] then 0 else DigitsValue(s[..|s| - 1]) * 10 + (s[|s| - 1] as int - '0' as int)
  }

  lemma {:induction false} DigitsValueOfNatToString(n: nat)
    ensures DigitsValue(NatToString(n)) == n
  {
    if n >= 10 {
      var s := NatToString(n);
      assert s == NatToString(n / 10) + [DigitChar(n % 10)];
      assert s[..|s| - 1] == NatToString(n / 10);
      DigitsValueOfNatToString(n / 10);
    }
  }

  // ---------------------------------------------------------------------
  // Whitespace and str.strip

  /** The characters `str.isspace` accepts in the ASCII and Latin-1 range. */
  predicate IsSpace(c: char) {
    c == ' ' || c == '\t' || c == '\n' || c == '\r' || c == '\U{0B}' || c == '\U{0C}'
    || ('\U{1C}' <= c <= '\U{1F}') || c == '\U{85}' || c == '\U{A0}'
  }

  function StripLeft(s: string): string {
    if |s| > 0 && IsSpace(s[0]) then StripLeft(s[1..]) else s
  }

  function StripRight(s: string): string {
    if |s| > 0 && IsSpace(s[|s| - 1]) then StripRight(s[..|s| - 1]) else s
  }

  /** Python `s.strip()`. */
  function Strip(s: string): string { StripRight(StripLeft(s)) }

  // ---------------------------------------------------------------------
  // Python int(str)

  /** A run of ASCII digits in which single underscores may separate digits. */
  predicate ValidDigitRun(d: string) {
    |d| > 0 && IsDigit(d[0]) && IsDigit(d[|d| - 1]) &&
    (forall i :: 0 <= i < |d| ==> IsDigit(d[i]) || d[i] == '_') &&
    (forall i :: 0 <= i < |d| - 1 && d[i] == '_' ==> IsDigit(d[i + 1]))
  }

  function RemoveUnderscores(d: string): (r: string)
    requires forall i :: 0 <= i < |d| ==> IsDigit(d[i]) || d[i] == '_'
    ensures AllDigits(r)
  {
    if d == [] then []
    else (if d[0] == '_' then [] else [d[0]]) + RemoveUnderscores(d[1..])
  }

  lemma {:induction false} RemoveUnderscoresOfDigits(d: string)
    requires AllDigits(d)
    ensures RemoveUnderscores(d) == d
  {
    if d != [] { RemoveUnderscoresOfDigits(d[1..]); }
  }

  function ParseUnsigned(d: string): Option<nat> {
    if ValidDigitRun(d) then Some(DigitsValue(RemoveUnderscores(d))) else None
  }

  /** Python `int(s)` on a string: surrounding whitespace, an optional sign,
      then ASCII digits with optional single underscores between them;
      `None` stands for the ValueError Python raises on anything else. */
  function ParseInt(s: string): Option<int> {
    var t := Strip(s);
    if |t| > 0 && (t[0] == '-' || t[0] == '+') then
      match ParseUnsigned(t[1..])
      case None => None
      case Some(v) => Some(if t[0] == '-' then -(v as int) else v as int)
    else
      match ParseUnsigned(t)
      case None => None
      case Some(v) => Some(v)
  }

  /** Rendering an integer and parsing it back gives the integer. */
  lemma ParseIntOfIntToString(n: int)
    ensures ParseInt(IntToString(n)) == Some(n)
  {
    var m: nat := if n < 0 then -n else n;
    var digits := NatToString(m);
    var s := IntToString(n);
    assert !IsSpace(s[0]) && !IsSpace(s[|s| - 1]);
    assert StripLeft(s) == s;
    assert Strip(s) == s;
    RemoveUnderscoresOfDigits(digits);
    DigitsValueOfNatToString(m);
    assert ParseUnsigned(digits) == Some(m);
    if n < 0 {
      assert s[1..] == digits;
    }
  }

  // ---------------------------------------------------------------------
  // str.split and str.join with a one-character separator

  /** Python `s.split(c)`: always at least one part. */
  function Split(s: string, c: char): (parts: seq<string>)
    ensures |parts| > 0
  {
    if s == [] then [""]
    else
      var rest := Split(s[1..], c);
      if s[0] == c then [""] + rest else [[s[0]] + rest[0]] + rest[1..]
  }

  lemma {:induction false} SplitWithoutSeparator(s: string, c: char)
    requires c !in s
    ensures Split(s, c) == [s]
  {
    if s != [] {
      SplitWithoutSeparator(s[1..], c);
      assert [s[0]] + s[1..] == s;
    }
  }

  lemma {:induction false} SplitAtFirst(a: string, c: char, b: string)
    requires c !in a
    ensures Split(a + [c] + b, c) == [a] + Split(b, c)
  {
    if a == [] {
      assert a + [c] + b == [c] + b;
      assert ([c] + b)[1..] == b;
    } else {
      assert (a + [c] + b)[1..] == a[1..] + [c] + b;
      SplitAtFirst(a[1..], c, b);
      assert [a[0]] + a[1..] == a;
    }
  }

  lemma SplitThree(a: string, b: string, c: string, sep: char)
    requires sep !in a && sep !in b && sep !in c
    ensures Split(a + [sep] + b + [sep] + c, sep) == [a, b, c]
  {
    SplitWithoutSeparator(c, sep);
    SplitAtFirst(b, sep, c);
    SplitAtFirst(a, sep, b + [sep] + c);
    assert a + [sep] + b + [sep] + c == a + [sep] + (b + [sep] + c);
  }

  /** Python `sep.join(parts)`. */
  function Join(sep: string, parts: seq<string>): string {
    if |parts| == 0 then ""
    else if |parts| == 1 then parts[0]
    else parts[0] + sep + Join(sep, parts[1..])
  }

  lemma JoinTwo(sep: string, a: string, b: string)
    ensures Join(sep, [a, b]) == a + sep + b
  {
    assert [a, b][1..] == [b];
  }

  lemma JoinFour(sep: string, a: string, b: string, c: string, d: string)
    ensures Join(sep, [a, b, c, d]) == a + sep + b + sep + c + sep + d
  {
    assert [a, b, c, d][1..] == [b, c, d];
    assert [b, c, d][1..] == [c, d];
    JoinTwo(sep, c, d);
    assert Join(sep, [a, b, c, d]) == a + sep + (b + sep + (c + sep + d));
  }

  /** Splitting a join on a separator that occurs in no part gives the parts back. */
  lemma {:induction false} SplitJoin(c: char, parts: seq<string>)
    requires |parts| > 0
    requires forall i :: 0 <= i < |parts| ==> c !in parts[i]
    ensures Split(Join([c], parts), c) == parts
  {
    if |parts| == 1 {
      SplitWithoutSeparator(parts[0], c);
    } else {
      SplitJoin(c, parts[1..]);
      SplitAtFirst(parts[0], c, Join([c], parts[1..]));
    }
  }

  lemma {:induction false} NoSeparatorInDigits(n: nat, c: char)
    requires !IsDigit(c)
    ensures c !in NatToString(n)
  {
  }

  lemma NoSeparatorInInt(n: int, c: char)
    requires !IsDigit(c) && c != '-'
    ensures c !in IntToString(n)
  {
    NoSeparatorInDigits(if n < 0 then -n else n, c);
  }

  /** `s.replace(c, r)` for a one-character pattern. */
  function Replace(s: string, c: char, r: string): string {
    if s == [] then [] else (if s[0] == c then r else [s[0]]) + Replace(s[1..], c, r)
  }

  lemma {:induction false} ReplaceAppend(a: string, b: string, c: char, r: string)
    ensures Replace(a + b, c, r) == Replace(a, c, r) + Replace(b, c, r)
  {
    if a != [] {
      assert (a + b)[1..] == a[1..] + b;
      ReplaceAppend(a[1..], b, c, r);
    } else {
      assert a + b == b;
    }
  }

  // ---------------------------------------------------------------------
  // Case and affixes

  function LowerChar(c: char): char {
    if 'A' <= c <= 'Z' then (c as int + 32) as char else c
  }

  /** `str.lower` on the ASCII letters. */
  function Lower(s: string): (r: string)
    ensures |r| == |s|
  {
    seq(|s|, i requires 0 <= i < |s| => LowerChar(s[i]))
  }

  predicate StartsWith(s: string, prefix: string) {
    |prefix| <= |s| && s[..|prefix|] == prefix
  }

  predicate EndsWith(s: string, suffix: string) {
    |suffix| <= |s| && s[|s| - |suffix|..] == suffix
  }

  /** Python `sub in s` for strings. */
  predicate Contains(s: string, sub: string)
    decreases |s|
  {
    StartsWith(s, sub) || (|s| > 0 && Contains(s[1..], sub))
  }

  lemma {:induction false} ContainsFirstChar(s: string, sub: string)
    requires |sub| > 0 && Contains(s, sub)
    ensures sub[0] in s
  {
    if StartsWith(s, sub) {
      assert s[0] == sub[0];
    } else {
      ContainsFirstChar(s[1..], sub);
      assert s[1..][..] <= s[1..];
    }
  }

  /** Python `s.endswith(tuple(suffixes))`. */
  predicate EndsWithAny(s: string, suffixes: seq<string>) {
    |suffixes| > 0 && (EndsWith(s, suffixes[0]) || EndsWithAny(s, suffixes[1..]))
  }

  // ---------------------------------------------------------------------
  // posixpath

  /** Index of the last occurrence of `c`, or -1. */
  function LastIndexOf(s: string, c: char): (k: int)
    ensures -1 <= k < |s|
    ensures k >= 0 ==> s[k] == c
    ensures forall j :: k < j < |s| ==> s[j] != c
  {
    if s == [] then -1
    else if s[|s| - 1] == c then |s| - 1
    else LastIndexOf(s[..|s| - 1], c)
  }

  /** The last `c` of `x + y` is the last of `y`, or else the last of `x`. */
  lemma {:induction false} LastIndexOfAppend(x: string, y: string, c: char)
    ensures LastIndexOf(x + y, c) ==
            (if LastIndexOf(y, c) >= 0 then |x| + LastIndexOf(y, c) else LastIndexOf(x, c))
  {
    if y == [] {
      assert x + y == x;
    } else {
      assert (x + y)[..|x + y| - 1] == x + y[..|y| - 1];
      LastIndexOfAppend(x, y[..|y| - 1], c);
    }
  }

  lemma LastIndexOfAbsent(s: string, c: char)
    requires c !in s
    ensures LastIndexOf(s, c) == -1
  {
  }

  /** `os.path.basename`: the part after the last '/'. */
  function Basename(p: string): (b: string)
    ensures '/' !in b
  {
    p[LastIndexOf(p, '/') + 1..]
  }

  /** `os.path.splitext(p)[1]`: from the last '.' of the final component,
      unless everything before that dot in the component is dots. */
  function Ext(p: string): (e: string)
    ensures EndsWith(p, e)
    ensures e != [] ==> e[0] == '.'
  {
    var b := Basename(p);
    var d := LastIndexOf(b, '.');
    if d >= 0 && exists k :: 0 <= k < d && b[k] != '.' then b[d..] else ""
  }

  /** `os.path.join(a, b)` for two components. */
  function PathJoin(a: string, b: string): string {
    if StartsWith(b, "/") then b
    else if a == [] || EndsWith(a, "/") then a + b
    else a + "/" + b
  }

  /** Joining a file name to a folder gives a path inside that folder whose
      last component is the file name. */
  lemma PathJoinBasename(a: string, b: string)
    requires '/' !in b
    ensures Basename(PathJoin(a, b)) == b
    ensures StartsWith(PathJoin(a, b), a)
  {
    LastIndexOfAbsent(b, '/');
    if a == [] {
      assert PathJoin(a, b) == b;
    } else if EndsWith(a, "/") {
      LastIndexOfAppend(a, b, '/');
      assert a[|a| - 1] == "/"[0];
      assert (a + b)[..|a|] == a;
    } else {
      LastIndexOfAppend(a + "/", b, '/');
      LastIndexOfAppend(a, "/", '/');
      assert (a + "/" + b)[..|a|] == a;
    }
  }

  // ---------------------------------------------------------------------
  // Python float repr of a value given in thousandths

  function FractionDigits(f: nat): (s: string)
    requires f < 1000
    ensures 1 <= |s| <= 3 && AllDigits(s)
  {
    var d1, d2, d3 := f / 100, (f / 10) % 10, f % 10;
    if d3 != 0 then [DigitChar(d1), DigitChar(d2), DigitChar(d3)]
    else if d2 != 0 then [DigitChar(d1), DigitChar(d2)]
    else [DigitChar(d1)]
  }

  /** `str(k / 1000.0)` for a value with at most three decimals and below
      1e16 in magnitude: "1.0", "0.5", "-2.25". */
  function DecimalText(k: int): string {
    var a := if k < 0 then -k else k;
    (if k < 0 then "-" else "") + NatToString(a / 1000) + "." + FractionDigits(a % 1000)
  }

  /** A decimal as `DecimalText` writes it contains no separator other than
      its digits, its dot and its sign. */
  lemma NoSeparatorInDecimal(k: int, c: char)
    requires !IsDigit(c) && c != '.' && c != '-'
    ensures c !in DecimalText(k)
  {
    var a := if k < 0 then -k else k;
    NoSeparatorInDigits(a / 1000, c);
  }

  /** The value in thousandths of one to three fraction digits. */
  function FractionValue(f: string): nat
    requires AllDigits(f) && 1 <= |f| <= 3
  {
    DigitsValue(f) * (if |f| == 1 then 100 else if |f| == 2 then 10 else 1)
  }

  /** Digits, a dot and one to three fraction digits, in thousandths. */
  function ParseUnsignedDecimal(s: string): Option<nat> {
    var parts := Split(s, '.');
    if |parts| == 2 && |parts[0]| > 0 && AllDigits(parts[0]) && 1 <= |parts[1]| <= 3 && AllDigits(parts[1])
    then Some(DigitsValue(parts[0]) * 1000 + FractionValue(parts[1]))
    else None
  }

  /** Reads a decimal of the form `DecimalText` writes (an optional `-`,
      then `ParseUnsignedDecimal`), in thousandths; `None` for any other
      text. */
  function ParseDecimal(s: string): Option<int> {
    if |s| > 0 && s[0] == '-' then
      match ParseUnsignedDecimal(s[1..])
      case None => None
      case Some(v) => Some(-(v as int))
    else
      match ParseUnsignedDecimal(s)
      case None => None
      case Some(v) => Some(v as int)
  }

  lemma FractionDigitsValue(f: nat)
    requires f < 1000
    ensures FractionValue(FractionDigits(f)) == f
  {
    var d1, d2, d3 := f / 100, (f / 10) % 10, f % 10;
    assert f == 100 * d1 + 10 * d2 + d3;
    var c1, c2, c3 := DigitChar(d1), DigitChar(d2), DigitChar(d3);
    assert DigitsValue([c1]) == d1 by { assert [c1][..0] == []; }
    assert DigitsValue([c1, c2]) == 10 * d1 + d2 by { assert [c1, c2][..1] == [c1]; }
    if d3 != 0 {
      assert [c1, c2, c3][..2] == [c1, c2];
    }
  }

  lemma UnsignedDecimalRoundTrip(a: nat)
    ensures ParseUnsignedDecimal(NatToString(a / 1000) + "." + FractionDigits(a % 1000)) == Some(a)
  {
    var ip, fp := NatToString(a / 1000), FractionDigits(a % 1000);
    NoSeparatorInDigits(a / 1000, '.');
    assert '.' !in fp by { assert AllDigits(fp); }
    SplitAtFirst(ip, '.', fp);
    SplitWithoutSeparator(fp, '.');
    assert ip + "." + fp == ip + ['.'] + fp;
    DigitsValueOfNatToString(a / 1000);
    FractionDigitsValue(a % 1000);
  }

  /** Writing a value in thousandths as a decimal and reading it back gives
      the value. */
  lemma ParseDecimalOfDecimalText(k: int)
    ensures ParseDecimal(DecimalText(k)) == Some(k)
  {
    var a := if k < 0 then -k else k;
    var body := NatToString(a / 1000) + "." + FractionDigits(a % 1000);
    UnsignedDecimalRoundTrip(a);
    if k < 0 {
      assert DecimalText(k) == "-" + body;
      assert DecimalText(k)[1..] == body;
    } else {
      assert DecimalText(k) == body;
      assert IsDigit(body[0]);
    }
  }
}

/** The data-allowance parser and the catalog loop of the Airalo adapter
    (`internal/provider/airalo.go`), with exact decimal arithmetic. */
module Allowance {
  import opened Common
  import opened Sequences
  import opened Text

  const DATA_UNLIMITED := -1

  datatype Unit = KB | MB | GB | TB {
    function Name(): (s: string)
      ensures |s| == 2 && 'A' <= s[0] <= 'Z' && s[1] == 'B'
    {
      match this
      case KB => "KB"
      case MB => "MB"
      case GB => "GB"
      case TB => "TB"
    }
  }

  /** Of the letters outside ASCII only U+0131 and U+017F have an upper case
      inside it, I and S. Neither occurs in a unit, so the ASCII map decides the
      same strings. */
  function ToUpper(c: char): char {
    if 'a' <= c <= 'z' then (c as int - 32) as char else c
  }

  function ToLower(c: char): char {
    if 'A' <= c <= 'Z' then (c as int + 32) as char else c
  }

  function Upper(s: string): (r: string)
    ensures |r| == |s| && forall i :: 0 <= i < |s| ==> r[i] == ToUpper(s[i])
  {
    seq(|s|, i requires 0 <= i < |s| => ToUpper(s[i]))
  }

  function Lower(s: string): (r: string)
    ensures |r| == |s| && forall i :: 0 <= i < |s| ==> r[i] == ToLower(s[i])
  {
    seq(|s|, i requires 0 <= i < |s| => ToLower(s[i]))
  }

  // -------------------------------------------------------------- the pattern

  /** The class \s of RE2: no vertical tab, nothing outside ASCII. */
  predicate ReSpace(c: char) {
    c == '\t' || c == '\n' || c == '\U{000C}' || c == '\r' || c == ' '
  }

  predicate Gap(s: string) {
    forall i :: 0 <= i < |s| ==> ReSpace(s[i])
  }

  datatype Numeral = Numeral(whole: string, fraction: string) {
    predicate Valid() {
      whole != "" && AllDigits(whole) && AllDigits(fraction)
    }

    function Show(): string {
      if fraction == "" then whole else whole + "." + fraction
    }
  }

  function DigitRun(s: string): (k: nat)
    ensures k <= |s| && AllDigits(s[..k]) && (k < |s| ==> !IsDigit(s[k]))
  {
    if s == "" || !IsDigit(s[0]) then 0
    else
      var k := DigitRun(s[1..]);
      assert forall i :: 0 < i < k + 1 ==> s[i] == s[1..][..k][i - 1];
      k + 1
  }

  /** [0-9]+(?:\.[0-9]+)? */
  function SplitNumeral(s: string): (n: Option<Numeral>)
    ensures n.Some? ==> n.value.Valid() && n.value.Show() == s
  {
    var k := DigitRun(s);
    if k == 0 then None
    else if k == |s| then assert s[..k] == s; Some(Numeral(s, ""))
    else if s[k] == '.' && k + 1 < |s| && AllDigits(s[k + 1..]) then
      assert s == s[..k] + "." + s[k + 1..];
      Some(Numeral(s[..k], s[k + 1..]))
    else None
  }

  function TrimRight(s: string): (r: string)
    ensures r != "" ==> !ReSpace(r[|r|-1])
    ensures r <= s && Gap(s[|r|..])
  {
    if s != "" && ReSpace(s[|s|-1]) then
      var r := TrimRight(s[..|s|-1]);
      assert forall i :: |r| <= i < |s| - 1 ==> s[i] == s[..|s|-1][|r|..][i - |r|];
      r
    else s
  }

  function UnitOf(s: string): (u: Option<Unit>)
    ensures u.Some? ==> u.value.Name() == s
    ensures u.None? ==> forall v: Unit :: v.Name() != s
  {
    if s == "KB" then Some(KB) else if s == "MB" then Some(MB) else if s == "GB" then Some(GB) else if s == "TB" then Some(TB) else None
  }

  /** The submatches of the pattern: the unit is the last two characters, white
      space before it is dropped, and the rest is the numeral. */
  function FindSubmatch(t: string): (m: Option<(Numeral, Unit)>)
    ensures m.Some? ==> m.value.0.Valid()
  {
    if |t| < 2 then None else
    match UnitOf(t[|t| - 2..])
    case None => None
    case Some(u) =>
      match SplitNumeral(TrimRight(t[..|t| - 2]))
      case None => None
      case Some(n) => Some((n, u))
  }

  lemma {:induction false} DigitRunOf(a: string, b: string)
    requires AllDigits(a) && (b == "" || !IsDigit(b[0]))
    ensures DigitRun(a + b) == |a|
  {
    if a == "" {
      assert a + b == b;
    } else {
      assert (a + b)[1..] == a[1..] + b;
      DigitRunOf(a[1..], b);
    }
  }

  lemma SplitShown(n: Numeral)
    requires n.Valid()
    ensures SplitNumeral(n.Show()) == Some(n)
  {
    var rest := if n.fraction == "" then "" else "." + n.fraction;
    assert n.Show() == n.whole + rest;
    DigitRunOf(n.whole, rest);
    if n.fraction != "" {
      assert n.Show()[..|n.whole|] == n.whole && n.Show()[|n.whole| + 1..] == n.fraction;
    }
  }

  lemma {:induction false} TrimGap(a: string, g: string)
    requires Gap(g) && a != "" && !ReSpace(a[|a|-1])
    ensures TrimRight(a + g) == a
    decreases |g|
  {
    if g == "" {
      assert a + g == a;
    } else {
      assert (a + g)[..|a + g| - 1] == a + g[..|g|-1];
      TrimGap(a, g[..|g|-1]);
    }
  }

  /** Whatever is built as numeral, white space, unit is found again ... */
  lemma FindBuilt(n: Numeral, g: string, u: Unit)
    requires n.Valid() && Gap(g)
    ensures FindSubmatch(n.Show() + g + u.Name()) == Some((n, u))
  {
    var t, shown := n.Show() + g + u.Name(), n.Show();
    assert t[|t| - 2..] == u.Name() && t[..|t| - 2] == shown + g;
    assert UnitOf(u.Name()) == Some(u);
    assert IsDigit(shown[|shown| - 1]);
    TrimGap(shown, g);
    SplitShown(n);
  }

  /** ... and nothing else is: a match is such a string. */
  lemma FoundIsBuilt(t: string) returns (g: string)
    requires FindSubmatch(t).Some?
    ensures Gap(g) && t == FindSubmatch(t).value.0.Show() + g + FindSubmatch(t).value.1.Name()
  {
    var head := t[..|t| - 2];
    var shown := TrimRight(head);
    g := head[|shown|..];
    assert head == shown + g && t == head + t[|t| - 2..];
  }

  // --------------------------------------------------------------- the number

  function Amount(n: Numeral): (x: real)
    requires n.Valid()
  {
    Value(n.whole) as real + Value(n.fraction) as real / Pow10(|n.fraction|) as real
  }

  /** Conversion to int drops the fraction; amounts are not negative. */
  function Convert(x: real, u: Unit): int {
    match u
    case TB => (x * 1024.0 * 1024.0).Floor
    case GB => (x * 1024.0).Floor
    case MB => x.Floor
    case KB => (x / 1024.0).Floor
  }

  function ParseDataMB(s: string): Result<int, string> {
    var t := TrimSpace(s);
    if Lower(t) == "unlimited" then Ok(DATA_UNLIMITED)
    else
      match FindSubmatch(Upper(t))
      case None => Err(s)
      case Some(m) => Ok(Convert(Amount(m.0), m.1))
  }

  function Factor(u: Unit): int {
    match u
    case TB => 1024 * 1024
    case GB => 1024
    case MB => 1
    case KB => 1
  }

  function Divisor(u: Unit): int {
    if u == KB then 1024 else 1
  }

  lemma ShiftDigit(x: int, p: int, v: int, d: int)
    ensures 10 * (x * p + v) + d == x * (10 * p) + (10 * v + d)
  {
  }

  lemma LastDigit(a: string, b: string)
    requires AllDigits(a) && AllDigits(b) && b != ""
    ensures Value(a + b) == 10 * Value(a + b[..|b|-1]) + (b[|b|-1] as nat - '0' as nat)
  {
    assert (a + b)[..|a + b|-1] == a + b[..|b|-1];
  }

  lemma {:induction false} ValueConcat(a: string, b: string)
    requires AllDigits(a) && AllDigits(b)
    ensures Value(a + b) == Value(a) * Pow10(|b|) + Value(b)
    decreases |b|
  {
    if b == "" {
      assert a + b == a;
    } else {
      var c := b[..|b|-1];
      ValueConcat(a, c);
      LastDigit(a, b);
      ShiftDigit(Value(a), Pow10(|c|), Value(c), b[|b|-1] as nat - '0' as nat);
    }
  }

  lemma FloorOfRatio(a: nat, b: nat)
    requires b > 0
    ensures (a as real / b as real).Floor == a / b
  {
    var q, r := a / b, a % b;
    assert a as real == q as real * b as real + r as real;
    assert a as real / b as real == q as real + r as real / b as real;
    assert 0.0 <= r as real / b as real < 1.0;
  }

  lemma OverOneDenominator(a: real, b: real, d: real)
    requires d > 0.0
    ensures a + b / d == (a * d + b) / d
  {
    assert a * d / d == a;
  }

  lemma TimesRatio(v: real, d: real, f: real)
    requires d > 0.0
    ensures v / d * f == v * f / d
  {
    assert v * f / d == v * (f / d);
  }

  lemma RatioOver(v: real, d: real, k: real)
    requires d > 0.0 && k > 0.0
    ensures v / d / k == v / (d * k)
  {
    var x := v / d;
    assert x * d == v;
    assert x / k * k == x;
    assert (x / k) * (d * k) == x / k * k * d;
  }

  lemma Ratio(n: Numeral)
    requires n.Valid()
    ensures Amount(n) == Value(n.whole + n.fraction) as real / Pow10(|n.fraction|) as real
  {
    ValueConcat(n.whole, n.fraction);
    RatioOfSum(Value(n.whole), Value(n.fraction), Pow10(|n.fraction|));
  }

  lemma RatioOfSum(w: nat, f: nat, d: nat)
    requires d > 0
    ensures w as real + f as real / d as real == (w * d + f) as real / d as real
  {
    OverOneDenominator(w as real, f as real, d as real);
    CastOfSum(w, d, f);
  }

  lemma CastOfSum(w: int, d: int, f: int)
    ensures (w * d + f) as real == w as real * d as real + f as real
  {
  }

  lemma ScaleUp(v: nat, d: nat, f: nat)
    requires d > 0
    ensures (v as real / d as real * f as real).Floor == v * f / d
  {
    TimesRatio(v as real, d as real, f as real);
    CastOfSum(v, f, 0);
    FloorOfRatio(v * f, d);
  }

  lemma ScaleDown(v: nat, d: nat, k: nat)
    requires d > 0 && k > 0
    ensures d * k > 0 && (v as real / d as real / k as real).Floor == v / (d * k)
  {
    RatioOver(v as real, d as real, k as real);
    CastOfSum(d, k, 0);
    FloorOfRatio(v, d * k);
  }

  function MegaBytes(n: Numeral, u: Unit): int
    requires n.Valid()
  {
    Value(n.whole + n.fraction) * Factor(u) / (Pow10(|n.fraction|) * Divisor(u))
  }

  /** The result is the floor of the exact amount: all the digits as one integer,
      times the unit, divided by the power of ten of the fraction. */
  lemma ConvertIsExact(n: Numeral, u: Unit)
    requires n.Valid()
    ensures Convert(Amount(n), u) == MegaBytes(n, u) >= 0
  {
    Ratio(n);
    ConvertRatio(Amount(n), Value(n.whole + n.fraction), Pow10(|n.fraction|), u);
  }

  lemma ScaledUp(x: real, v: nat, d: nat)
    requires d > 0 && x == v as real / d as real
    ensures (x * 1024.0).Floor == v * 1024 / d
    ensures (x * 1024.0 * 1024.0).Floor == v * 1048576 / d
  {
    ScaleUp(v, d, 1024);
    ScaleUp(v, d, 1048576);
    Twice(x);
  }

  lemma Twice(x: real)
    ensures x * 1024.0 * 1024.0 == x * 1048576.0
  {
  }

  lemma NotNegative(n: nat, d: nat)
    requires d > 0
    ensures n / d >= 0
  {
  }

  lemma ConvertRatio(x: real, v: nat, d: nat, u: Unit)
    requires d > 0 && x == v as real / d as real
    ensures Convert(x, u) == v * Factor(u) / (d * Divisor(u)) >= 0
  {
    if u == KB {
      ScaleDown(v, d, 1024);
      NotNegative(v, d * 1024);
    } else {
      assert d * Divisor(u) == d;
      ConvertUp(x, v, d, u);
    }
  }

  lemma ConvertUp(x: real, v: nat, d: nat, u: Unit)
    requires d > 0 && x == v as real / d as real && u != KB
    ensures Convert(x, u) == v * Factor(u) / d >= 0
  {
    match u
    case TB => ScaledUp(x, v, d); NotNegative(v * 1048576, d);
    case GB => ScaledUp(x, v, d); NotNegative(v * 1024, d);
    case MB => FloorOfRatio(v, d); NotNegative(v, d);
  }

  // --------------------------------------------------------------- the grammar

  /** Every accepted text, with its spacing and letter case as written. */
  datatype Form =
    | Unlimited(before: string, word: string, after: string)
    | Quantity(before: string, numeral: Numeral, gap: string, unit: string, after: string)
  {
    predicate Valid() {
      && Blank(before) && Blank(after)
      && match this
         case Unlimited(_, word, _) => Lower(word) == "unlimited"
         case Quantity(_, numeral, gap, unit, _) => numeral.Valid() && Gap(gap) && UnitOf(Upper(unit)).Some?
    }

    function Print(): string {
      match this
      case Unlimited(before, word, after) => before + word + after
      case Quantity(before, numeral, gap, unit, after) => before + (numeral.Show() + gap + unit) + after
    }

    function Meaning(): int
      requires Valid()
    {
      match this
      case Unlimited(_, _, _) => DATA_UNLIMITED
      case Quantity(_, numeral, _, unit, _) => MegaBytes(numeral, UnitOf(Upper(unit)).value)
    }
  }

  lemma UpperShown(n: Numeral, g: string, unit: string)
    requires n.Valid() && Gap(g)
    ensures Upper(n.Show() + g + unit) == n.Show() + g + Upper(unit)
  {
  }

  /** Parsing undoes printing. */
  lemma ParsePrinted(p: Form)
    requires p.Valid()
    ensures ParseDataMB(p.Print()) == Ok(p.Meaning())
  {
    match p
    case Unlimited(before, word, after) =>
      assert ToLower(word[0]) == 'u' && ToLower(word[|word| - 1]) == 'd';
      TrimPadded(before, word, after);
    case Quantity(before, n, g, unit, after) =>
      var core, u := n.Show() + g + unit, UnitOf(Upper(unit)).value;
      assert IsDigit(core[0]) && ToLower(core[0]) != 'u';
      assert Upper(unit)[1] == 'B' && core[|core| - 1] == unit[1];
      TrimPadded(before, core, after);
      UpperShown(n, g, unit);
      FindBuilt(n, g, u);
      ConvertIsExact(n, u);
  }

  /** Whatever parses was printed from a form with that meaning. */
  lemma ParsedIsPrinted(s: string) returns (p: Form)
    ensures ParseDataMB(s).Ok? ==> p.Valid() && p.Print() == s && ParseDataMB(s) == Ok(p.Meaning())
  {
    var before, after := TrimSplits(s);
    var t := TrimSpace(s);
    p := Unlimited(before, t, after);
    if Lower(t) != "unlimited" && FindSubmatch(Upper(t)).Some? {
      var (n, u) := FindSubmatch(Upper(t)).value;
      var g := FoundIsBuilt(Upper(t));
      CaseOfMatch(t, n, g, u);
      p := Quantity(before, n, g, t[|t| - 2..], after);
      ConvertIsExact(n, u);
    }
  }

  /** Digits, the point and white space have no case, so only the unit of a match
      can be written in lower case. */
  lemma CaseOfMatch(t: string, n: Numeral, g: string, u: Unit)
    requires n.Valid() && Gap(g) && Upper(t) == n.Show() + g + u.Name()
    ensures t == n.Show() + g + t[|t| - 2..] && Upper(t[|t| - 2..]) == u.Name()
  {
    var head := n.Show() + g;
    forall i | 0 <= i < |head| ensures t[i] == head[i] {
      assert ToUpper(t[i]) == Upper(t)[i] == head[i];
      assert IsDigit(head[i]) || head[i] == '.' || ReSpace(head[i]);
    }
    assert t == head + t[|t| - 2..];
    assert Upper(t)[|t| - 2..] == u.Name();
    assert Upper(t[|t| - 2..]) == Upper(t)[|t| - 2..];
  }

  /** The parser accepts exactly the grammar, gives each text its one meaning, and
      gives -1 to nothing but "unlimited". */
  lemma ParserIsExact(s: string, v: int)
    ensures ParseDataMB(s) == Ok(v) <==> exists p: Form :: p.Valid() && p.Print() == s && p.Meaning() == v
    ensures ParseDataMB(s) == Ok(v) ==> v >= -1 && (v == -1 <==> Lower(TrimSpace(s)) == "unlimited")
  {
    if ParseDataMB(s) == Ok(v) {
      var p := ParsedIsPrinted(s);
      if p.Quantity? {
        ConvertIsExact(p.numeral, UnitOf(Upper(p.unit)).value);
      }
      if Lower(TrimSpace(s)) != "unlimited" {
        var (n, u) := FindSubmatch(Upper(TrimSpace(s))).value;
        ConvertIsExact(n, u);
      }
    }
    forall p: Form | p.Valid() && p.Print() == s && p.Meaning() == v ensures ParseDataMB(s) == Ok(v) {
      ParsePrinted(p);
    }
  }

  /** A whole number of a unit, in any letter case, reads back as that number of
      megabytes; zero stays zero, apart from "unlimited" and from an error. */
  lemma WholeAmounts(k: nat, g: string, unit: string, u: Unit)
    requires Gap(g) && Upper(unit) == u.Name()
    ensures ParseDataMB(Digits(k) + g + unit) == Ok(k * Factor(u) / Divisor(u))
  {
    var n := Numeral(Digits(k), "");
    var p := Quantity("", n, g, unit, "");
    assert UnitOf(u.Name()) == Some(u);
    assert p.Print() == Digits(k) + g + unit;
    assert n.whole + n.fraction == Digits(k) && Pow10(0) == 1;
    ParsePrinted(p);
  }

  // ----------------------------------------------------- spellings, one by one

  lemma UnitCase(unit: string, c: char)
    requires |unit| == 2 && 'A' <= c <= 'Z' && (unit[0] == c || unit[0] as int == c as int + 32) && (unit[1] == 'b' || unit[1] == 'B')
    ensures Upper(unit) == [c, 'B']
  {
  }

  lemma Spelled(k: nat, g: string, unit: string, c: char, u: Unit)
    requires Gap(g) && u.Name() == [c, 'B']
    requires |unit| == 2 && (unit[0] == c || unit[0] as int == c as int + 32) && (unit[1] == 'b' || unit[1] == 'B')
    ensures ParseDataMB(Digits(k) + g + unit) == Ok(Scaled(k, u))
  {
    UnitCase(unit, c);
    WholeAmounts(k, g, unit, u);
  }

  function Scaled(k: nat, u: Unit): (mb: int)
    ensures mb == k * Factor(u) / Divisor(u)
  {
    match u
    case TB => k * 1_048_576
    case GB => k * 1024
    case MB => k
    case KB => k / 1024
  }

  /** "5 GB", "5gb", "5\tGb": any run of blanks, tabs, line ends and form feeds, or
      none, between number and unit, and either case of each letter. */
  lemma UnitSpellings(k: nat, g: string, unit: string)
    requires forall c :: c in g ==> c == ' ' || c == '\t' || c == '\n' || c == '\r' || c == '\U{000C}'
    requires |unit| == 2 && (unit[1] == 'b' || unit[1] == 'B')
    ensures var r := ParseDataMB(Digits(k) + g + unit);
            && (unit[0] == 't' || unit[0] == 'T' ==> r == Ok(k * 1_048_576))
            && (unit[0] == 'g' || unit[0] == 'G' ==> r == Ok(k * 1024))
            && (unit[0] == 'm' || unit[0] == 'M' ==> r == Ok(k))
            && (unit[0] == 'k' || unit[0] == 'K' ==> r == Ok(k / 1024))
  {
    forall i | 0 <= i < |g| ensures ReSpace(g[i]) { assert g[i] in g; }
    if unit[0] == 't' || unit[0] == 'T' {
      Spelled(k, g, unit, 'T', TB);
    } else if unit[0] == 'g' || unit[0] == 'G' {
      Spelled(k, g, unit, 'G', GB);
    } else if unit[0] == 'm' || unit[0] == 'M' {
      Spelled(k, g, unit, 'M', MB);
    } else if unit[0] == 'k' || unit[0] == 'K' {
      Spelled(k, g, unit, 'K', KB);
    }
  }

  lemma NoNumeral(d: string, c: char)
    requires d != "" && AllDigits(d) && !IsDigit(c) && !ReSpace(c)
    ensures FindSubmatch(d + [c] + "GB") == None
  {
    var t := d + [c] + "GB";
    assert t[|t| - 2..] == "GB" && t[..|t| - 2] == d + [c];
    assert TrimRight(d + [c]) == d + [c];
    DigitRunOf(d, [c]);
  }

  lemma OtherCharacter(d: string, c: char)
    requires d != "" && AllDigits(d) && !IsDigit(c) && !ReSpace(c)
    ensures ParseDataMB(d + [c] + "GB").Err?
  {
    var s := d + [c] + "GB";
    TrimPadded("", s, "");
    assert "" + s + "" == s;
    assert Upper(s) == d + [ToUpper(c)] + "GB";
    NoNumeral(d, ToUpper(c));
    assert IsDigit(s[0]) && Lower(s)[0] == s[0];
  }

  /** One character between number and unit is accepted only if it is such a space,
      or one more digit. */
  lemma OneCharacterGap(k: nat, c: char)
    ensures ParseDataMB(Digits(k) + [c] + "GB").Ok? <==>
            c == ' ' || c == '\t' || c == '\n' || c == '\r' || c == '\U{000C}' || '0' <= c <= '9'
  {
    var s, d := Digits(k) + [c] + "GB", Digits(k);
    if c == ' ' || c == '\t' || c == '\n' || c == '\r' || c == '\U{000C}' {
      UnitSpellings(k, [c], "GB");
    } else if '0' <= c <= '9' {
      var p := Quantity("", Numeral(d + [c], ""), "", "GB", "");
      assert Upper("GB") == "GB" && p.Print() == s;
      ParsePrinted(p);
    } else {
      OtherCharacter(d, c);
    }
  }

  /** "Unlimited", "UNLIMITED" and the like mean -1. */
  lemma UnlimitedSpellings(w: string)
    requires |w| == 9
    ensures ParseDataMB(w) == Ok(-1) <==> forall i :: 0 <= i < 9 ==> w[i] == "unlimited"[i] || w[i] == "UNLIMITED"[i]
  {
    forall i | 0 <= i < 9 ensures ToLower(w[i]) == "unlimited"[i] <==> w[i] == "unlimited"[i] || w[i] == "UNLIMITED"[i] {
      LowerIff(w[i], "unlimited"[i], "UNLIMITED"[i]);
    }
    assert Lower(w) == "unlimited" <==> forall i :: 0 <= i < 9 ==> Lower(w)[i] == "unlimited"[i];
    if Lower(w) == "unlimited" {
      assert ToLower(w[0]) == 'u' && ToLower(w[8]) == 'd';
      TrimPadded("", w, "");
      assert "" + w + "" == w;
    }
    if ParseDataMB(w) == Ok(-1) {
      ParserIsExact(w, -1);
      var a, b := TrimSplits(w);
      assert |Lower(TrimSpace(w))| == 9;
      assert a == "" && b == "";
      assert TrimSpace(w) == w;
    }
  }

  lemma LowerIff(c: char, low: char, up: char)
    requires 'a' <= low <= 'z' && up as int == low as int - 32
    ensures ToLower(c) == low <==> c == low || c == up
  {
  }

  /** Blanks, tabs and line ends around a text change neither whether nor as what
      it is read. */
  lemma PaddingIsIgnored(before: string, s: string, after: string)
    requires forall c :: c in before + after ==> c == ' ' || c == '\t' || c == '\n' || c == '\r'
    ensures var (p, q) := (ParseDataMB(before + s + after), ParseDataMB(s));
            (p.Ok? <==> q.Ok?) && (p.Ok? ==> p.value == q.value)
  {
    forall i | 0 <= i < |before| ensures IsSpace(before[i]) { assert before[i] in before + after; }
    forall i | 0 <= i < |after| ensures IsSpace(after[i]) { assert after[i] in before + after; }
    TrimInside(before, s, after);
  }

  // --------------------------------------------------------------- the catalog

  datatype OperatorPackage = OperatorPackage(id: string, title: string, data: string, day: int, cents: int)

  datatype Country = Country(slug: string, packages: seq<OperatorPackage>)

  datatype Offering = Offering(id: string, title: string, region: string, dataMB: int, validityDays: int, cents: int)

  datatype Entry = Entry(slug: string, op: OperatorPackage) {
    function Offer(): Option<Offering> {
      match ParseDataMB(op.data)
      case Ok(mb) => Some(Offering(op.id, op.title, Upper(slug), mb, op.day, op.cents))
      case Err(_) => None
    }
  }

  function Offers(slug: string, ops: seq<OperatorPackage>): (os: seq<Option<Offering>>)
    ensures |os| == |ops|
  {
    seq(|ops|, i requires 0 <= i < |ops| => Entry(slug, ops[i]).Offer())
  }

  function Batches(cs: seq<Country>): (bs: seq<seq<Option<Offering>>>)
    ensures |bs| == |cs| && forall i :: 0 <= i < |cs| ==> bs[i] == Offers(cs[i].slug, cs[i].packages)
  {
    seq(|cs|, i requires 0 <= i < |cs| => Offers(cs[i].slug, cs[i].packages))
  }

  /** The response in reading order, None for an entry that does not parse. */
  function Listing(cs: seq<Country>): seq<Option<Offering>> {
    Flatten(Batches(cs))
  }

  lemma ListingNext(data: seq<Country>, i: nat)
    requires i < |data|
    ensures Listing(data[..i+1]) == Listing(data[..i]) + Offers(data[i].slug, data[i].packages)
  {
    assert Batches(data[..i+1]) == Batches(data[..i]) + [Offers(data[i].slug, data[i].packages)];
    FlattenNext(Batches(data[..i]), Offers(data[i].slug, data[i].packages));
  }

  lemma OfferAt(slug: string, ops: seq<OperatorPackage>, j: nat)
    requires j < |ops|
    ensures Offers(slug, ops)[j] == Entry(slug, ops[j]).Offer()
  {
  }

  /** An entry is offered iff its allowance parses: with that allowance, its own
      id, title, days and price, and its country's slug in capitals as region. */
  lemma OfferedIff(e: Entry)
    ensures e.Offer().Some? <==> ParseDataMB(e.op.data).Ok?
    ensures e.Offer().Some? ==>
              var o := e.Offer().value;
              && ParseDataMB(e.op.data) == Ok(o.dataMB)
              && o.id == e.op.id && o.title == e.op.title && o.validityDays == e.op.day && o.cents == e.op.cents
              && |o.region| == |e.slug|
              && forall i :: 0 <= i < |e.slug| ==>
                   if 'a' <= e.slug[i] <= 'z' then o.region[i] as int == e.slug[i] as int - 32 else o.region[i] == e.slug[i]
  {
  }

  /** What Catalog returns: as many offers as the response has parsable packages,
      and package j of country i, if it parses, at the position that counts the
      parsable packages before it. */
  lemma CatalogIsExact(cs: seq<Country>, i: nat, j: nat)
    requires i < |cs| && j < |cs[i].packages|
    ensures var (all, at, offer) := (Listing(cs), Before(Batches(cs), i) + j, Entry(cs[i].slug, cs[i].packages[j]).Offer());
            && |all| == Before(Batches(cs), |cs|) && |Somes(all)| == Rank(all, |all|)
            && at < |all| && all[at] == offer
            && (offer.Some? <==> ParseDataMB(cs[i].packages[j].data).Ok?)
            && (offer.Some? ==> Rank(all, at) < |Somes(all)| && Somes(all)[Rank(all, at)] == offer.value)
  {
    FlattenAt(Batches(cs), i, j);
    var offer := Offers(cs[i].slug, cs[i].packages)[j];
    SomesHas(Listing(cs), Before(Batches(cs), i) + j, offer);
    OfferAt(cs[i].slug, cs[i].packages, j);
    OfferedIff(Entry(cs[i].slug, cs[i].packages[j]));
  }

  method Catalog(data: seq<Country>) returns (out: seq<Offering>)
    ensures out == Somes(Listing(data))
  {
    out := [];
    for i := 0 to |data|
      invariant out == Somes(Listing(data[..i]))
    {
      var c := data[i];
      ghost var before, os := Listing(data[..i]), Offers(c.slug, c.packages);
      assert before + os[..0] == before;
      for j := 0 to |c.packages|
        invariant out == Somes(before + os[..j])
      {
        TakeNext(before, os, j);
        OfferAt(c.slug, c.packages, j);
        SomesNext(before + os[..j], os[j]);
        var op := c.packages[j];
        var mb := ParseDataMB(op.data);
        if mb.Err? { continue; }
        out := out + [Offering(op.id, op.title, Upper(c.slug), mb.value, op.day, op.cents)];
      }
      ListingNext(data, i);
      assert os[..|c.packages|] == os;
    }
    assert data[..|data|] == data;
  }
}

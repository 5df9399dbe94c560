/** Strings and decimal numerals. Strings are sequences of code points; lengths
    agree with Go's on ASCII. */
module Text {

  /** unicode.IsSpace. */
  predicate IsSpace(c: char) {
    || '\t' <= c <= '\r' || c == ' ' || c == '\U{0085}' || c == '\U{00A0}' || c == '\U{1680}'
    || '\U{2000}' <= c <= '\U{200A}' || c == '\U{2028}' || c == '\U{2029}' || c == '\U{202F}' || c == '\U{205F}'
    || c == '\U{3000}'
  }

  /** strings.TrimSpace: the longest middle part that neither starts nor ends
      with a space. */
  function TrimSpace(s: string): (r: string)
    ensures r != "" ==> !IsSpace(r[0]) && !IsSpace(r[|r|-1])
    ensures |r| <= |s|
  {
    if s != "" && IsSpace(s[0]) then TrimSpace(s[1..])
    else if s != "" && IsSpace(s[|s|-1]) then TrimSpace(s[..|s|-1])
    else s
  }

  predicate Blank(s: string) {
    forall i :: 0 <= i < |s| ==> IsSpace(s[i])
  }

  /** Trimming undoes any padding with spaces. */
  lemma {:induction false} TrimPadded(a: string, t: string, b: string)
    requires Blank(a) && Blank(b) && (t != "" ==> !IsSpace(t[0]) && !IsSpace(t[|t|-1]))
    ensures TrimSpace(a + t + b) == t
    decreases |a| + |b|
  {
    var s := a + t + b;
    if t == "" {
      TrimBlank(s);
    } else if a != "" {
      assert s[1..] == a[1..] + t + b;
      TrimPadded(a[1..], t, b);
    } else if b != "" {
      assert s[..|s|-1] == a + t + b[..|b|-1];
      TrimPadded(a, t, b[..|b|-1]);
    } else {
      assert s == t;
    }
  }

  lemma {:induction false} TrimBlank(s: string)
    requires Blank(s)
    ensures TrimSpace(s) == ""
  {
    if s != "" {
      TrimBlank(s[1..]);
    }
  }

  lemma PadLeft(c: char, a: string, t: string, b: string)
    ensures [c] + (a + t + b) == ([c] + a) + t + b
  {
  }

  lemma PadRight(a: string, t: string, b: string, c: char)
    ensures (a + t + b) + [c] == a + t + (b + [c])
  {
  }

  /** Every string is its trimmed part between two blank pads. */
  lemma {:induction false} TrimSplits(s: string) returns (a: string, b: string)
    ensures Blank(a) && Blank(b) && s == a + TrimSpace(s) + b
  {
    if s != "" && IsSpace(s[0]) {
      var a', b' := TrimSplits(s[1..]);
      a, b := [s[0]] + a', b';
      PadLeft(s[0], a', TrimSpace(s[1..]), b');
      assert s == [s[0]] + s[1..];
    } else if s != "" && IsSpace(s[|s|-1]) {
      var a', b' := TrimSplits(s[..|s|-1]);
      a, b := a', b' + [s[|s|-1]];
      PadRight(a', TrimSpace(s[..|s|-1]), b', s[|s|-1]);
      assert s == s[..|s|-1] + [s[|s|-1]];
    } else {
      a, b := "", "";
    }
  }

  /** More padding changes nothing. */
  lemma TrimInside(a: string, s: string, b: string)
    requires Blank(a) && Blank(b)
    ensures TrimSpace(a + s + b) == TrimSpace(s)
  {
    var c, d := TrimSplits(s);
    assert a + s + b == (a + c) + TrimSpace(s) + (d + b);
    TrimPadded(a + c, TrimSpace(s), d + b);
  }

  predicate IsDigit(c: char) {
    '0' <= c <= '9'
  }

  predicate AllDigits(s: string) {
    forall i :: 0 <= i < |s| ==> IsDigit(s[i])
  }

  /** The number a numeral denotes. */
  function Value(s: string): nat
    requires AllDigits(s)
  {
    if s == "" then 0 else 10 * Value(s[..|s|-1]) + (s[|s|-1] as nat - '0' as nat)
  }

  /** The shortest numeral of n. */
  function Digits(n: nat): (s: string)
    ensures |s| > 0 && AllDigits(s) && Value(s) == n
  {
    var d := [('0' as int + n % 10) as char];
    if n < 10 then assert d[..0] == ""; d
    else
      var s := Digits(n / 10) + d;
      assert s[..|s|-1] == Digits(n / 10);
      s
  }

  function Pow10(n: nat): (r: nat)
    ensures r > 0
  {
    if n == 0 then 1 else 10 * Pow10(n - 1)
  }

  lemma {:induction false} DigitsLength(n: nat, k: nat)
    requires k > 0
    ensures |Digits(n)| <= k <==> n < Pow10(k)
    decreases k
  {
    if n < 10 {
      if k > 1 { DigitsLength(n, k - 1); }
      assert Pow10(1) == 10 * Pow10(0);
    } else if k == 1 {
      assert Pow10(1) == 10 * Pow10(0);
    } else {
      DigitsLength(n / 10, k - 1);
    }
  }

  function Zeros(k: nat): (s: string)
    ensures |s| == k && AllDigits(s)
  {
    seq(k, _ => '0')
  }

  lemma {:induction false} ValueZeros(k: nat, s: string)
    requires AllDigits(s)
    ensures Value(Zeros(k) + s) == Value(s)
    decreases |s|, k
  {
    var t := Zeros(k) + s;
    if s != "" {
      assert t[..|t|-1] == Zeros(k) + s[..|s|-1];
      ValueZeros(k, s[..|s|-1]);
    } else if k > 0 {
      assert t[..|t|-1] == Zeros(k - 1) + s;
      ValueZeros(k - 1, s);
    } else {
      assert t == s;
    }
  }

  /** The %0kd verb: at least k digits, zero-padded. */
  function Padded(n: nat, k: nat): (s: string)
    ensures AllDigits(s)
  {
    var d := Digits(n);
    if |d| < k then Zeros(k - |d|) + d else d
  }

  /** Padding keeps the number, and gives exactly k digits when it fits. */
  lemma PaddedValue(n: nat, k: nat)
    requires k > 0
    ensures Value(Padded(n, k)) == n
    ensures |Padded(n, k)| >= k && (|Padded(n, k)| == k <==> n < Pow10(k))
  {
    DigitsLength(n, k);
    PaddedLength(n, k);
    if |Digits(n)| < k {
      ValueZeros(k - |Digits(n)|, Digits(n));
    }
  }

  lemma PaddedLength(n: nat, k: nat)
    ensures |Padded(n, k)| == if |Digits(n)| < k then k else |Digits(n)|
  {
  }
}

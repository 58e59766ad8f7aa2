/** Text helpers shared by the models: positional number printing and parsing
    (the `%d` and `%x` verbs, `strconv.Itoa`, `strconv.Atoi`), and joining and
    splitting on a separator character. */
module Text {

  datatype Option<+T> = None | Some(value: T)

  // ---------- digits ----------

  function DigitChar(d: nat): char
    requires d < 16
  {
    if d < 10 then '0' + d as char else 'a' + (d - 10) as char
  }

  function DigitValue(c: char): (d: nat)
    ensures d < 16
  {
    if '0' <= c <= '9' then (c - '0') as nat
    else if 'a' <= c <= 'f' then 10 + (c - 'a') as nat
    else 0
  }

  predicate IsBase(b: nat) { b == 10 || b == 16 }

  /** `n` written in base `b` with lower-case digits and no padding. */
  function Print(n: nat, b: nat): (s: string)
    requires IsBase(b)
    ensures |s| > 0
    ensures forall i :: 0 <= i < |s| ==> '0' <= s[i] <= '9' || (b == 16 && 'a' <= s[i] <= 'f')
    decreases n
  {
    if n < b then [DigitChar(n)]
    else if b == 10 then Print(n / 10, 10) + [DigitChar(n % 10)]
    else Print(n / 16, 16) + [DigitChar(n % 16)]
  }

  function Dec(n: nat): string { Print(n, 10) }

  function Hex(n: nat): string { Print(n, 16) }

  function Value(s: string, b: nat): nat
    requires IsBase(b)
  {
    if s == [] then 0
    else
      var init := Value(s[..|s| - 1], b);
      (if b == 10 then init * 10 else init * 16) + DigitValue(s[|s| - 1])
  }

  lemma {:induction false} ValueOfPrint(n: nat, b: nat)
    requires IsBase(b)
    ensures Value(Print(n, b), b) == n
    decreases n
  {
    var s := Print(n, b);
    if n < b {
      assert s[..|s| - 1] == [];
    } else if b == 10 {
      ValueOfPrint(n / 10, 10);
      assert s[..|s| - 1] == Print(n / 10, 10);
    } else {
      ValueOfPrint(n / 16, 16);
      assert s[..|s| - 1] == Print(n / 16, 16);
    }
  }

  lemma PrintInjective(m: nat, n: nat, b: nat)
    requires IsBase(b)
    requires Print(m, b) == Print(n, b)
    ensures m == n
  {
    ValueOfPrint(m, b);
    ValueOfPrint(n, b);
  }

  /** Lower-case digits, most significant first, no padding. */
  lemma PrintIs(n: nat)
    ensures n < 10 ==> Dec(n) == ["0123456789"[n]]
    ensures n >= 10 ==> Dec(n) == Dec(n / 10) + ["0123456789"[n % 10]]
    ensures n < 16 ==> Hex(n) == ["0123456789abcdef"[n]]
    ensures n >= 16 ==> Hex(n) == Hex(n / 16) + ["0123456789abcdef"[n % 16]]
  {
    DigitIs(n % 10);
    DigitIs(n % 16);
  }

  lemma DigitIs(d: nat)
    requires d < 16
    ensures DigitChar(d) == "0123456789abcdef"[d] && (d < 10 ==> DigitChar(d) == "0123456789"[d])
  {
    assert d == 0 || d == 1 || d == 2 || d == 3 || d == 4 || d == 5 || d == 6 || d == 7
        || d == 8 || d == 9 || d == 10 || d == 11 || d == 12 || d == 13 || d == 14 || d == 15;
  }

  // ---------- strconv.Itoa and strconv.Atoi ----------

  const MAX_INT := 0x7fff_ffff_ffff_ffff
  const MIN_INT := -0x8000_0000_0000_0000

  function Itoa(i: int): string {
    if i < 0 then "-" + Dec(-i) else Dec(i)
  }

  predicate AllDecimal(s: string) {
    forall i :: 0 <= i < |s| ==> '0' <= s[i] <= '9'
  }

  /** Base ten, an optional leading sign, at least one digit, 64-bit range; None is
      the error return. */
  function Atoi(s: string): Option<int> {
    var negative := |s| > 0 && s[0] == '-';
    var digits := if |s| > 0 && (s[0] == '-' || s[0] == '+') then s[1..] else s;
    if digits == [] || !AllDecimal(digits) then None
    else
      var magnitude: int := Value(digits, 10);
      var v := if negative then -magnitude else magnitude;
      if MIN_INT <= v <= MAX_INT then Some(v) else None
  }

  lemma AtoiOfItoa(n: int)
    requires MIN_INT <= n <= MAX_INT
    ensures Atoi(Itoa(n)) == Some(n)
  {
    var digits := Dec(if n < 0 then -n else n);
    ValueOfPrint(if n < 0 then -n else n, 10);
    assert AllDecimal(digits);
    if n < 0 {
      assert Itoa(n) == "-" + digits && Itoa(n)[1..] == digits;
    } else {
      assert digits[0] != '-' && digits[0] != '+';
    }
  }

  /** What Atoi takes: an optional sign and decimal digits, within 64 bits. */
  lemma AtoiReads(digits: string)
    requires digits != "" && AllDecimal(digits)
    ensures var v: int := Value(digits, 10);
            && Atoi(digits) == (if v <= MAX_INT then Some(v) else None)
            && Atoi("+" + digits) == (if v <= MAX_INT then Some(v) else None)
            && Atoi("-" + digits) == (if MIN_INT <= 0 - v then Some(0 - v) else None)
  {
    assert '0' <= digits[0] <= '9';
    assert ("+" + digits)[1..] == digits && ("-" + digits)[1..] == digits;
  }

  lemma AtoiRefuses(text: string)
    requires text == "" || !AllDecimal(text)
    ensures text == "" || (text[0] != '-' && text[0] != '+') ==> Atoi(text) == None
    ensures Atoi("+" + text) == None && Atoi("-" + text) == None
  {
    assert ("+" + text)[1..] == text && ("-" + text)[1..] == text;
  }

  lemma NegativesHaveASign()
    ensures Itoa(-1) == "-1"
  {
    assert Dec(1) == "1";
  }

  // ---------- joining and splitting ----------

  /** The parts with `sep` between each two: `strings.Join` with a one-character separator. */
  function Join<T>(parts: seq<seq<T>>, sep: T): seq<T> {
    if parts == [] then []
    else if |parts| == 1 then parts[0]
    else parts[0] + [sep] + Join(parts[1..], sep)
  }

  predicate Lacks<T(==)>(s: seq<T>, c: T) { forall i :: 0 <= i < |s| ==> s[i] != c }

  /** The part of `s` before the first `sep`, and None or the part after it. */
  function Cut<T(==)>(s: seq<T>, sep: T): (r: (seq<T>, Option<seq<T>>))
    ensures r.1.Some? ==> |r.1.value| < |s|
    decreases |s|
  {
    if s == [] then ([], None)
    else if s[0] == sep then ([], Some(s[1..]))
    else var (head, tail) := Cut(s[1..], sep); ([s[0]] + head, tail)
  }

  function Split<T(==)>(s: seq<T>, sep: T): seq<seq<T>>
    decreases |s|
  {
    var (head, tail) := Cut(s, sep);
    if tail.None? then [head] else [head] + Split(tail.value, sep)
  }

  lemma {:induction false} CutAt<T>(a: seq<T>, sep: T, rest: seq<T>)
    requires Lacks(a, sep)
    ensures Cut(a + [sep] + rest, sep) == (a, Some(rest))
  {
    var s := a + [sep] + rest;
    if a == [] {
      assert s[1..] == rest;
    } else {
      assert s[1..] == a[1..] + [sep] + rest;
      CutAt(a[1..], sep, rest);
      assert [a[0]] + a[1..] == a;
    }
  }

  lemma {:induction false} CutNone<T>(a: seq<T>, sep: T)
    requires Lacks(a, sep)
    ensures Cut(a, sep) == (a, None)
  {
    if a != [] {
      CutNone(a[1..], sep);
      assert [a[0]] + a[1..] == a;
    }
  }

  /** Splitting a joined list gives the list back when no part contains the separator. */
  lemma {:induction false} SplitOfJoin<T>(parts: seq<seq<T>>, sep: T)
    requires parts != []
    requires forall i :: 0 <= i < |parts| ==> Lacks(parts[i], sep)
    ensures Split(Join(parts, sep), sep) == parts
  {
    if |parts| == 1 {
      CutNone(parts[0], sep);
    } else {
      CutAt(parts[0], sep, Join(parts[1..], sep));
      SplitOfJoin(parts[1..], sep);
    }
  }
}

/** The D-Bus object-path escaping of systemd/escape.go. A Go string is a byte
    sequence, so a byte is a `char` below 256 here. */
module BusEscape {
  import Text

  type Bytes = s: string | forall i :: 0 <= i < |s| ==> s[i] as int < 256
    witness ""

  predicate IsNum(c: char) { '0' <= c <= '9' }

  predicate IsAlnum(c: char) { IsNum(c) || 'a' <= c <= 'z' || 'A' <= c <= 'Z' }

  predicate IsHex(c: char) { IsNum(c) || 'a' <= c <= 'f' || 'A' <= c <= 'F' }

  function HexValue(c: char): (v: nat)
    requires IsHex(c)
    ensures v < 16
  {
    if IsNum(c) then (c - '0') as nat
    else if c <= 'F' then 10 + (c - 'A') as nat
    else 10 + (c - 'a') as nat
  }

  predicate NeedsEscape(first: bool, c: char) { !IsAlnum(c) || (first && IsNum(c)) }

  // ---------- specification functions ----------

  function EscapeByte(first: bool, c: char): string
    requires c as int < 256
  {
    if NeedsEscape(first, c) then "_" + Text.Hex(c as nat) else [c]
  }

  function EscapeFrom(p: Bytes, first: bool): string {
    if p == [] then [] else EscapeByte(first, p[0]) + EscapeFrom(p[1..], false)
  }

  function Escape(p: Bytes): string {
    if p == [] then "_" else EscapeFrom(p, true)
  }

  /** What one `_xy` triple contributes: a byte, or nothing when `xy` is not hexadecimal. */
  function Triple(x: char, y: char): (r: Bytes) {
    if IsHex(x) && IsHex(y) then [(16 * HexValue(x) + HexValue(y)) as char] else []
  }

  function UnescapeFrom(s: string): string {
    if s == [] then []
    else if s[0] == '_' && |s| > 2 then Triple(s[1], s[2]) + UnescapeFrom(s[3..])
    else [s[0]] + UnescapeFrom(s[1..])
  }

  function Unescape(s: string): string {
    if s == "_" then "" else UnescapeFrom(s)
  }

  // ---------- the two loops ----------

  method PathBusEscape(path: Bytes) returns (n: string)
    ensures n == Escape(path)
  {
    if |path| == 0 {
      return "_";
    }
    n := [];
    for i := 0 to |path|
      invariant n + EscapeFrom(path[i..], i == 0) == EscapeFrom(path, true)
    {
      var c := path[i];
      EscapeUnfold(n, path, i);
      if NeedsEscape(i == 0, c) {
        var e := "_" + Text.Hex(c as nat);
        n := n + e;
      } else {
        n := n + [c];
      }
    }
  }

  lemma EscapeUnfold(n: string, path: Bytes, i: nat)
    requires i < |path|
    ensures n + EscapeFrom(path[i..], i == 0)
            == n + EscapeByte(i == 0, path[i]) + EscapeFrom(path[i + 1..], false)
  {
    assert path[i..][1..] == path[i + 1..];
  }

  lemma UnescapeUnfold(n: string, path: string, i: nat)
    requires i < |path|
    ensures n + UnescapeFrom(path[i..]) ==
            if path[i] == '_' && i + 2 < |path| then
              n + Triple(path[i + 1], path[i + 2]) + UnescapeFrom(path[i + 3..])
            else n + [path[i]] + UnescapeFrom(path[i + 1..])
  {
    if path[i] == '_' && i + 2 < |path| {
      assert path[i..][3..] == path[i + 3..];
    } else {
      assert path[i..][1..] == path[i + 1..];
    }
  }

  method PathBusUnescape(path: string) returns (n: string)
    ensures n == Unescape(path)
  {
    if path == "_" {
      return "";
    }
    n := [];
    var i := 0;
    while i < |path|
      invariant 0 <= i <= |path|
      invariant n + UnescapeFrom(path[i..]) == UnescapeFrom(path)
    {
      var c := path[i];
      UnescapeUnfold(n, path, i);
      if c == '_' && i + 2 < |path| {
        assert n + [] == n;
        if IsHex(path[i + 1]) && IsHex(path[i + 2]) {
          n := n + [(16 * HexValue(path[i + 1]) + HexValue(path[i + 2])) as char];
        }
        i := i + 2;
      } else {
        n := n + [c];
      }
      i := i + 1;
    }
  }

  // ---------- what escaping writes ----------

  lemma HexOfByte(c: char)
    requires c as int < 256
    ensures c as int < 16 ==> Text.Hex(c as nat) == [Text.DigitChar(c as nat)]
    ensures 16 <= c as int ==>
              Text.Hex(c as nat) == [Text.DigitChar(c as nat / 16), Text.DigitChar(c as nat % 16)]
  {
    var n := c as nat;
    if n >= 16 {
      assert Text.Print(n / 16, 16) == [Text.DigitChar(n / 16)];
    }
  }

  predicate PathChar(c: char) { IsAlnum(c) || c == '_' }

  /** Every output is a nonempty element of a D-Bus object path ("Valid Object Paths"
      in the D-Bus Specification) that does not start with a digit. */
  lemma EscapeIsPathElement(p: Bytes)
    ensures |Escape(p)| > 0
    ensures forall i :: 0 <= i < |Escape(p)| ==> PathChar(Escape(p)[i])
    ensures !IsNum(Escape(p)[0])
  {
    if p != [] {
      EscapeFromChars(p, true);
    }
  }

  lemma {:induction false} EscapeFromChars(p: Bytes, first: bool)
    ensures forall i :: 0 <= i < |EscapeFrom(p, first)| ==> PathChar(EscapeFrom(p, first)[i])
  {
    if p != [] {
      EscapeFromChars(p[1..], false);
    }
  }

  // ---------- reading back one unit ----------

  lemma UnescapeTriple(x: char, y: char, t: string)
    ensures UnescapeFrom(['_', x, y] + t) == Triple(x, y) + UnescapeFrom(t)
  {
    assert (['_', x, y] + t)[3..] == t;
  }

  lemma UnescapePlain(c: char, t: string)
    requires c != '_'
    ensures UnescapeFrom([c] + t) == [c] + UnescapeFrom(t)
  {
    assert ([c] + t)[1..] == t;
  }

  /** A byte from 0x10 on is read back from its own escape, and nothing else is consumed. */
  lemma UnescapeHead(first: bool, c: char, t: string)
    requires 16 <= c as int < 256
    ensures UnescapeFrom(EscapeByte(first, c) + t) == [c] + UnescapeFrom(t)
  {
    if NeedsEscape(first, c) {
      HexOfByte(c);
      var x, y := Text.DigitChar(c as nat / 16), Text.DigitChar(c as nat % 16);
      assert EscapeByte(first, c) + t == ['_', x, y] + t;
      assert HexValue(x) == c as nat / 16 && HexValue(y) == c as nat % 16;
      UnescapeTriple(x, y, t);
    } else {
      UnescapePlain(c, t);
    }
  }

  // ---------- the round trip, exactly ----------

  predicate AllFromSpace(p: string) { forall i :: 0 <= i < |p| ==> p[i] as int >= 16 }

  lemma {:induction false} RoundTripFrom(p: Bytes, first: bool)
    requires AllFromSpace(p)
    ensures UnescapeFrom(EscapeFrom(p, first)) == p
  {
    if p != [] {
      UnescapeHead(first, p[0], EscapeFrom(p[1..], false));
      RoundTripFrom(p[1..], false);
    }
  }

  /** How many bytes of `s` are below 0x10, those whose `%x` has a single digit. */
  function Low(s: string): nat {
    if s == [] then 0 else (if s[0] as int < 16 then 1 else 0) + Low(s[1..])
  }

  lemma {:induction false} LowZero(s: string)
    ensures Low(s) == 0 <==> AllFromSpace(s)
  {
    if s != [] {
      LowZero(s[1..]);
      assert s == [s[0]] + s[1..];
    }
  }

  lemma {:induction false} LowConcat(s: string, t: string)
    ensures Low(s + t) == Low(s) + Low(t)
  {
    if s == [] {
      assert s + t == t;
    } else {
      assert (s + t)[1..] == s[1..] + t;
      LowConcat(s[1..], t);
    }
  }

  /** Reading an escaped string back never gains a low byte, and when it keeps them
      all it has lost one byte for each of them. A low byte swallows what follows it:
      the next plain byte, or the start of the next escape, whose remaining digits are
      then read as plain bytes. */
  lemma {:induction false} LowBytesAreNotKept(p: Bytes, first: bool)
    ensures var d := UnescapeFrom(EscapeFrom(p, first));
            Low(d) <= Low(p) && (Low(d) == Low(p) ==> |d| + Low(p) <= |p|)
    decreases |EscapeFrom(p, first)|
  {
    if p != [] {
      var q := p[1..];
      if p[0] as int >= 16 {
        UnescapeHead(first, p[0], EscapeFrom(q, false));
        LowBytesAreNotKept(q, false);
        LowConcat([p[0]], UnescapeFrom(EscapeFrom(q, false)));
      } else {
        LowHead(p[0], q, first);
      }
    }
  }

  lemma {:induction false} LowHead(c: char, q: Bytes, first: bool)
    requires c as int < 16
    ensures var p: Bytes := [c] + q;
            var d := UnescapeFrom(EscapeFrom(p, first));
            Low(d) <= Low(p) && (Low(d) == Low(p) ==> |d| + Low(p) <= |p|)
    decreases 2 + |EscapeFrom(q, false)|, 0
  {
    EscapeLowHead(c, q, first);
    var h := Text.DigitChar(c as nat);
    if q == [] {
      assert UnescapeFrom([h]) == [h] by { assert [h][1..] == []; }
      assert ['_', h] + [] == "_" + [h] && ("_" + [h])[1..] == [h];
      LowZero(['_', h]);
    } else if !NeedsEscape(false, q[0]) {
      SwallowPlain(h, q);
      LowBytesAreNotKept(q[1..], false);
      LowConcat(Triple(h, q[0]), UnescapeFrom(EscapeFrom(q[1..], false)));
    } else {
      var digits: Bytes := Text.Hex(q[0] as nat);
      SwallowEscape(h, q);
      LowZero(digits);
      LowConcat(digits, q[1..]);
      PlainPrefix(digits, q[1..]);
      LowBytesAreNotKept(digits + q[1..], false);
    }
  }

  /** A low byte is written with one digit. */
  lemma EscapeLowHead(c: char, q: Bytes, first: bool)
    requires c as int < 16
    ensures var p: Bytes := [c] + q; EscapeFrom(p, first) == ['_', Text.DigitChar(c as nat)] + EscapeFrom(q, false)
  {
    var p: Bytes := [c] + q;
    assert p[1..] == q;
    HexOfByte(c);
  }

  lemma SwallowPlain(h: char, q: Bytes)
    requires q != [] && !NeedsEscape(false, q[0])
    ensures UnescapeFrom(['_', h] + EscapeFrom(q, false))
            == Triple(h, q[0]) + UnescapeFrom(EscapeFrom(q[1..], false))
  {
    var rest := EscapeFrom(q[1..], false);
    assert ['_', h] + EscapeFrom(q, false) == ['_', h, q[0]] + rest;
    UnescapeTriple(h, q[0], rest);
  }

  /** The escape of q[0] loses its underscore, and its digits become plain bytes. */
  lemma SwallowEscape(h: char, q: Bytes)
    requires q != [] && NeedsEscape(false, q[0])
    ensures var digits: Bytes := Text.Hex(q[0] as nat);
            UnescapeFrom(['_', h] + EscapeFrom(q, false)) == UnescapeFrom(EscapeFrom(digits + q[1..], false))
  {
    var digits: Bytes := Text.Hex(q[0] as nat);
    var rest := EscapeFrom(q[1..], false);
    assert ['_', h] + EscapeFrom(q, false) == ['_', h, '_'] + (digits + rest);
    UnescapeTriple(h, '_', digits + rest);
    PlainPrefix(digits, q[1..]);
    assert Triple(h, '_') == [];
    assert [] + UnescapeFrom(digits + rest) == UnescapeFrom(digits + rest);
  }

  lemma {:induction false} PlainPrefix(digits: Bytes, r: Bytes)
    requires forall i :: 0 <= i < |digits| ==> IsAlnum(digits[i])
    ensures EscapeFrom(digits + r, false) == digits + EscapeFrom(r, false)
  {
    if digits == [] {
      assert digits + r == r;
    } else {
      assert (digits + r)[1..] == digits[1..] + r;
      PlainPrefix(digits[1..], r);
      assert [digits[0]] + digits[1..] == digits;
    }
  }

  /** The round trip holds for exactly the strings whose bytes are all at least 0x10. */
  lemma RoundTripExactly(p: Bytes)
    ensures Unescape(Escape(p)) == p <==> AllFromSpace(p)
  {
    if p != [] {
      assert |EscapeByte(true, p[0])| >= 1 && EscapeByte(true, p[0]) != "_";
      assert Escape(p) != "_";
      if AllFromSpace(p) {
        RoundTripFrom(p, true);
      } else {
        LowBytesAreNotKept(p, true);
        LowZero(p);
      }
    }
  }

  lemma EscapeInjective(p: Bytes, q: Bytes)
    requires AllFromSpace(p) && AllFromSpace(q)
    requires Escape(p) == Escape(q)
    ensures p == q
  {
    RoundTripExactly(p);
    RoundTripExactly(q);
  }

  lemma {:induction false} EscapeConcat(p: Bytes, q: Bytes, first: bool)
    ensures EscapeFrom(p + q, first) == EscapeFrom(p, first) + EscapeFrom(q, first && p == [])
  {
    if p == [] {
      assert p + q == q;
    } else {
      assert (p + q)[1..] == p[1..] + q;
      EscapeConcat(p[1..], q, false);
    }
  }

  /** The padding of `%x` matters: after any bytes, a line feed before `b` escapes like the
      byte 0xab. */
  lemma EscapeCollides(p: Bytes)
    ensures Escape(p + [10 as char, 'b']) == Escape(p + [171 as char]) == EscapeFrom(p, true) + "_ab"
  {
    EscapeConcat(p, [10 as char, 'b'], true);
    EscapeConcat(p, [171 as char], true);
    BothAreAb(p == []);
  }

  lemma BothAreAb(first: bool)
    ensures EscapeFrom([10 as char, 'b'], first) == EscapeFrom([171 as char], first) == "_ab"
  {
    var p: Bytes := [10 as char, 'b'];
    HexOfByte(10 as char);
    HexOfByte(171 as char);
    assert p[1..] == ['b'] && ['b'][1..] == [];
    assert EscapeFrom(p, first) == "_" + "a" + EscapeFrom(['b'], false) == "_ab";
    var q: Bytes := [171 as char];
    assert q[1..] == [];
    assert Text.DigitChar(10) == 'a' && Text.DigitChar(11) == 'b';
    assert EscapeFrom(q, first) == "_" + ['a', 'b'] + EscapeFrom([], false) == "_ab";
  }

  // ---------- written out ----------

  /** A letter stands for itself, and so does a digit that does not come first; any other byte
      is an underscore and its value in hexadecimal, without padding. */
  lemma EscapeByteIs(first: bool, c: char)
    requires c as int < 256
    ensures 'a' <= c <= 'z' || 'A' <= c <= 'Z' || ('0' <= c <= '9' && !first) ==> EscapeByte(first, c) == [c]
    ensures !('a' <= c <= 'z' || 'A' <= c <= 'Z' || ('0' <= c <= '9' && !first)) ==>
              EscapeByte(first, c) == "_" + Text.Hex(c as nat)
  {
  }

  /** Letters and digits that do not begin with a digit are their own escape, and nothing
      else is. */
  lemma PlainExactly(p: Bytes)
    ensures Escape(p) == p
            <==> p != "" && (forall i :: 0 <= i < |p| ==>
                               'a' <= p[i] <= 'z' || 'A' <= p[i] <= 'Z' || '0' <= p[i] <= '9')
                 && !('0' <= p[0] <= '9')
  {
    if p != "" {
      PlainFrom(p, true);
    }
  }

  lemma {:induction false} PlainFrom(p: Bytes, first: bool)
    ensures |EscapeFrom(p, first)| >= |p|
    ensures EscapeFrom(p, first) == p
            <==> (forall i :: 0 <= i < |p| ==> 'a' <= p[i] <= 'z' || 'A' <= p[i] <= 'Z' || '0' <= p[i] <= '9')
                 && (p != "" && first ==> !('0' <= p[0] <= '9'))
  {
    if p != "" {
      PlainFrom(p[1..], false);
      EscapeByteIs(first, p[0]);
      assert EscapeFrom(p, first) == EscapeByte(first, p[0]) + EscapeFrom(p[1..], false);
      assert p == [p[0]] + p[1..];
      if EscapeByte(first, p[0]) == [p[0]] {
        assert EscapeFrom(p, first)[1..] == EscapeFrom(p[1..], false);
      } else {
        assert |EscapeByte(first, p[0])| > 1;
      }
    }
  }

  lemma EmptyIs()
    ensures Escape("") == "_" && Unescape("_") == ""
  {
  }

  /** An underscore with two characters behind it: a byte if both are hexadecimal digits,
      and nothing otherwise. One with fewer behind it stands for itself, and so does any
      other character. */
  lemma UnescapeIs(x: char, y: char, c: char, rest: string)
    ensures UnescapeFrom(['_', x, y] + rest)
         == (if IsHex(x) && IsHex(y) then [(16 * HexValue(x) + HexValue(y)) as char] else []) + UnescapeFrom(rest)
    ensures UnescapeFrom("_") == "_" && UnescapeFrom(['_', x]) == ['_'] + UnescapeFrom([x])
    ensures c != '_' ==> UnescapeFrom([c] + rest) == [c] + UnescapeFrom(rest)
  {
    assert (['_', x, y] + rest)[3..] == rest && ([c] + rest)[1..] == rest;
    assert "_"[1..] == "" && ['_', x][1..] == [x];
  }

  lemma HexIs(c: char)
    ensures IsHex(c) <==> '0' <= c <= '9' || 'a' <= c <= 'f' || 'A' <= c <= 'F'
    ensures '0' <= c <= '9' ==> HexValue(c) == (c - '0') as int
    ensures 'a' <= c <= 'f' ==> HexValue(c) == 10 + (c - 'a') as int
    ensures 'A' <= c <= 'F' ==> HexValue(c) == 10 + (c - 'A') as int
  {
  }
}

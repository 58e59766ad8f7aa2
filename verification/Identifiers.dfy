/** Names made by hashing separated fields: NodeName of devices/storage/diskid.go and Hash
    of driver/cloudinit.go. The hash is a parameter, any function from byte strings to 32
    bytes. Base64 is RFC 4648, section 5 (URL alphabet) and section 4, without padding. */
module Identifiers {
  import opened Text

  type Byte = n: nat | n < 256

  type Bytes = seq<Byte>

  type Digest = d: Bytes | |d| == 32 witness seq(32, _ => 0)

  datatype DiskIdentifier = DiskIdentifier(vendor: Bytes, product: Bytes, serial: Bytes)

  datatype CloudInit = CloudInit(meta: Bytes, network: Bytes, vendor: Bytes, user: Bytes)

  const NUL: Byte := 0

  // ---------- base64 ----------

  /** The eight bits of a byte, most significant first. */
  function BitsOfByte(b: Byte): seq<bool> {
    var b6 := Rest(b, 128);
    var b5 := Rest(b6, 64);
    var b4 := Rest(b5, 32);
    var b3 := Rest(b4, 16);
    var b2 := Rest(b3, 8);
    var b1 := Rest(b2, 4);
    [b >= 128, b6 >= 64, b5 >= 32, b4 >= 16, b3 >= 8, b2 >= 4, b1 >= 2, Rest(b1, 2) >= 1]
  }

  function Rest(n: nat, w: nat): nat { if n >= w then n - w else n }

  /** The bits of a byte string, most significant first. */
  function Bits(s: Bytes): (r: seq<bool>)
    ensures |r| == 8 * |s|
  {
    if s == [] then [] else BitsOfByte(s[0]) + Bits(s[1..])
  }

  function Weight(bit: bool, w: nat): nat { if bit then w else 0 }

  /** The value of six bits; missing ones count as zero. */
  function Sextet(b: seq<bool>): (v: nat)
    requires 0 < |b| <= 6
    ensures v < 64
  {
    var at := (k: nat) => k < |b| && b[k];
    Weight(at(0), 32) + Weight(at(1), 16) + Weight(at(2), 8) + Weight(at(3), 4) + Weight(at(4), 2) + Weight(at(5), 1)
  }

  /** The character of a six-bit value; the alphabets differ in the last two. */
  function Letter(v: nat, url: bool): char
    requires v < 64
  {
    if v < 26 then 'A' + v as char
    else if v < 52 then 'a' + (v - 26) as char
    else if v < 62 then '0' + (v - 52) as char
    else if v == 62 then (if url then '-' else '+')
    else (if url then '_' else '/')
  }

  function Encode(bits: seq<bool>, url: bool): string {
    if bits == [] then ""
    else if |bits| <= 6 then [Letter(Sextet(bits), url)]
    else [Letter(Sextet(bits[..6]), url)] + Encode(bits[6..], url)
  }

  lemma SextetInjective(a: seq<bool>, b: seq<bool>)
    requires 0 < |a| == |b| <= 6
    ensures Sextet(a) == Sextet(b) <==> a == b
  {
    if Sextet(a) == Sextet(b) {
      var at := (s: seq<bool>, k: nat) => k < |s| && s[k];
      WeightsInjective(at(a, 0), at(a, 1), at(a, 2), at(a, 3), at(a, 4), at(a, 5),
                       at(b, 0), at(b, 1), at(b, 2), at(b, 3), at(b, 4), at(b, 5));
      forall i | 0 <= i < |a| ensures a[i] == b[i] {
        assert i == 0 || i == 1 || i == 2 || i == 3 || i == 4 || i == 5;
      }
    }
  }

  lemma WeightsInjective(a0: bool, a1: bool, a2: bool, a3: bool, a4: bool, a5: bool,
                         b0: bool, b1: bool, b2: bool, b3: bool, b4: bool, b5: bool)
    requires Weight(a0, 32) + Weight(a1, 16) + Weight(a2, 8) + Weight(a3, 4) + Weight(a4, 2) + Weight(a5, 1)
             == Weight(b0, 32) + Weight(b1, 16) + Weight(b2, 8) + Weight(b3, 4) + Weight(b4, 2) + Weight(b5, 1)
    ensures a0 == b0 && a1 == b1 && a2 == b2 && a3 == b3 && a4 == b4 && a5 == b5
  {
  }

  lemma LetterInjective(v: nat, w: nat, url: bool)
    requires v < 64 && w < 64
    ensures Letter(v, url) == Letter(w, url) <==> v == w
  {
  }

  lemma {:induction false} EncodeLength(bits: seq<bool>, url: bool)
    ensures |Encode(bits, url)| == (|bits| + 5) / 6
    decreases |bits|
  {
    if |bits| > 6 {
      EncodeLength(bits[6..], url);
    }
  }

  predicate LegalChar(c: char, url: bool) {
    'A' <= c <= 'Z' || 'a' <= c <= 'z' || '0' <= c <= '9'
    || c == (if url then '-' else '+') || c == (if url then '_' else '/')
  }

  lemma {:induction false} EncodeAlphabet(bits: seq<bool>, url: bool)
    ensures forall i :: 0 <= i < |Encode(bits, url)| ==> LegalChar(Encode(bits, url)[i], url)
    decreases |bits|
  {
    if |bits| > 6 {
      EncodeAlphabet(bits[6..], url);
    }
  }

  /** The first k characters say exactly what the first 6k bits are. */
  lemma {:induction false} EncodePrefix(a: seq<bool>, b: seq<bool>, k: nat, url: bool)
    requires |a| == |b| && 6 * k <= |a|
    ensures k <= |Encode(a, url)| == |Encode(b, url)|
    ensures Encode(a, url)[..k] == Encode(b, url)[..k] <==> a[..6 * k] == b[..6 * k]
    decreases |a|
  {
    EncodeLength(a, url);
    EncodeLength(b, url);
    if k > 0 {
      FirstSextet(a, url);
      FirstSextet(b, url);
      SextetInjective(a[..6], b[..6]);
      LetterInjective(Sextet(a[..6]), Sextet(b[..6]), url);
      EncodePrefix(a[6..], b[6..], k - 1, url);
      HeadAndTail(Encode(a, url), Encode(b, url), 1, k);
      HeadAndTail(a, b, 6, 6 * k);
    }
  }

  lemma FirstSextet(a: seq<bool>, url: bool)
    requires |a| >= 6
    ensures Encode(a, url) == [Letter(Sextet(a[..6]), url)] + Encode(a[6..], url)
  {
    if |a| == 6 {
      assert a[..6] == a;
    }
  }

  lemma HeadAndTail<T>(a: seq<T>, b: seq<T>, j: nat, k: nat)
    requires j <= k <= |a| == |b|
    ensures a[..k] == b[..k] <==> a[..j] == b[..j] && a[j..][..k - j] == b[j..][..k - j]
  {
    assert a[..k] == a[..j] + a[j..][..k - j];
    assert b[..k] == b[..j] + b[j..][..k - j];
  }

  /** Equal texts come from equal bits. */
  lemma {:induction false} EncodeInjective(a: seq<bool>, b: seq<bool>, url: bool)
    requires |a| == |b|
    ensures Encode(a, url) == Encode(b, url) <==> a == b
    decreases |a|
  {
    if 0 < |a| <= 6 {
      SextetInjective(a, b);
      LetterInjective(Sextet(a), Sextet(b), url);
    } else if |a| > 6 && Encode(a, url) == Encode(b, url) {
      EncodePrefix(a, b, 1, url);
      assert Encode(a, url)[1..] == Encode(a[6..], url) && Encode(b, url)[1..] == Encode(b[6..], url);
      EncodeInjective(a[6..], b[6..], url);
      assert a == a[..6] + a[6..] && b == b[..6] + b[6..];
    }
  }

  lemma {:induction false} BitsInjective(a: Bytes, b: Bytes)
    requires |a| == |b|
    ensures Bits(a) == Bits(b) <==> a == b
  {
    if a != [] && Bits(a) == Bits(b) {
      assert Bits(a)[..8] == BitsOfByte(a[0]) && Bits(b)[..8] == BitsOfByte(b[0]);
      assert Bits(a)[8..] == Bits(a[1..]) && Bits(b)[8..] == Bits(b[1..]);
      BitsInjective(a[1..], b[1..]);
      SameByte(a[0], b[0]);
    }
  }

  lemma SameByte(a: Byte, b: Byte)
    requires BitsOfByte(a) == BitsOfByte(b)
    ensures a == b
  {
    ByteOfBits(a);
    ByteOfBits(b);
  }

  lemma ByteOfBits(b: Byte)
    ensures var s := BitsOfByte(b);
            b == Weight(s[0], 128) + Weight(s[1], 64) + Weight(s[2], 32) + Weight(s[3], 16)
                 + Weight(s[4], 8) + Weight(s[5], 4) + Weight(s[6], 2) + Weight(s[7], 1)
  {
  }

  // ---------- the names ----------

  /** What is fed to the hasher. */
  function Preimage(di: DiskIdentifier): Bytes { di.vendor + [NUL] + di.product + [NUL] + di.serial }

  function NodeName(hash: Bytes -> Digest, di: DiskIdentifier): string {
    EncodeLength(Bits(hash(Preimage(di))), true);
    "n" + Encode(Bits(hash(Preimage(di))), true)[..30]
  }

  function CloudPreimage(ci: CloudInit): Bytes {
    ci.meta + [NUL] + ci.network + [NUL] + ci.vendor + [NUL] + ci.user
  }

  function Hash(hash: Bytes -> Digest, ci: CloudInit): string {
    Encode(Bits(hash(CloudPreimage(ci))), false)
  }

  /** QEMU takes node names of at most 31 characters that start with a letter. */
  lemma NodeNameIsLegal(hash: Bytes -> Digest, di: DiskIdentifier)
    ensures var name := NodeName(hash, di);
            |name| == 31 && name[0] == 'n' && forall i :: 0 <= i < |name| ==> LegalChar(name[i], true)
  {
    var bits := Bits(hash(Preimage(di)));
    EncodeLength(bits, true);
    EncodeAlphabet(bits, true);
    var name := NodeName(hash, di);
    forall i | 0 <= i < |name| ensures LegalChar(name[i], true) {
      assert i > 0 ==> name[i] == Encode(bits, true)[i - 1];
    }
  }

  /** Two node names are equal exactly when the first 180 bits of the digests are. */
  lemma NodeNamesEqualExactly(hash: Bytes -> Digest, a: DiskIdentifier, b: DiskIdentifier)
    ensures NodeName(hash, a) == NodeName(hash, b) <==>
            Bits(hash(Preimage(a)))[..180] == Bits(hash(Preimage(b)))[..180]
  {
    var x, y := Bits(hash(Preimage(a))), Bits(hash(Preimage(b)));
    EncodePrefix(x, y, 30, true);
    assert NodeName(hash, a)[1..] == Encode(x, true)[..30];
    assert NodeName(hash, b)[1..] == Encode(y, true)[..30];
  }

  /** Under every hash two identifiers have the same name exactly when they feed the hasher
      the same bytes. */
  lemma SameNameUnderEveryHash(a: DiskIdentifier, b: DiskIdentifier)
    ensures (forall hash: Bytes -> Digest :: NodeName(hash, a) == NodeName(hash, b)) <==> Preimage(a) == Preimage(b)
  {
    if Preimage(a) != Preimage(b) {
      var hash: Bytes -> Digest := s => if s == Preimage(a) then seq(32, _ => 0) else seq(32, _ => 255);
      NodeNamesEqualExactly(hash, a, b);
      assert !Bits(hash(Preimage(a)))[..180][0];
      assert Bits(hash(Preimage(b)))[..180][0];
      assert NodeName(hash, a) != NodeName(hash, b);
    }
  }

  /** The hash of the cloud-init data keeps the whole digest, in 43 characters. */
  lemma HashEqualExactly(hash: Bytes -> Digest, a: CloudInit, b: CloudInit)
    ensures Hash(hash, a) == Hash(hash, b) <==> hash(CloudPreimage(a)) == hash(CloudPreimage(b))
    ensures |Hash(hash, a)| == 43
    ensures forall i :: 0 <= i < |Hash(hash, a)| ==> LegalChar(Hash(hash, a)[i], false)
  {
    var x, y := hash(CloudPreimage(a)), hash(CloudPreimage(b));
    EncodeInjective(Bits(x), Bits(y), false);
    BitsInjective(x, y);
    EncodeLength(Bits(x), false);
    EncodeAlphabet(Bits(x), false);
  }

  // ---------- separated fields ----------

  /** No field but the last contains the separator. */
  predicate OpenEnded(f: seq<Bytes>) { forall i :: 0 <= i < |f| - 1 ==> Lacks(f[i], NUL) }

  predicate AllLack(f: seq<Bytes>) { forall i :: 0 <= i < |f| ==> Lacks(f[i], NUL) }

  /** Two lists of as many fields that join to the same bytes are the same, if only the
      last field of each contains separators. */
  lemma {:induction false} JoinInjective(f: seq<Bytes>, g: seq<Bytes>)
    requires |f| == |g| && OpenEnded(f) && OpenEnded(g) && Join(f, NUL) == Join(g, NUL)
    ensures f == g
  {
    if |f| > 1 {
      CutAt(f[0], NUL, Join(f[1..], NUL));
      CutAt(g[0], NUL, Join(g[1..], NUL));
      JoinInjective(f[1..], g[1..]);
      assert f == [f[0]] + f[1..] && g == [g[0]] + g[1..];
    }
  }

  function Count(s: Bytes): nat {
    if s == [] then 0 else (if s[0] == NUL then 1 else 0) + Count(s[1..])
  }

  lemma {:induction false} CountConcat(a: Bytes, b: Bytes)
    ensures Count(a + b) == Count(a) + Count(b)
  {
    if a == [] {
      assert a + b == b;
    } else {
      assert (a + b)[1..] == a[1..] + b;
      CountConcat(a[1..], b);
    }
  }

  lemma {:induction false} CountZero(s: Bytes)
    ensures Count(s) == 0 <==> Lacks(s, NUL)
  {
    if s != [] {
      CountZero(s[1..]);
      assert Lacks(s, NUL) <==> s[0] != NUL && Lacks(s[1..], NUL) by {
        assert forall i :: 1 <= i < |s| ==> s[i] == s[1..][i - 1];
      }
    }
  }

  /** The joined bytes hold one separator less than there are fields exactly when no field
      holds one. */
  lemma {:induction false} CountJoin(f: seq<Bytes>)
    requires f != []
    ensures Count(Join(f, NUL)) >= |f| - 1
    ensures Count(Join(f, NUL)) == |f| - 1 <==> AllLack(f)
  {
    CountZero(f[0]);
    if |f| > 1 {
      var rest := f[1..];
      CountJoin(rest);
      CountConcat(f[0] + [NUL], Join(rest, NUL));
      CountConcat(f[0], [NUL]);
      assert AllLack(f) <==> Lacks(f[0], NUL) && AllLack(rest) by {
        assert forall i :: 1 <= i < |f| ==> f[i] == rest[i - 1];
      }
    }
  }

  /** The fields are the only ones of their number with these bytes. */
  ghost predicate Unique(f: seq<Bytes>) {
    forall g: seq<Bytes> :: |g| == |f| && Join(g, NUL) == Join(f, NUL) ==> g == f
  }

  lemma {:induction false} JoinConcat(a: seq<Bytes>, b: seq<Bytes>)
    requires a != [] && b != []
    ensures Join(a + b, NUL) == Join(a, NUL) + [NUL] + Join(b, NUL)
  {
    if |a| == 1 {
      assert (a + b)[1..] == b;
    } else {
      assert (a + b)[1..] == a[1..] + b;
      JoinConcat(a[1..], b);
    }
  }

  lemma JoinTwo(x: Bytes, y: Bytes)
    ensures Join([x, y], NUL) == x + [NUL] + y
  {
    assert [x, y][1..] == [y];
  }

  /** Replacing two neighbours by others with the same bytes leaves the bytes. */
  lemma JoinReplace(f: seq<Bytes>, i: nat, x: Bytes, y: Bytes)
    requires i + 1 < |f| && Join([x, y], NUL) == Join([f[i], f[i + 1]], NUL)
    ensures Join(f[..i] + [x, y] + f[i + 2..], NUL) == Join(f, NUL)
  {
    SplitAround(f, i);
    JoinAround(f[..i], [f[i], f[i + 1]], [x, y], f[i + 2..]);
  }

  lemma SplitAround(f: seq<Bytes>, i: nat)
    requires i + 1 < |f|
    ensures f[..i] + [f[i], f[i + 1]] + f[i + 2..] == f
  {
  }

  lemma JoinAround(a: seq<Bytes>, m: seq<Bytes>, n: seq<Bytes>, b: seq<Bytes>)
    requires m != [] && n != [] && Join(m, NUL) == Join(n, NUL)
    ensures Join(a + m + b, NUL) == Join(a + n + b, NUL)
  {
    if a != [] {
      JoinConcat(a, m);
      JoinConcat(a, n);
    } else {
      assert a + m == m && a + n == n;
    }
    if b != [] {
      JoinConcat(a + m, b);
      JoinConcat(a + n, b);
    } else {
      assert a + m + b == a + m && a + n + b == a + n;
    }
  }

  /** Two fields one of which holds a separator can be cut in another place. */
  lemma OtherCut(x: Bytes, y: Bytes) returns (x1: Bytes, y1: Bytes)
    requires !Lacks(x, NUL) || !Lacks(y, NUL)
    ensures Join([x1, y1], NUL) == Join([x, y], NUL) && x1 != x
  {
    JoinTwo(x, y);
    if !Lacks(x, NUL) {
      var j :| 0 <= j < |x| && x[j] == NUL;
      x1, y1 := x[..j], x[j + 1..] + [NUL] + y;
      assert x == x[..j] + [NUL] + x[j + 1..];
    } else {
      var j :| 0 <= j < |y| && y[j] == NUL;
      x1, y1 := x + [NUL] + y[..j], y[j + 1..];
      assert y == y[..j] + [NUL] + y[j + 1..];
      assert |x1| > |x|;
    }
    JoinTwo(x1, y1);
  }

  /** Fields have bytes of their own exactly when none of them holds the separator. */
  lemma UniqueExactly(f: seq<Bytes>)
    requires |f| >= 2
    ensures Unique(f) <==> AllLack(f)
  {
    CountJoin(f);
    if AllLack(f) {
      forall g: seq<Bytes> | |g| == |f| && Join(g, NUL) == Join(f, NUL) ensures g == f {
        CountJoin(g);
        JoinInjective(f, g);
      }
    } else {
      var j :| 0 <= j < |f| && !Lacks(f[j], NUL);
      var i := if j == 0 then 0 else j - 1;
      var x, y := OtherCut(f[i], f[i + 1]);
      JoinReplace(f, i, x, y);
      var g := f[..i] + [x, y] + f[i + 2..];
      assert |g| == |f| && g[i] == x;
      assert g != f;
    }
  }

  // ---------- what this means for the two names ----------

  function DiskFields(di: DiskIdentifier): seq<Bytes> { [di.vendor, di.product, di.serial] }

  function CloudFields(ci: CloudInit): seq<Bytes> { [ci.meta, ci.network, ci.vendor, ci.user] }

  lemma PreimageIsJoin(di: DiskIdentifier)
    ensures Preimage(di) == Join(DiskFields(di), NUL)
  {
    var f := DiskFields(di);
    assert f[1..] == [di.product, di.serial];
    JoinTwo(di.product, di.serial);
  }

  lemma CloudPreimageIsJoin(ci: CloudInit)
    ensures CloudPreimage(ci) == Join(CloudFields(ci), NUL)
  {
    var f := CloudFields(ci);
    assert f[1..] == [ci.network, ci.vendor, ci.user];
    assert f[1..][1..] == [ci.vendor, ci.user];
    JoinTwo(ci.vendor, ci.user);
  }

  /** Identifiers whose vendor and product have no NUL are told apart before hashing,
      whatever their serials are. */
  lemma PreimageInjective(a: DiskIdentifier, b: DiskIdentifier)
    requires Lacks(a.vendor, NUL) && Lacks(a.product, NUL) && Lacks(b.vendor, NUL) && Lacks(b.product, NUL)
    ensures Preimage(a) == Preimage(b) <==> a == b
  {
    PreimageIsJoin(a);
    PreimageIsJoin(b);
    if Preimage(a) == Preimage(b) {
      JoinInjective(DiskFields(a), DiskFields(b));
      assert DiskFields(a)[0] == a.vendor && DiskFields(a)[1] == a.product && DiskFields(a)[2] == a.serial;
      assert DiskFields(b)[0] == b.vendor && DiskFields(b)[1] == b.product && DiskFields(b)[2] == b.serial;
    }
  }

  lemma CloudPreimageInjective(a: CloudInit, b: CloudInit)
    requires Lacks(a.meta, NUL) && Lacks(a.network, NUL) && Lacks(a.vendor, NUL)
    requires Lacks(b.meta, NUL) && Lacks(b.network, NUL) && Lacks(b.vendor, NUL)
    ensures CloudPreimage(a) == CloudPreimage(b) <==> a == b
  {
    CloudPreimageIsJoin(a);
    CloudPreimageIsJoin(b);
    if CloudPreimage(a) == CloudPreimage(b) {
      JoinInjective(CloudFields(a), CloudFields(b));
      SameCloud(a, b);
    }
  }

  lemma SameCloud(a: CloudInit, b: CloudInit)
    requires CloudFields(a) == CloudFields(b)
    ensures a == b
  {
    assert CloudFields(a)[0] == a.meta && CloudFields(a)[1] == a.network;
    assert CloudFields(a)[2] == a.vendor && CloudFields(a)[3] == a.user;
    assert CloudFields(b)[0] == b.meta && CloudFields(b)[1] == b.network;
    assert CloudFields(b)[2] == b.vendor && CloudFields(b)[3] == b.user;
  }

  /** No other identifier shares the preimage, hence the name, exactly when no field has a
      NUL; otherwise some other identifier has the same name under every hash. */
  lemma NameIsOwnExactly(di: DiskIdentifier)
    ensures (forall o: DiskIdentifier :: Preimage(o) == Preimage(di) ==> o == di) <==>
            Lacks(di.vendor, NUL) && Lacks(di.product, NUL) && Lacks(di.serial, NUL)
  {
    var f := DiskFields(di);
    PreimageIsJoin(di);
    UniqueExactly(f);
    assert f[0] == di.vendor && f[1] == di.product && f[2] == di.serial;
    if AllLack(f) {
      forall o: DiskIdentifier | Preimage(o) == Preimage(di) ensures o == di {
        PreimageIsJoin(o);
        assert DiskFields(o) == f;
        assert DiskFields(o)[0] == o.vendor && DiskFields(o)[1] == o.product && DiskFields(o)[2] == o.serial;
      }
    } else {
      var g: seq<Bytes> :| |g| == |f| && Join(g, NUL) == Join(f, NUL) && g != f;
      var o := DiskIdentifier(g[0], g[1], g[2]);
      assert DiskFields(o) == g;
      PreimageIsJoin(o);
      assert o != di;
    }
  }

  lemma CloudInitIsOwnExactly(ci: CloudInit)
    ensures (forall o: CloudInit :: CloudPreimage(o) == CloudPreimage(ci) ==> o == ci) <==>
            Lacks(ci.meta, NUL) && Lacks(ci.network, NUL) && Lacks(ci.vendor, NUL) && Lacks(ci.user, NUL)
  {
    var f := CloudFields(ci);
    CloudPreimageIsJoin(ci);
    UniqueExactly(f);
    assert f[0] == ci.meta && f[1] == ci.network && f[2] == ci.vendor && f[3] == ci.user;
    if AllLack(f) {
      forall o: CloudInit | CloudPreimage(o) == CloudPreimage(ci) ensures o == ci {
        CloudPreimageIsJoin(o);
        assert CloudFields(o) == f;
        SameCloud(o, ci);
      }
    } else {
      var g: seq<Bytes> :| |g| == |f| && Join(g, NUL) == Join(f, NUL) && g != f;
      var o := CloudInit(g[0], g[1], g[2], g[3]);
      assert CloudFields(o) == g;
      CloudPreimageIsJoin(o);
      assert o != ci;
    }
  }

  /** The test suite's example: a NUL moved across a field boundary. */
  lemma CollidesWithNul(hash: Bytes -> Digest, a: Bytes, b: Bytes, c: Bytes)
    ensures var x := DiskIdentifier(a + [NUL] + b, [], c);
            var y := DiskIdentifier(a, b + [NUL], c);
            x != y && NodeName(hash, x) == NodeName(hash, y)
  {
    var x := DiskIdentifier(a + [NUL] + b, [], c);
    var y := DiskIdentifier(a, b + [NUL], c);
    assert |x.vendor| > |y.vendor|;
    assert Preimage(x) == Preimage(y);
  }

  // ---------- written out ----------

  lemma CapitalIs(v: nat)
    requires v < 26
    ensures "ABCDEFGHIJKLMNOPQRSTUVWXYZ"[v] == 'A' + v as char
  {
    assert v == 0 || v == 1 || v == 2 || v == 3 || v == 4 || v == 5 || v == 6 || v == 7 || v == 8 || v == 9
        || v == 10 || v == 11 || v == 12 || v == 13 || v == 14 || v == 15 || v == 16 || v == 17 || v == 18 || v == 19
        || v == 20 || v == 21 || v == 22 || v == 23 || v == 24 || v == 25;
  }

  lemma SmallIs(v: nat)
    requires v < 26
    ensures "abcdefghijklmnopqrstuvwxyz"[v] == 'a' + v as char
  {
    assert v == 0 || v == 1 || v == 2 || v == 3 || v == 4 || v == 5 || v == 6 || v == 7 || v == 8 || v == 9
        || v == 10 || v == 11 || v == 12 || v == 13 || v == 14 || v == 15 || v == 16 || v == 17 || v == 18 || v == 19
        || v == 20 || v == 21 || v == 22 || v == 23 || v == 24 || v == 25;
  }

  lemma DigitIs(v: nat)
    requires v < 10
    ensures "0123456789"[v] == '0' + v as char
  {
    assert v == 0 || v == 1 || v == 2 || v == 3 || v == 4 || v == 5 || v == 6 || v == 7 || v == 8 || v == 9;
  }

  /** The alphabets of RFC 4648: section 5 for node names, section 4 for the hash. */
  lemma AlphabetsAre(v: nat, url: bool)
    requires v < 64
    ensures v < 26 ==> Letter(v, url) == "ABCDEFGHIJKLMNOPQRSTUVWXYZ"[v]
    ensures 26 <= v < 52 ==> Letter(v, url) == "abcdefghijklmnopqrstuvwxyz"[v - 26]
    ensures 52 <= v < 62 ==> Letter(v, url) == "0123456789"[v - 52]
    ensures v == 62 ==> Letter(v, url) == if url then '-' else '+'
    ensures v == 63 ==> Letter(v, url) == if url then '_' else '/'
  {
    if v < 26 {
      CapitalIs(v);
    } else if v < 52 {
      SmallIs(v - 26);
    } else if v < 62 {
      DigitIs(v - 52);
    }
  }

  /** Bits are taken most significant first, out of bytes and into characters. */
  lemma BitsAre(b: Byte)
    ensures var bits := BitsOfByte(b);
            && |bits| == 8
            && b == Weight(bits[0], 128) + Weight(bits[1], 64) + Weight(bits[2], 32) + Weight(bits[3], 16)
                    + Weight(bits[4], 8) + Weight(bits[5], 4) + Weight(bits[6], 2) + Weight(bits[7], 1)
  {
  }

  lemma WeightIs(w: nat)
    ensures Weight(true, w) == w && Weight(false, w) == 0
  {
  }

  lemma SextetIs(b: seq<bool>)
    requires |b| == 6
    ensures Sextet(b) == Weight(b[0], 32) + Weight(b[1], 16) + Weight(b[2], 8) + Weight(b[3], 4)
                         + Weight(b[4], 2) + Weight(b[5], 1)
  {
  }

  /** The last character of a text whose bits run out is padded with zero bits. */
  lemma PaddedIs(b: seq<bool>)
    requires 0 < |b| < 6
    ensures Sextet(b) == Sextet(b + [false])
  {
    var padded := b + [false];
    assert forall i :: 0 <= i < 6 ==> ((i < |padded| && padded[i]) <==> (i < |b| && b[i]));
  }

  /** Character number j encodes bits 6j to 6j+5. */
  lemma {:induction false} EncodedAt(bits: seq<bool>, url: bool, j: nat)
    requires 6 * j + 6 <= |bits|
    ensures j < |Encode(bits, url)| && Encode(bits, url)[j] == Letter(Sextet(bits[6 * j..6 * j + 6]), url)
    decreases j
  {
    if j > 0 {
      assert bits[6..][6 * (j - 1)..6 * (j - 1) + 6] == bits[6 * j..6 * j + 6];
      EncodedAt(bits[6..], url, j - 1);
    } else if |bits| == 6 {
      assert bits[0..6] == bits;
    }
  }

  /** Byte number j gives bits 8j to 8j+7. */
  lemma {:induction false} BitsAt(bytes: Bytes, j: nat)
    requires j < |bytes|
    ensures Bits(bytes)[8 * j..8 * j + 8] == BitsOfByte(bytes[j])
    decreases j
  {
    if j > 0 {
      BitsAt(bytes[1..], j - 1);
      assert Bits(bytes)[8 * j..8 * j + 8] == Bits(bytes[1..])[8 * (j - 1)..8 * (j - 1) + 8];
    }
  }

  /** The fields in their order, each two separated by one zero byte; the name is an "n" and
      30 characters, the hash all 43. */
  lemma NamesAre(hash: Bytes -> Digest, di: DiskIdentifier, ci: CloudInit)
    ensures |Encode(Bits(hash(di.vendor + [0] + di.product + [0] + di.serial)), true)| == 43
    ensures NodeName(hash, di)
         == "n" + Encode(Bits(hash(di.vendor + [0] + di.product + [0] + di.serial)), true)[..30]
    ensures Hash(hash, ci)
         == Encode(Bits(hash(ci.meta + [0] + ci.network + [0] + ci.vendor + [0] + ci.user)), false)
  {
    EncodeLength(Bits(hash(di.vendor + [0] + di.product + [0] + di.serial)), true);
  }
}

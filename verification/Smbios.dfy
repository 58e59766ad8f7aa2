/** SMBIOS arguments (machine/smbios.go): maps of fields as text. */
module Smbios {
  import opened Sorting
  import opened Text

  datatype Entry = Entry(smbiosType: int, fields: map<string, string>)

  // ---------- the order of sort.Strings ----------

  predicate StringLess(a: string, b: string) {
    if b == [] then false
    else if a == [] then true
    else a[0] < b[0] || (a[0] == b[0] && StringLess(a[1..], b[1..]))
  }

  lemma {:induction false} LessIrreflexive(a: string)
    ensures !StringLess(a, a)
  {
    if a != [] {
      LessIrreflexive(a[1..]);
    }
  }

  lemma {:induction false} LessTransitive(a: string, b: string, c: string)
    requires StringLess(a, b) && StringLess(b, c)
    ensures StringLess(a, c)
  {
    if a != [] && a[0] == b[0] == c[0] {
      LessTransitive(a[1..], b[1..], c[1..]);
    }
  }

  lemma {:induction false} LessTotal(a: string, b: string)
    ensures a == b || StringLess(a, b) || StringLess(b, a)
  {
    if a != [] && b != [] && a[0] == b[0] {
      LessTotal(a[1..], b[1..]);
      assert a == [a[0]] + a[1..] && b == [b[0]] + b[1..];
    }
  }

  lemma StringsAreOrdered()
    ensures TotalOrder(StringLess)
  {
    forall x: string ensures !StringLess(x, x) {
      LessIrreflexive(x);
    }
    forall x: string, y: string, z: string | StringLess(x, y) && StringLess(y, z) ensures StringLess(x, z) {
      LessTransitive(x, y, z);
    }
    forall x: string, y: string ensures x == y || StringLess(x, y) || StringLess(y, x) {
      LessTotal(x, y);
    }
  }

  // ---------- the text of an entry ----------

  /** The keys that are written: an empty value is left out. */
  function Written(fields: map<string, string>): set<string> { set k | k in fields && fields[k] != "" }

  ghost function KeysInOrder(fields: map<string, string>): seq<string> {
    StringsAreOrdered();
    Order(Written(fields), StringLess)
  }

  lemma KeysInOrderFacts(fields: map<string, string>)
    ensures var keys := KeysInOrder(fields);
            Sorted(keys, StringLess) && Distinct(keys) && Elems(keys) == Written(fields)
    ensures forall i :: 0 <= i < |KeysInOrder(fields)| ==> KeysInOrder(fields)[i] in Written(fields)
  {
    StringsAreOrdered();
    OrderIsOrder(Written(fields), StringLess);
    assert forall k :: k in KeysInOrder(fields) ==> k in Elems(KeysInOrder(fields));
  }

  function TypePart(smbiosType: int): string { "type=" + Itoa(smbiosType) }

  function FieldPart(k: string, v: string): string { k + ['='] + v }

  predicate Has(keys: seq<string>, fields: map<string, string>) {
    forall i :: 0 <= i < |keys| ==> keys[i] in fields
  }

  function FieldParts(keys: seq<string>, fields: map<string, string>): seq<string>
    requires Has(keys, fields)
  {
    seq(|keys|, i requires 0 <= i < |keys| => FieldPart(keys[i], fields[keys[i]]))
  }

  ghost function PartsOf(e: Entry): seq<string> {
    KeysInOrderFacts(e.fields);
    [TypePart(e.smbiosType)] + FieldParts(KeysInOrder(e.fields), e.fields)
  }

  ghost function Argument(e: Entry): string { Join(PartsOf(e), ',') }

  const FLAG := "-smbios"

  function Flagged(texts: seq<string>): seq<string> {
    if texts == [] then [] else Flagged(texts[..|texts| - 1]) + [FLAG, texts[|texts| - 1]]
  }

  ghost function Texts(entries: seq<Entry>): seq<string> {
    seq(|entries|, i requires 0 <= i < |entries| => Argument(entries[i]))
  }

  ghost function Arguments(entries: seq<Entry>): seq<string> { Flagged(Texts(entries)) }

  lemma ArgumentsSnoc(entries: seq<Entry>, n: nat)
    requires n < |entries|
    ensures Arguments(entries[..n + 1]) == Arguments(entries[..n]) + [FLAG, Argument(entries[n])]
  {
    assert Texts(entries[..n + 1])[..n] == Texts(entries[..n]);
  }

  // ---------- the code ----------

  class Description {
    var smbiosEntries: seq<Entry>

    constructor ()
      ensures smbiosEntries == []
    {
      smbiosEntries := [];
    }

    method AddRawSmbios(smbiosType: int, fields: map<string, string>)
      modifies this
      ensures smbiosEntries == old(smbiosEntries) + [Entry(smbiosType, fields)]
    {
      smbiosEntries := smbiosEntries + [Entry(smbiosType, fields)];
    }

    /** The map is walked in any order; the result does not depend on it. */
    method SmbiosArgs() returns (args: seq<string>)
      ensures args == Arguments(smbiosEntries)
    {
      args := [];
      for n := 0 to |smbiosEntries|
        invariant args == Arguments(smbiosEntries[..n])
      {
        var entry := smbiosEntries[n];
        var keys := WrittenKeys(entry.fields);
        SortedKeys(keys, entry.fields);
        keys := Sort(keys, StringLess);
        var parts := Render(entry, keys);
        args := args + [FLAG, Join(parts, ',')];
        ArgumentsSnoc(smbiosEntries, n);
      }
      assert smbiosEntries[..|smbiosEntries|] == smbiosEntries;
    }
  }

  /** The first inner loop: the keys with non-empty values, in the order of the walk. */
  method WrittenKeys(fields: map<string, string>) returns (keys: seq<string>)
    ensures Distinct(keys) && Elems(keys) == Written(fields)
  {
    keys := [];
    var rest := fields.Keys;
    while rest != {}
      invariant rest <= fields.Keys && Distinct(keys)
      invariant forall k :: k in keys <==> k in fields && k !in rest && fields[k] != ""
      decreases |rest|
    {
      var k :| k in rest;
      rest := rest - {k};
      if fields[k] != "" {
        keys := keys + [k];
      }
    }
  }

  /** The second inner loop: one part for each key. */
  method Render(entry: Entry, keys: seq<string>) returns (parts: seq<string>)
    requires Has(keys, entry.fields)
    ensures parts == [TypePart(entry.smbiosType)] + FieldParts(keys, entry.fields)
  {
    parts := [TypePart(entry.smbiosType)];
    for i := 0 to |keys|
      invariant |parts| == i + 1 && parts[0] == TypePart(entry.smbiosType)
      invariant forall j :: 0 <= j < i ==> parts[j + 1] == FieldParts(keys, entry.fields)[j]
    {
      parts := parts + [FieldPart(keys[i], entry.fields[keys[i]])];
    }
  }

  /** Sorting makes the order of the walk irrelevant. */
  lemma SortedKeys(keys: seq<string>, fields: map<string, string>)
    requires Distinct(keys) && Elems(keys) == Written(fields)
    ensures Sort(keys, StringLess) == KeysInOrder(fields) && Has(KeysInOrder(fields), fields)
  {
    StringsAreOrdered();
    SortIsOrder(keys, StringLess);
    KeysInOrderFacts(fields);
  }

  lemma {:induction false} FlaggedAt(texts: seq<string>, i: nat)
    requires i < |texts|
    ensures |Flagged(texts)| == 2 * |texts|
    ensures Flagged(texts)[2 * i] == FLAG && Flagged(texts)[2 * i + 1] == texts[i]
  {
    var init := texts[..|texts| - 1];
    if init != [] {
      FlaggedAt(init, if i < |init| then i else 0);
    }
    AppendedAt(Flagged(init), FLAG, texts[|init|]);
  }

  /** Each entry gives the flag and its text, in the order the entries were added. */
  lemma ArgumentsAt(entries: seq<Entry>, i: nat)
    requires i < |entries|
    ensures |Arguments(entries)| == 2 * |entries|
    ensures Arguments(entries)[2 * i] == "-smbios" && Arguments(entries)[2 * i + 1] == Argument(entries[i])
  {
    FlaggedAt(Texts(entries), i);
  }

  lemma AppendedAt<T>(s: seq<T>, x: T, y: T)
    ensures (s + [x, y])[|s|] == x && (s + [x, y])[|s| + 1] == y
    ensures forall i :: 0 <= i < |s| ==> (s + [x, y])[i] == s[i]
  {
  }

  // ---------- reading it back ----------

  function ParsePart(part: string): (string, string) {
    var (k, v) := Cut(part, '=');
    (k, if v.Some? then v.value else "")
  }

  function ParseFields(parts: seq<string>): map<string, string> {
    if parts == [] then map[]
    else
      var (k, v) := ParsePart(parts[|parts| - 1]);
      ParseFields(parts[..|parts| - 1])[k := v]
  }

  /** Splits at the commas; the first part says the type, each other one is a field. */
  function Parse(arg: string): (Option<int>, map<string, string>) {
    var parts := Split(arg, ',');
    SplitIsNotEmpty(arg, ',');
    var (_, t) := ParsePart(parts[0]);
    (Atoi(t), ParseFields(parts[1..]))
  }

  lemma SplitIsNotEmpty(s: string, sep: char)
    ensures Split(s, sep) != []
  {
  }

  function NonEmpty(fields: map<string, string>): map<string, string> {
    map k | k in fields && fields[k] != "" :: fields[k]
  }

  /** Nothing that is written contains the characters of the format. */
  predicate Clean(fields: map<string, string>) {
    forall k :: k in fields && fields[k] != "" ==> Lacks(k, ',') && Lacks(k, '=') && Lacks(fields[k], ',')
  }

  lemma ParseFieldPart(k: string, v: string)
    requires Lacks(k, '=')
    ensures ParsePart(FieldPart(k, v)) == (k, v)
  {
    CutAt(k, '=', v);
  }

  lemma {:induction false} ParseFieldParts(keys: seq<string>, fields: map<string, string>)
    requires Has(keys, fields) && forall i :: 0 <= i < |keys| ==> Lacks(keys[i], '=')
    ensures ParseFields(FieldParts(keys, fields)) == map k | k in keys :: fields[k]
  {
    if keys != [] {
      var init, last := keys[..|keys| - 1], keys[|keys| - 1];
      var parts := FieldParts(keys, fields);
      assert parts[..|parts| - 1] == FieldParts(init, fields);
      ParseFieldParts(init, fields);
      ParseFieldPart(last, fields[last]);
      assert keys == init + [last];
    }
  }

  lemma PartsLackCommas(e: Entry)
    requires Clean(e.fields)
    ensures forall i :: 0 <= i < |PartsOf(e)| ==> Lacks(PartsOf(e)[i], ',')
  {
    KeysInOrderFacts(e.fields);
    TypeLacksComma(e.smbiosType);
    var keys := KeysInOrder(e.fields);
    forall i | 0 <= i < |keys| ensures Lacks(FieldParts(keys, e.fields)[i], ',') {
      assert keys[i] in Written(e.fields);
    }
  }

  lemma TypeLacksComma(t: int)
    ensures Lacks(TypePart(t), ',')
  {
  }

  lemma ParseType(t: int)
    requires MIN_INT <= t <= MAX_INT
    ensures Atoi(ParsePart(TypePart(t)).1) == Some(t)
  {
    ParseFieldPart("type", Itoa(t));
    assert TypePart(t) == FieldPart("type", Itoa(t));
    AtoiOfItoa(t);
  }

  /** An entry's text gives back its type and exactly its non-empty fields. */
  lemma SplitsBack(e: Entry)
    requires MIN_INT <= e.smbiosType <= MAX_INT && Clean(e.fields)
    ensures Parse(Argument(e)) == (Some(e.smbiosType), NonEmpty(e.fields))
  {
    var keys := KeysInOrder(e.fields);
    KeysInOrderFacts(e.fields);
    PartsLackCommas(e);
    SplitOfJoin(PartsOf(e), ',');
    assert PartsOf(e)[1..] == FieldParts(keys, e.fields);
    ParseType(e.smbiosType);
    ParseFieldParts(keys, e.fields);
    forall k ensures k in keys <==> k in NonEmpty(e.fields) {
      assert k in keys <==> k in Elems(keys);
    }
  }

  lemma {:induction false} SplitLacks(s: string, sep: char, i: nat)
    requires i < |Split(s, sep)|
    ensures Lacks(Split(s, sep)[i], sep)
    decreases |s|
  {
    CutLacks(s, sep);
    var (head, tail) := Cut(s, sep);
    if tail.Some? && i > 0 {
      SplitLacks(tail.value, sep, i - 1);
    }
  }

  lemma {:induction false} CutLacks(s: string, sep: char)
    ensures Lacks(Cut(s, sep).0, sep)
  {
    if s != [] && s[0] != sep {
      CutLacks(s[1..], sep);
    }
  }

  /** What the whole lacks, both halves lack. */
  lemma {:induction false} CutKeepsLack(s: string, sep: char, c: char)
    requires Lacks(s, c)
    ensures Lacks(Cut(s, sep).0, c) && (Cut(s, sep).1.Some? ==> Lacks(Cut(s, sep).1.value, c))
  {
    if s != [] && s[0] != sep {
      assert forall i :: 0 <= i < |s[1..]| ==> s[1..][i] == s[i + 1];
      CutKeepsLack(s[1..], sep, c);
    }
  }

  lemma {:induction false} ParsedIsClean(parts: seq<string>)
    requires forall i :: 0 <= i < |parts| ==> Lacks(parts[i], ',')
    ensures Clean(ParseFields(parts))
  {
    if parts != [] {
      ParsedIsClean(parts[..|parts| - 1]);
      CutLacks(parts[|parts| - 1], '=');
      CutKeepsLack(parts[|parts| - 1], '=', ',');
    }
  }

  /** It does so only then: a comma in a value, or a comma or equals sign in a key, is read
      back as something else. */
  lemma SplitsBackExactly(e: Entry)
    requires MIN_INT <= e.smbiosType <= MAX_INT
    ensures Parse(Argument(e)) == (Some(e.smbiosType), NonEmpty(e.fields)) <==> Clean(e.fields)
  {
    if Clean(e.fields) {
      SplitsBack(e);
    } else if Parse(Argument(e)) == (Some(e.smbiosType), NonEmpty(e.fields)) {
      var parts := Split(Argument(e), ',');
      forall i | 0 <= i < |parts| ensures Lacks(parts[i], ',') {
        SplitLacks(Argument(e), ',', i);
      }
      SplitIsNotEmpty(Argument(e), ',');
      ParsedIsClean(parts[1..]);
      assert Clean(NonEmpty(e.fields));
      forall k | k in e.fields && e.fields[k] != ""
        ensures Lacks(k, ',') && Lacks(k, '=') && Lacks(e.fields[k], ',')
      {
        assert k in NonEmpty(e.fields) && NonEmpty(e.fields)[k] == e.fields[k];
      }
    }
  }

  /** The text is canonical: two clean entries have the same text exactly when they have
      the same type and the same non-empty fields. */
  lemma SameTextExactly(a: Entry, b: Entry)
    requires MIN_INT <= a.smbiosType <= MAX_INT && MIN_INT <= b.smbiosType <= MAX_INT
    requires Clean(a.fields) && Clean(b.fields)
    ensures Argument(a) == Argument(b) <==> a.smbiosType == b.smbiosType && NonEmpty(a.fields) == NonEmpty(b.fields)
  {
    SplitsBack(a);
    SplitsBack(b);
    if a.smbiosType == b.smbiosType && NonEmpty(a.fields) == NonEmpty(b.fields) {
      SameWritten(a.fields, b.fields);
      assert PartsOf(a) == PartsOf(b);
    }
  }

  lemma SameWritten(f: map<string, string>, g: map<string, string>)
    requires NonEmpty(f) == NonEmpty(g)
    ensures KeysInOrder(f) == KeysInOrder(g)
    ensures Has(KeysInOrder(f), f) && Has(KeysInOrder(g), g)
    ensures FieldParts(KeysInOrder(f), f) == FieldParts(KeysInOrder(g), g)
  {
    assert Written(f) == NonEmpty(f).Keys && Written(g) == NonEmpty(g).Keys;
    KeysInOrderFacts(f);
    KeysInOrderFacts(g);
    var keys := KeysInOrder(f);
    forall i | 0 <= i < |keys| ensures f[keys[i]] == g[keys[i]] {
      assert keys[i] in NonEmpty(f) && NonEmpty(f)[keys[i]] == f[keys[i]];
      assert NonEmpty(g)[keys[i]] == g[keys[i]];
    }
  }

  // ---------- written out ----------

  /** The order of the keys: where two first differ the smaller character comes first, and a
      key comes before those it begins. */
  lemma {:induction false} LessIs(a: string, b: string) returns (k: nat)
    requires StringLess(a, b)
    ensures k <= |a| && k < |b| && a[..k] == b[..k] && (k == |a| || a[k] < b[k])
  {
    if a == [] || a[0] < b[0] {
      k := 0;
    } else {
      k := LessIs(a[1..], b[1..]);
      k := k + 1;
      assert a[..k] == [a[0]] + a[1..][..k - 1] && b[..k] == [b[0]] + b[1..][..k - 1];
    }
  }

  lemma KeysAscend(fields: map<string, string>, i: nat, j: nat) returns (k: nat)
    requires i < j < |KeysInOrder(fields)|
    ensures var a, b := KeysInOrder(fields)[i], KeysInOrder(fields)[j];
            k <= |a| && k < |b| && a[..k] == b[..k] && (k == |a| || a[k] < b[k])
  {
    KeysInOrderFacts(fields);
    var a, b := KeysInOrder(fields)[i], KeysInOrder(fields)[j];
    LessTotal(a, b);
    k := LessIs(a, b);
  }

  /** The parts of a text: the type, then `key=value` for every field that has a value. */
  lemma PartsAre(e: Entry, i: nat)
    requires 0 < i < |PartsOf(e)|
    ensures PartsOf(e)[0] == "type=" + Itoa(e.smbiosType)
    ensures exists k :: k in e.fields && e.fields[k] != "" && PartsOf(e)[i] == k + "=" + e.fields[k]
  {
    KeysInOrderFacts(e.fields);
    var k := KeysInOrder(e.fields)[i - 1];
    assert k in Written(e.fields);
    assert PartsOf(e)[i] == k + "=" + e.fields[k];
  }

  /** Every text begins with the type. */
  lemma TextBegins(e: Entry)
    ensures "type=" + Itoa(e.smbiosType) <= Argument(e)
    ensures |PartsOf(e)| == 1 + |set k | k in e.fields && e.fields[k] != ""|
  {
    KeysInOrderFacts(e.fields);
    DistinctCard(KeysInOrder(e.fields));
    assert PartsOf(e)[0] == "type=" + Itoa(e.smbiosType);
  }
}

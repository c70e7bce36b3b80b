/** Which accepted bodies are written wider than needed (against the comment of internal/bridge/preflight.go
    that unneeded widths are rejected): the exact condition, and what narrowing does. */
module PreflightWidths {
  import opened Base
  import opened Preflights

  // ---------- What a map says ----------

  datatype Content = TextContent(body: seq<byte>) | NumberContent(n: int) | FlagContent(flag: byte)
  datatype Item = Item(key: seq<byte>, content: Content)

  function ContentOf(v: Value): Content {
    match v
    case TextValue(t) => TextContent(t.body)
    case DecimalValue(d) => NumberContent(Signed(d))
    case BoolValue(f) => FlagContent(f)
  }

  /** The keys and values, in order, whatever widths they are written in. */
  function Items(es: seq<Entry>): (items: seq<Item>)
    ensures |items| == |es| && forall i :: 0 <= i < |es| ==> items[i] == Item(es[i].key.body, ContentOf(es[i].value))
  {
    seq(|es|, i requires 0 <= i < |es| => Item(es[i].key.body, ContentOf(es[i].value)))
  }

  // ---------- Digits ----------

  /** The digits in front are only the sign of what follows, and a shorter width that may be used holds
      the same number. Six and seven digits may not be used. */
  predicate Redundant(d: seq<byte>) {
    if |d| == 0 then false
    else if |d| == 1 then d[0] == 0
    else if |d| == 8 then
      (d[0] == d[1] == d[2] == 0 && d[3] < 128) || (d[0] == d[1] == d[2] == 255 && d[3] >= 128)
    else (d[0] == 0 && d[1] < 128) || (d[0] == 255 && d[1] >= 128)
  }

  function Sign(d: seq<byte>): byte {
    if d != [] && d[0] >= 128 then 255 else 0
  }

  /** One more digit of sign. */
  lemma SignExtends(d: seq<byte>)
    ensures Signed([Sign(d)] + d) == Signed(d) && Sign([Sign(d)] + d) == Sign(d)
  {
    var e := [Sign(d)] + d;
    assert e[1..] == d;
  }

  lemma DropsSign(d: seq<byte>)
    requires d != [] && d[0] == Sign(d[1..])
    ensures Signed(d[1..]) == Signed(d)
  {
    SignExtends(d[1..]);
    assert [d[0]] + d[1..] == d;
  }

  /** Digit strings of one length that give one number are equal. */
  lemma {:induction false} SameFrom(v: int, d: seq<byte>, w: int, e: seq<byte>)
    requires |d| == |e| && SignedFrom(v, d) == SignedFrom(w, e)
    ensures v == w && d == e
    decreases |d|
  {
    if d != [] {
      SameFrom(v * 256 + d[0] as int, d[1..], w * 256 + e[0] as int, e[1..]);
      assert d == [d[0]] + d[1..] && e == [e[0]] + e[1..];
    }
  }

  function Extended(d: seq<byte>, n: nat): (e: seq<byte>)
    ensures |e| == |d| + n && e[n..] == d && forall i :: 0 <= i < n ==> e[i] == Sign(d)
  {
    Repeat(Sign(d), n) + d
  }

  lemma {:induction false} ExtendedSame(d: seq<byte>, n: nat)
    ensures Signed(Extended(d, n)) == Signed(d) && (n > 0 ==> Sign(Extended(d, n)) == Sign(d))
    decreases n
  {
    if n == 0 {
      assert Extended(d, 0) == d;
    } else {
      ExtendedSame(d, n - 1);
      if n == 1 {
        assert Extended(d, 0) == d;
      }
      SignExtends(Extended(d, n - 1));
      assert Extended(d, n) == [Sign(d)] + Extended(d, n - 1);
    }
  }

  /** A shorter digit string for the same number makes d redundant. */
  lemma ShorterMakesRedundant(d: seq<byte>, e: seq<byte>)
    requires ValidDigits(d) && ValidDigits(e) && |e| < |d| && Signed(d) == Signed(e)
    ensures Redundant(d)
  {
    var n := |d| - |e|;
    var x := Extended(e, n);
    ExtendedSame(e, n);
    SameFrom(if d[0] >= 128 then -1 else 0, d, if x[0] >= 128 then -1 else 0, x);
    assert e != [] ==> d[n] == e[0];
    assert |d| == 8 ==> n >= 3;
  }

  /** The digits without what is not needed. */
  function NarrowDigits(d: seq<byte>): seq<byte>
    decreases |d|
  {
    if Redundant(d) then NarrowDigits(if |d| == 8 then d[3..] else d[1..]) else d
  }

  lemma {:induction false} NarrowDigitsSame(d: seq<byte>)
    requires ValidDigits(d)
    ensures var n := NarrowDigits(d);
            && ValidDigits(n) && !Redundant(n) && Signed(n) == Signed(d) && |n| <= |d| && (|n| == |d| <==> !Redundant(d))
            && (!Redundant(d) ==> n == d)
    decreases |d|
  {
    if Redundant(d) {
      if |d| == 8 {
        DropsSign(d);
        DropsSign(d[1..]);
        DropsSign(d[1..][1..]);
        assert d[1..][1..][1..] == d[3..];
        NarrowDigitsSame(d[3..]);
      } else {
        DropsSign(d);
        NarrowDigitsSame(d[1..]);
      }
    }
  }

  /** Every number has one digit string that is not redundant. */
  lemma NarrowDigitsUnique(d: seq<byte>, e: seq<byte>)
    requires ValidDigits(d) && ValidDigits(e) && !Redundant(d) && !Redundant(e) && Signed(d) == Signed(e)
    ensures d == e
  {
    if |d| == |e| {
      SameFrom(if d != [] && d[0] >= 128 then -1 else 0, d, if e != [] && e[0] >= 128 then -1 else 0, e);
    } else if |e| < |d| {
      ShorterMakesRedundant(d, e);
    } else {
      ShorterMakesRedundant(e, d);
    }
  }

  // ---------- Texts, entries and maps ----------

  /** The shortest length prefix a text can have. */
  function NarrowForm(n: nat): Form {
    if n < 254 then Octet else Two
  }

  predicate WideText(t: Text) {
    t.form != NarrowForm(|t.body|)
  }

  predicate WideValue(v: Value) {
    match v
    case TextValue(t) => WideText(t)
    case DecimalValue(d) => Redundant(d)
    case BoolValue(_) => false
  }

  predicate WideEntry(e: Entry) {
    WideText(e.key) || WideValue(e.value)
  }

  predicate AnyWide(es: seq<Entry>) {
    exists i :: 0 <= i < |es| && WideEntry(es[i])
  }

  /** Some digit string or length prefix is longer than needed. */
  predicate Wide(m: ScalarMap) {
    Redundant(m.count) || AnyWide(m.entries)
  }

  function NarrowText(t: Text): Text {
    Text(NarrowForm(|t.body|), t.body)
  }

  function NarrowValue(v: Value): Value {
    match v
    case TextValue(t) => TextValue(NarrowText(t))
    case DecimalValue(d) => DecimalValue(NarrowDigits(d))
    case BoolValue(_) => v
  }

  function NarrowEntry(e: Entry): Entry {
    Entry(NarrowText(e.key), NarrowValue(e.value))
  }

  function NarrowEntries(es: seq<Entry>): (ns: seq<Entry>)
    ensures |ns| == |es| && forall i :: 0 <= i < |es| ==> ns[i] == NarrowEntry(es[i])
  {
    seq(|es|, i requires 0 <= i < |es| => NarrowEntry(es[i]))
  }

  function Narrow(m: ScalarMap): ScalarMap {
    ScalarMap(NarrowDigits(m.count), NarrowEntries(m.entries))
  }

  lemma NarrowTextSame(t: Text, limit: nat)
    requires ValidText(t, limit)
    ensures ValidText(NarrowText(t), limit)
    ensures |WireText(NarrowText(t), limit)| <= |WireText(t, limit)|
    ensures |WireText(NarrowText(t), limit)| == |WireText(t, limit)| <==> !WideText(t)
    ensures !WideText(t) ==> NarrowText(t) == t
  {
    hide Utf8;
  }

  lemma NarrowEntrySame(e: Entry)
    requires ValidEntry(e)
    ensures var n := NarrowEntry(e);
            && ValidEntry(n) && n.key.body == e.key.body && ContentOf(n.value) == ContentOf(e.value)
            && |WireEntry(n)| <= |WireEntry(e)| && (|WireEntry(n)| == |WireEntry(e)| <==> !WideEntry(e))
            && (!WideEntry(e) ==> n == e)
  {
    NarrowTextSame(e.key, MAX_KEY);
    match e.value
    case TextValue(t) => NarrowTextSame(t, MAX_TEXT);
    case DecimalValue(d) => NarrowDigitsSame(d);
    case BoolValue(_) =>
  }

  lemma NarrowEntriesSame(es: seq<Entry>)
    requires ValidEntries(es)
    ensures var ns := NarrowEntries(es);
            && ValidEntries(ns) && Items(ns) == Items(es) && (!AnyWide(es) ==> ns == es)
            && forall i :: 0 <= i < |es| ==> ns[i].key.body == es[i].key.body
  {
    hide NarrowEntry, ValidEntry, ContentOf, WideEntry;
    forall i | 0 <= i < |es|
      ensures ValidEntry(NarrowEntry(es[i])) && NarrowEntry(es[i]).key.body == es[i].key.body
      ensures ContentOf(NarrowEntry(es[i]).value) == ContentOf(es[i].value) && (!WideEntry(es[i]) ==> NarrowEntry(es[i]) == es[i])
    {
      NarrowEntrySame(es[i]);
    }
  }

  lemma AnyWideStep(es: seq<Entry>)
    requires es != []
    ensures AnyWide(es) <==> WideEntry(es[0]) || AnyWide(es[1..])
  {
    hide WideEntry;
    if AnyWide(es[1..]) {
      var i :| 0 <= i < |es[1..]| && WideEntry(es[1..][i]);
      assert WideEntry(es[i + 1]);
    }
    if AnyWide(es) && !WideEntry(es[0]) {
      var i :| 0 <= i < |es| && WideEntry(es[i]);
      assert es[1..][i - 1] == es[i];
    }
  }

  lemma {:induction false} NarrowEntriesShorter(es: seq<Entry>)
    requires ValidEntries(es) && ValidEntries(NarrowEntries(es))
    ensures var ns := NarrowEntries(es);
            |WireEntries(ns)| <= |WireEntries(es)| && (|WireEntries(ns)| == |WireEntries(es)| <==> !AnyWide(es))
    decreases |es|
  {
    if es == [] {
      assert NarrowEntries(es) == [];
    } else {
      NarrowEntrySame(es[0]);
      hide WideEntry, NarrowEntry, ValidEntry, WireEntry, AnyWide;
      NarrowEntriesSame(es[1..]);
      NarrowEntriesShorter(es[1..]);
      assert NarrowEntries(es)[1..] == NarrowEntries(es[1..]);
      AnyWideStep(es);
      if |es| == 1 {
        NoneWide(es[1..]);
      }
    }
  }

  lemma NoneWide(es: seq<Entry>)
    requires es == []
    ensures !AnyWide(es)
  {
  }

  lemma {:induction false} FreshByKeys(es: seq<Entry>, ns: seq<Entry>, seen: set<seq<byte>>)
    requires |ns| == |es| && Fresh(es, seen) && forall i :: 0 <= i < |es| ==> ns[i].key.body == es[i].key.body
    ensures Fresh(ns, seen)
    decreases |es|
  {
    if es != [] {
      FreshByKeys(es[1..], ns[1..], seen + {es[0].key.body});
    }
  }

  /** Narrowing keeps a map valid and what it says, and shortens it exactly when something is wide. */
  lemma NarrowSame(m: ScalarMap)
    requires ValidMap(m)
    ensures var n := Narrow(m);
            && ValidMap(n) && Items(n.entries) == Items(m.entries) && !Wide(n)
            && |WireMap(n)| <= |WireMap(m)| && (|WireMap(n)| < |WireMap(m)| <==> Wide(m))
  {
    NarrowDigitsSame(m.count);
    NarrowEntriesSame(m.entries);
    NarrowEntriesShorter(m.entries);
    FreshByKeys(m.entries, NarrowEntries(m.entries), {});
    NarrowIsNotWide(m.entries);
    hide AnyWide, Redundant, Signed, NarrowDigits, WireEntries, Items, Fresh, ValidEntry;
  }

  lemma NarrowIsNotWide(es: seq<Entry>)
    requires ValidEntries(es)
    ensures !AnyWide(NarrowEntries(es))
  {
    hide NarrowDigits, Redundant, Utf8, Signed;
    forall i | 0 <= i < |es| ensures !WideEntry(NarrowEntry(es[i])) {
      if es[i].value.DecimalValue? {
        NarrowDigitsSame(es[i].value.digits);
      }
    }
  }

  /** Two maps that say the same, and are nowhere wide, are the same map. */
  lemma NarrowIsUnique(m: ScalarMap, n: ScalarMap)
    requires ValidMap(m) && ValidMap(n) && !Wide(m) && !Wide(n) && Items(m.entries) == Items(n.entries)
    ensures m == n
  {
    assert |m.entries| == |n.entries| by {
      assert |Items(m.entries)| == |Items(n.entries)|;
    }
    NarrowDigitsUnique(m.count, n.count);
    forall i | 0 <= i < |m.entries| ensures m.entries[i] == n.entries[i] {
      assert Items(m.entries)[i] == Items(n.entries)[i];
      SameEntry(m.entries[i], n.entries[i]);
    }
  }

  lemma SameEntry(d: Entry, e: Entry)
    requires ValidEntry(d) && ValidEntry(e) && !WideEntry(d) && !WideEntry(e)
    requires d.key.body == e.key.body && ContentOf(d.value) == ContentOf(e.value)
    ensures d == e
  {
    hide Signed, Redundant, Utf8;
    if d.value.DecimalValue? {
      NarrowDigitsUnique(d.value.digits, e.value.digits);
    }
  }

  // ---------- Accepted bodies ----------

  /** The map of an accepted body. */
  function MapOf(b: seq<byte>): ScalarMap
    requires Accepts(b)
  {
    TakeMap(b).value
  }

  /** Two accepted bodies say the same. */
  predicate SaySame(b: seq<byte>, d: seq<byte>) {
    Accepts(b) && Accepts(d) && Items(MapOf(b).entries) == Items(MapOf(d).entries)
  }

  lemma MapOfBody(b: seq<byte>)
    requires Accepts(b)
    ensures ValidMap(MapOf(b)) && WireMap(MapOf(b)) == b && |b| <= MAX_BODY
  {
    hide TakeMap, WireMap, ValidMap;
    MapWritten(b);
  }

  lemma BodyOfMap(m: ScalarMap)
    requires ValidMap(m) && |WireMap(m)| <= MAX_BODY
    ensures Accepts(WireMap(m)) && MapOf(WireMap(m)) == m
  {
    hide TakeMap, WireMap, ValidMap;
    assert WireMap(m) + [] == WireMap(m);
    MapRead(m, []);
  }

  /** An accepted body is written wider than needed exactly when some digit string is redundant or some
      length prefix is not the shortest: then, and only then, a shorter accepted body says the same. */
  lemma WiderThanNeededExactly(b: seq<byte>)
    requires Accepts(b)
    ensures Wide(MapOf(b)) <==> exists d :: SaySame(b, d) && |d| < |b|
  {
    hide TakeMap, WireMap, ValidMap, Wide, Items, Narrow;
    MapOfBody(b);
    NarrowSame(MapOf(b));
    BodyOfMap(Narrow(MapOf(b)));
    var n := WireMap(Narrow(MapOf(b)));
    if Wide(MapOf(b)) {
      assert SaySame(b, n) && |n| < |b|;
    }
    if d :| SaySame(b, d) && |d| < |b| {
      MapOfBody(d);
      NarrowSame(MapOf(d));
      NarrowIsUnique(Narrow(MapOf(b)), Narrow(MapOf(d)));
    }
  }

  /** Of all accepted bodies that say the same exactly one is nowhere wide. */
  lemma NarrowBodyIsUnique(b: seq<byte>, d: seq<byte>)
    requires SaySame(b, d) && !Wide(MapOf(b)) && !Wide(MapOf(d))
    ensures b == d
  {
    hide TakeMap, WireMap, ValidMap, Wide, Items;
    MapOfBody(b);
    MapOfBody(d);
    NarrowIsUnique(MapOf(b), MapOf(d));
  }
}

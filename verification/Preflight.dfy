/** The bounded scalar map recognizer in front of the SDK reader (internal/bridge/preflight.go).

    `WireMap` is the grammar; the `Take` functions read it from the front of a byte string. */
module Preflights {
  import opened Base

  const MAX_BODY := 65536
  const MAX_ENTRIES := 32
  const MAX_KEY := 64
  const MAX_TEXT := 512

  const MAP_TAG: byte := 80
  const TEXT_TAG: byte := 50
  const DECIMAL_TAG: byte := 20
  const BOOL_TAG: byte := 10

  // ---------- UTF-8 (RFC 3629) ----------

  predicate Tail(b: byte) {
    0x80 <= b <= 0xBF
  }

  /** The length of the well-formed character in front, or 0. */
  function CharLength(s: seq<byte>): (n: nat)
    ensures n <= |s| && n <= 4
  {
    if |s| == 0 then 0
    else if s[0] < 0x80 then 1
    else if 0xC2 <= s[0] <= 0xDF then if |s| >= 2 && Tail(s[1]) then 2 else 0
    else if 0xE0 <= s[0] <= 0xEF then
      if |s| >= 3 && Tail(s[1]) && Tail(s[2]) && (s[0] == 0xE0 ==> s[1] >= 0xA0) && (s[0] == 0xED ==> s[1] <= 0x9F) then 3 else 0
    else if 0xF0 <= s[0] <= 0xF4 then
      if |s| >= 4 && Tail(s[1]) && Tail(s[2]) && Tail(s[3]) && (s[0] == 0xF0 ==> s[1] >= 0x90) && (s[0] == 0xF4 ==> s[1] <= 0x8F)
      then 4 else 0
    else 0
  }

  predicate Utf8(s: seq<byte>) {
    s == [] || (CharLength(s) > 0 && Utf8(s[CharLength(s)..]))
  }

  // ---------- The grammar ----------

  /** How a text states its length: in one octet, after 255 in two, or after 254 in four. */
  datatype Form = Octet | Two | Four
  datatype Text = Text(form: Form, body: seq<byte>)
  datatype Value = TextValue(text: Text) | DecimalValue(digits: seq<byte>) | BoolValue(flag: byte)
  datatype Entry = Entry(key: Text, value: Value)
  datatype ScalarMap = ScalarMap(count: seq<byte>, entries: seq<Entry>)

  predicate ValidDigits(d: seq<byte>) {
    |d| <= 8 && |d| != 6 && |d| != 7
  }

  function WireDigits(d: seq<byte>): (w: seq<byte>)
    requires ValidDigits(d)
    ensures |w| > 0
  {
    [|d| as byte] + d
  }

  function SignedFrom(v: int, d: seq<byte>): int
    decreases |d|
  {
    if d == [] then v else SignedFrom(v * 256 + d[0] as int, d[1..])
  }

  /** Big-endian two's complement. */
  function Signed(d: seq<byte>): int {
    SignedFrom(if d != [] && d[0] >= 128 then -1 else 0, d)
  }

  function U16(s: seq<byte>): nat
    requires |s| == 2
  {
    s[0] as nat * 0x100 + s[1] as nat
  }

  function U32(s: seq<byte>): nat
    requires |s| == 4
  {
    s[0] as nat * 0x100_0000 + s[1] as nat * 0x1_0000 + s[2] as nat * 0x100 + s[3] as nat
  }

  /** The length prefix of a text. */
  function Prefix(form: Form, n: nat): (p: seq<byte>)
    requires n <= MAX_TEXT && (form.Octet? ==> n < 254)
    ensures |p| > 0
  {
    match form
    case Octet => [n as byte]
    case Two => [255, (n / 256) as byte, (n % 256) as byte]
    case Four => [254, 0, 0, (n / 256) as byte, (n % 256) as byte]
  }

  predicate ValidText(t: Text, limit: nat) {
    |t.body| <= limit && limit <= MAX_TEXT && Utf8(t.body) && (t.form.Octet? ==> |t.body| < 254)
  }

  function WireText(t: Text, limit: nat): seq<byte>
    requires ValidText(t, limit)
  {
    Prefix(t.form, |t.body|) + t.body
  }

  predicate ValidValue(v: Value) {
    match v
    case TextValue(t) => ValidText(t, MAX_TEXT)
    case DecimalValue(d) => ValidDigits(d)
    case BoolValue(f) => f <= 1
  }

  predicate ValidEntry(e: Entry) {
    ValidText(e.key, MAX_KEY) && ValidValue(e.value)
  }

  function WireValue(v: Value): (w: seq<byte>)
    requires ValidValue(v)
    ensures |w| > 1
  {
    match v
    case TextValue(t) => [TEXT_TAG] + WireText(t, MAX_TEXT)
    case DecimalValue(d) => [DECIMAL_TAG] + WireDigits(d)
    case BoolValue(f) => [BOOL_TAG, f]
  }

  function WireEntry(e: Entry): (w: seq<byte>)
    requires ValidEntry(e)
    ensures |w| >= 2
  {
    WireText(e.key, MAX_KEY) + WireValue(e.value)
  }

  predicate ValidEntries(es: seq<Entry>) {
    forall i :: 0 <= i < |es| ==> ValidEntry(es[i])
  }

  function WireEntries(es: seq<Entry>): seq<byte>
    requires ValidEntries(es)
  {
    if es == [] then [] else WireEntry(es[0]) + WireEntries(es[1..])
  }

  /** Keys are pairwise distinct byte strings, none of them in seen. */
  predicate Fresh(es: seq<Entry>, seen: set<seq<byte>>) {
    es == [] || (es[0].key.body !in seen && Fresh(es[1..], seen + {es[0].key.body}))
  }

  predicate ValidMap(m: ScalarMap) {
    ValidDigits(m.count) && ValidEntries(m.entries) && Signed(m.count) == |m.entries| <= MAX_ENTRIES && Fresh(m.entries, {})
  }

  function WireMap(m: ScalarMap): seq<byte>
    requires ValidMap(m)
  {
    [MAP_TAG] + WireDigits(m.count) + WireEntries(m.entries)
  }

  // ---------- Reading ----------

  datatype Taken<T> = Got(value: T, rest: seq<byte>) | Bad

  function TakeDigits(b: seq<byte>): Taken<seq<byte>> {
    if b == [] || b[0] > 8 || b[0] == 6 || b[0] == 7 || |b| - 1 < b[0] as nat then Bad
    else Got(b[1..1 + b[0] as nat], b[1 + b[0] as nat..])
  }

  /** The form and length a text announces, and where its body starts. */
  function TakeLength(b: seq<byte>): Taken<(Form, nat)> {
    if b == [] then Bad
    else if b[0] == 255 then if |b| < 3 then Bad else Got((Two, U16(b[1..3])), b[3..])
    else if b[0] == 254 then
      // The announced length is a signed 32-bit integer; negative ones are refused.
      if |b| < 5 || U32(b[1..5]) >= 0x8000_0000 then Bad else Got((Four, U32(b[1..5])), b[5..])
    else Got((Octet, b[0] as nat), b[1..])
  }

  function TakeText(b: seq<byte>, limit: nat): Taken<Text> {
    match TakeLength(b)
    case Bad => Bad
    case Got((form, n), rest) =>
      if n > limit || n > |rest| || !Utf8(rest[..n]) then Bad else Got(Text(form, rest[..n]), rest[n..])
  }

  function TakeValue(b: seq<byte>): Taken<Value> {
    if b == [] then Bad
    else if b[0] == TEXT_TAG then
      match TakeText(b[1..], MAX_TEXT) case Bad => Bad case Got(t, rest) => Got(TextValue(t), rest)
    else if b[0] == DECIMAL_TAG then
      match TakeDigits(b[1..]) case Bad => Bad case Got(d, rest) => Got(DecimalValue(d), rest)
    else if b[0] == BOOL_TAG && |b| >= 2 && b[1] <= 1 then Got(BoolValue(b[1]), b[2..])
    else Bad
  }

  function TakeEntry(b: seq<byte>): Taken<Entry> {
    match TakeText(b, MAX_KEY)
    case Bad => Bad
    case Got(key, rest) => match TakeValue(rest) case Bad => Bad case Got(v, rest') => Got(Entry(key, v), rest')
  }

  function TakeEntries(b: seq<byte>, count: nat, seen: set<seq<byte>>): Taken<seq<Entry>> {
    if count == 0 then Got([], b)
    else
      match TakeEntry(b)
      case Bad => Bad
      case Got(e, rest) =>
        if e.key.body in seen then Bad
        else match TakeEntries(rest, count - 1, seen + {e.key.body}) case Bad => Bad case Got(es, rest') => Got([e] + es, rest')
  }

  function TakeMap(b: seq<byte>): (r: Taken<ScalarMap>)
    ensures r.Got? ==> |b| <= MAX_BODY
  {
    if |b| < 2 || |b| > MAX_BODY || b[0] != MAP_TAG then Bad
    else
      match TakeDigits(b[1..])
      case Bad => Bad
      case Got(count, rest) =>
        if !(0 <= Signed(count) <= MAX_ENTRIES) then Bad
        else match TakeEntries(rest, Signed(count), {}) case Bad => Bad case Got(es, rest') => Got(ScalarMap(count, es), rest')
  }

  /** What preflightMap accepts: a map with nothing left over. */
  predicate Accepts(b: seq<byte>) {
    TakeMap(b).Got? && TakeMap(b).rest == []
  }

  // ---------- Reading inverts writing ----------

  lemma DigitsRead(d: seq<byte>, x: seq<byte>)
    requires ValidDigits(d)
    ensures TakeDigits(WireDigits(d) + x) == Got(d, x)
  {
    var b := WireDigits(d) + x;
    assert b[1..1 + |d|] == d && b[1 + |d|..] == x;
  }

  lemma DigitsWritten(b: seq<byte>)
    requires TakeDigits(b).Got?
    ensures ValidDigits(TakeDigits(b).value) && b == WireDigits(TakeDigits(b).value) + TakeDigits(b).rest
  {
  }

  lemma LengthRead(form: Form, n: nat, x: seq<byte>)
    requires n <= MAX_TEXT && (form.Octet? ==> n < 254)
    ensures TakeLength(Prefix(form, n) + x) == Got((form, n), x)
  {
    var p := Prefix(form, n);
    var b := p + x;
    assert b[|p|..] == x;
    if form.Two? {
      assert b[1..3] == p[1..3];
    } else if form.Four? {
      assert b[1..5] == p[1..5];
    }
  }

  lemma LengthWritten(b: seq<byte>, limit: nat)
    requires TakeLength(b).Got? && TakeLength(b).value.1 <= limit <= MAX_TEXT
    ensures var r := TakeLength(b);
            (r.value.0.Octet? ==> r.value.1 < 254) && b == Prefix(r.value.0, r.value.1) + r.rest
  {
    if b[0] == 255 {
      assert b[1..3] == [b[1], b[2]] && U16(b[1..3]) == b[1] as nat * 256 + b[2] as nat;
    } else if b[0] == 254 {
      assert b[1..5] == [b[1], b[2], b[3], b[4]];
      assert b[1] == 0 && b[2] == 0;
    }
  }

  lemma TextRead(t: Text, limit: nat, x: seq<byte>)
    requires ValidText(t, limit)
    ensures TakeText(WireText(t, limit) + x, limit) == Got(t, x)
  {
    hide Utf8, Prefix, TakeLength;
    var p := Prefix(t.form, |t.body|);
    assert WireText(t, limit) + x == p + (t.body + x);
    LengthRead(t.form, |t.body|, t.body + x);
    assert (t.body + x)[..|t.body|] == t.body && (t.body + x)[|t.body|..] == x;
  }

  lemma TextWritten(b: seq<byte>, limit: nat)
    requires TakeText(b, limit).Got? && limit <= MAX_TEXT
    ensures var r := TakeText(b, limit); ValidText(r.value, limit) && b == WireText(r.value, limit) + r.rest
  {
    hide Utf8, Prefix, TakeLength;
    LengthWritten(b, limit);
    var l := TakeLength(b);
    var n := l.value.1;
    assert l.rest == l.rest[..n] + l.rest[n..];
    assert b == Prefix(l.value.0, n) + l.rest[..n] + l.rest[n..];
  }

  lemma EntryRead(e: Entry, x: seq<byte>)
    requires ValidEntry(e)
    ensures TakeEntry(WireEntry(e) + x) == Got(e, x)
  {
    hide Utf8, ValidText, TakeText, WireText, TakeValue, WireValue, ValidValue;
    var v := WireValue(e.value);
    assert WireEntry(e) + x == WireText(e.key, MAX_KEY) + (v + x);
    TextRead(e.key, MAX_KEY, v + x);
    ValueRead(e.value, x);
  }

  lemma ValueRead(v: Value, x: seq<byte>)
    requires ValidValue(v)
    ensures TakeValue(WireValue(v) + x) == Got(v, x)
  {
    hide Utf8, ValidText, TakeText, WireText, ValidDigits, TakeDigits, WireDigits;
    var b := WireValue(v) + x;
    match v
    case TextValue(t) =>
      assert b[1..] == WireText(t, MAX_TEXT) + x;
      TextRead(t, MAX_TEXT, x);
    case DecimalValue(d) =>
      assert b[1..] == WireDigits(d) + x;
      DigitsRead(d, x);
    case BoolValue(f) =>
      assert b[2..] == x;
  }

  lemma ValueWritten(b: seq<byte>)
    requires TakeValue(b).Got?
    ensures var r := TakeValue(b); ValidValue(r.value) && b == WireValue(r.value) + r.rest
  {
    hide Utf8, ValidText, TakeText, WireText, ValidDigits, TakeDigits, WireDigits;
    if b[0] == TEXT_TAG {
      TextWritten(b[1..], MAX_TEXT);
    } else if b[0] == DECIMAL_TAG {
      DigitsWritten(b[1..]);
    }
    assert b == [b[0]] + b[1..];
  }

  lemma EntryWritten(b: seq<byte>)
    requires TakeEntry(b).Got?
    ensures var r := TakeEntry(b); ValidEntry(r.value) && b == WireEntry(r.value) + r.rest
  {
    hide Utf8, ValidText, TakeText, WireText, TakeValue, WireValue, ValidValue;
    TextWritten(b, MAX_KEY);
    ValueWritten(TakeText(b, MAX_KEY).rest);
  }

  lemma {:induction false} EntriesRead(es: seq<Entry>, seen: set<seq<byte>>, x: seq<byte>)
    requires ValidEntries(es) && Fresh(es, seen)
    ensures TakeEntries(WireEntries(es) + x, |es|, seen) == Got(es, x)
    decreases |es|
  {
    hide TakeEntry, WireEntry, ValidEntry;
    if es == [] {
      assert WireEntries(es) + x == x;
    } else {
      assert WireEntries(es) + x == WireEntry(es[0]) + (WireEntries(es[1..]) + x);
      EntryRead(es[0], WireEntries(es[1..]) + x);
      EntriesRead(es[1..], seen + {es[0].key.body}, x);
      assert es == [es[0]] + es[1..];
    }
  }

  lemma {:induction false} EntriesWritten(b: seq<byte>, count: nat, seen: set<seq<byte>>)
    requires TakeEntries(b, count, seen).Got?
    ensures var r := TakeEntries(b, count, seen);
            |r.value| == count && ValidEntries(r.value) && Fresh(r.value, seen) && b == WireEntries(r.value) + r.rest
    decreases count
  {
    hide TakeEntry, WireEntry, ValidEntry;
    if count == 0 {
      assert b == [] + b;
    } else {
      EntryWritten(b);
      var e := TakeEntry(b);
      EntriesWritten(e.rest, count - 1, seen + {e.value.key.body});
      var t := TakeEntries(e.rest, count - 1, seen + {e.value.key.body});
      var es := [e.value] + t.value;
      assert es[0] == e.value && es[1..] == t.value;
      assert WireEntry(e.value) + (WireEntries(t.value) + t.rest) == WireEntries(es) + t.rest;
    }
  }

  lemma MapRead(m: ScalarMap, x: seq<byte>)
    requires ValidMap(m) && |WireMap(m) + x| <= MAX_BODY
    ensures TakeMap(WireMap(m) + x) == Got(m, x)
  {
    hide ValidDigits, TakeDigits, WireDigits, TakeEntries, WireEntries, ValidEntries, Fresh, Signed;
    var b := WireMap(m) + x;
    assert b[1..] == WireDigits(m.count) + (WireEntries(m.entries) + x);
    DigitsRead(m.count, WireEntries(m.entries) + x);
    EntriesRead(m.entries, {}, x);
  }

  lemma MapWritten(b: seq<byte>)
    requires TakeMap(b).Got?
    ensures var r := TakeMap(b); ValidMap(r.value) && b == WireMap(r.value) + r.rest
  {
    hide ValidDigits, TakeDigits, WireDigits, TakeEntries, WireEntries, ValidEntries, Fresh, Signed;
    DigitsWritten(b[1..]);
    var d := TakeDigits(b[1..]);
    EntriesWritten(d.rest, Signed(d.value), {});
    assert b == [b[0]] + b[1..];
  }

  /** preflightMap accepts exactly the complete bounded scalar maps, each the form of one map only. */
  lemma AcceptsExactly(b: seq<byte>)
    ensures Accepts(b) <==> |b| <= MAX_BODY && exists m :: ValidMap(m) && WireMap(m) == b
    ensures forall m, n :: ValidMap(m) && ValidMap(n) && |b| <= MAX_BODY && WireMap(m) == b && WireMap(n) == b ==> m == n
  {
    hide WireMap, ValidMap, TakeMap;
    if Accepts(b) {
      MapWritten(b);
      assert WireMap(TakeMap(b).value) == b;
    }
    forall m | ValidMap(m) && WireMap(m) == b && |b| <= MAX_BODY
      ensures TakeMap(b) == Got(m, [])
    {
      assert b + [] == b;
      MapRead(m, []);
    }
  }

  /** No accepted body extends another. */
  lemma PrefixFree(b: seq<byte>, x: seq<byte>)
    requires Accepts(b) && Accepts(b + x)
    ensures x == []
  {
    hide WireMap, ValidMap, TakeMap;
    MapWritten(b);
    var m := TakeMap(b).value;
    assert WireMap(m) == b;
    MapRead(m, x);
  }

  /** Against the wording of its comment, the code accepts several encodings of one map: a short
      text may use a wide length, and a number may carry leading zeros. */
  lemma WideFormsAreAccepted()
    ensures Accepts([80, 1, 1, 1, 65, 10, 1])
    ensures Accepts([80, 1, 1, 255, 0, 1, 65, 10, 1])
    ensures Accepts([80, 2, 0, 1, 1, 65, 10, 1])
  {
    hide *;
    var k, w := Entry(Text(Octet, [65]), BoolValue(1)), Entry(Text(Two, [65]), BoolValue(1));
    LetterEntry(k);
    LetterEntry(w);
    assert [80, 1] + [1] + [1, 65, 10, 1] == [80, 1, 1, 1, 65, 10, 1];
    OneEntryAccepted([1], k);
    assert [80, 1] + [1] + [255, 0, 1, 65, 10, 1] == [80, 1, 1, 255, 0, 1, 65, 10, 1];
    OneEntryAccepted([1], w);
    assert [80, 2] + [0, 1] + [1, 65, 10, 1] == [80, 2, 0, 1, 1, 65, 10, 1];
    OneEntryAccepted([0, 1], k);
  }

  lemma LetterEntry(e: Entry)
    requires e.key.body == [65] && !e.key.form.Four? && e.value == BoolValue(1)
    ensures ValidEntry(e)
    ensures WireEntry(e) == if e.key.form.Octet? then [1, 65, 10, 1] else [255, 0, 1, 65, 10, 1]
  {
    LetterIsUtf8();
  }

  lemma LetterIsUtf8()
    ensures Utf8([65])
  {
    assert CharLength([65]) == 1 && Utf8([65][1..]);
  }

  lemma OneEntryAccepted(count: seq<byte>, e: Entry)
    requires (count == [1] || count == [0, 1]) && ValidEntry(e) && |WireEntry(e)| < 100
    ensures Accepts([80, if count == [1] then 1 else 2] + count + WireEntry(e))
  {
    var one: seq<byte> := [1];
    assert [0, 1][1..] == one && one[1..] == [];
    assert SignedFrom(0, one) == SignedFrom(1, one[1..]) == 1;
    assert Signed(count) == 1;
    var es := [e];
    assert es[1..] == [] && WireEntries(es) == WireEntry(e) + [];
    var m := ScalarMap(count, es);
    assert Fresh(es, {}) && ValidMap(m);
    assert WireMap(m) == [80, |count| as byte] + count + WireEntry(e);
    AcceptsExactly(WireMap(m));
  }

  // ---------- The recognizer: a cursor over the body ----------

  lemma {:induction false} SignedSpan(v: int, d: seq<byte>)
    ensures v * Power(|d|) <= SignedFrom(v, d) < (v + 1) * Power(|d|)
    decreases |d|
  {
    if d != [] {
      SignedSpan(v * 256 + d[0] as int, d[1..]);
      SpanStep(v, d[0] as int, Power(|d| - 1));
    }
  }

  function Power(n: nat): nat {
    if n == 0 then 1 else 256 * Power(n - 1)
  }

  lemma SpanStep(v: int, c: int, p: nat)
    requires 0 <= c < 256
    ensures v * (256 * p) <= (v * 256 + c) * p && (v * 256 + c + 1) * p <= (v + 1) * (256 * p)
  {
    assert (v * 256 + c) * p == v * (256 * p) + c * p;
    assert (v + 1) * (256 * p) - (v * 256 + c + 1) * p == (255 - c) * p;
  }

  /** Eight digits at most: the accumulated number always fits a signed 64-bit integer. */
  lemma SignedFits(d: seq<byte>)
    requires |d| <= 8
    ensures -0x8000_0000_0000_0000 <= Signed(d) < 0x8000_0000_0000_0000
  {
    hide SignedFrom, Power;
    if d == [] {
      assert Signed(d) == SignedFrom(0, d);
      SignedSpan(0, d);
      PowerOfNothing();
    } else {
      var v := (if d[0] >= 128 then -1 else 0) * 256 + d[0] as int;
      SignedStep(d);
      SignedSpan(v, d[1..]);
      PowerTable(|d| - 1);
      ByteScales(v, Power(|d| - 1));
    }
  }

  lemma SignedStep(d: seq<byte>)
    requires d != []
    ensures Signed(d) == SignedFrom((if d[0] >= 128 then -1 else 0) * 256 + d[0] as int, d[1..])
  {
  }

  lemma PowerOfNothing()
    ensures Power(0) == 1
  {
  }

  lemma ByteScales(v: int, p: nat)
    requires -128 <= v < 128
    ensures -128 * p <= v * p && (v + 1) * p <= 128 * p
  {
  }

  lemma PowerTable(n: nat)
    requires n <= 7
    ensures 1 <= Power(n) <= 0x100_0000_0000_0000
  {
    assert Power(1) == 256 && Power(2) == 0x1_0000 && Power(3) == 0x100_0000 && Power(4) == 0x1_0000_0000;
    assert Power(5) == 0x100_0000_0000 && Power(6) == 0x1_0000_0000_0000 && Power(7) == 0x100_0000_0000_0000;
  }

  method Accumulate(d: seq<byte>) returns (v: int)
    ensures v == Signed(d)
  {
    v := if d != [] && d[0] >= 128 then -1 else 0;
    for i := 0 to |d|
      invariant SignedFrom(v, d[i..]) == Signed(d)
    {
      assert d[i..][1..] == d[i + 1..];
      v := v * 256 + d[i] as int;
    }
  }

  method Decimal(b: seq<byte>, p: nat) returns (ok: bool, v: int, q: nat)
    requires p <= |b|
    ensures ok == TakeDigits(b[p..]).Got? && q <= |b|
    ensures ok ==> v == Signed(TakeDigits(b[p..]).value) && b[q..] == TakeDigits(b[p..]).rest
  {
    if p == |b| {
      return false, 0, p;
    }
    var n := b[p] as nat;
    if n > 8 || n == 6 || n == 7 || n > |b| - p - 1 {
      return false, 0, p;
    }
    q := p + 1 + n;
    assert b[p..][1..1 + n] == b[p + 1..q] && b[p..][1 + n..] == b[q..];
    v := Accumulate(b[p + 1..q]);
    return true, v, q;
  }

  method TextLength(b: seq<byte>, p: nat) returns (ok: bool, n: nat, q: nat)
    requires p <= |b|
    ensures ok == TakeLength(b[p..]).Got? && q <= |b|
    ensures ok ==> n == TakeLength(b[p..]).value.1 && b[q..] == TakeLength(b[p..]).rest
  {
    if p == |b| {
      return false, 0, p;
    }
    n, q := b[p] as nat, p + 1;
    if n == 255 {
      if 2 > |b| - q {
        return false, 0, p;
      }
      assert b[p..][1..3] == b[q..q + 2] && b[p..][3..] == b[q + 2..];
      n, q := U16(b[q..q + 2]), q + 2;
    } else if n == 254 {
      if 4 > |b| - q {
        return false, 0, p;
      }
      assert b[p..][1..5] == b[q..q + 4] && b[p..][5..] == b[q + 4..];
      n, q := U32(b[q..q + 4]), q + 4;
      if n >= 0x8000_0000 {
        return false, 0, p;
      }
    } else {
      assert b[p..][1..] == b[q..];
    }
    return true, n, q;
  }

  method ReadText(b: seq<byte>, p: nat, limit: nat) returns (ok: bool, body: seq<byte>, q: nat)
    requires p <= |b|
    ensures ok == TakeText(b[p..], limit).Got? && q <= |b|
    ensures ok ==> body == TakeText(b[p..], limit).value.body && b[q..] == TakeText(b[p..], limit).rest
  {
    hide TakeLength, Utf8;
    var n: nat;
    ok, n, q := TextLength(b, p);
    if !ok || n > limit || n > |b| - q {
      return false, [], p;
    }
    body := b[q..q + n];
    assert b[q..][..n] == body && b[q..][n..] == b[q + n..];
    return Utf8(body), body, q + n;
  }

  method ReadValue(b: seq<byte>, p: nat) returns (ok: bool, q: nat)
    requires p <= |b|
    ensures ok == TakeValue(b[p..]).Got? && q <= |b|
    ensures ok ==> b[q..] == TakeValue(b[p..]).rest
  {
    hide TakeText, TakeDigits;
    if p == |b| {
      return false, p;
    }
    assert b[p..][1..] == b[p + 1..];
    if b[p] == TEXT_TAG {
      var body;
      ok, body, q := ReadText(b, p + 1, MAX_TEXT);
    } else if b[p] == DECIMAL_TAG {
      var v;
      ok, v, q := Decimal(b, p + 1);
    } else if b[p] == BOOL_TAG && p + 1 < |b| && b[p + 1] <= 1 {
      assert b[p..][2..] == b[p + 2..];
      return true, p + 2;
    } else {
      return false, p;
    }
  }

  /** preflightMap: true for accepted bodies. */
  method PreflightMap(b: seq<byte>) returns (accepted: bool)
    ensures accepted == Accepts(b)
  {
    if |b| < 2 || |b| > MAX_BODY || b[0] != MAP_TAG {
      return false;
    }
    var ok, count, p := Decimal(b, 1);
    if !ok || count < 0 || count > MAX_ENTRIES {
      return false;
    }
    accepted := ReadEntries(b, p, count);
  }

  method ReadEntries(b: seq<byte>, start: nat, count: nat) returns (accepted: bool)
    requires start <= |b|
    ensures accepted <==> TakeEntries(b[start..], count, {}).Got? && TakeEntries(b[start..], count, {}).rest == []
  {
    hide TakeText, TakeValue;
    var p, keys: set<seq<byte>> := start, {};
    ghost var goal := TakeEntries(b[start..], count, {});
    for i := 0 to count
      invariant 0 <= p <= |b|
      invariant goal.Got? <==> TakeEntries(b[p..], count - i, keys).Got?
      invariant goal.Got? ==> goal.rest == TakeEntries(b[p..], count - i, keys).rest
    {
      var ok, key, q := ReadText(b, p, MAX_KEY);
      if !ok || key in keys {
        return false;
      }
      keys := keys + {key};
      ok, p := ReadValue(b, q);
      if !ok {
        return false;
      }
    }
    return p == |b|;
  }
}

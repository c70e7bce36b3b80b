/** DNS header and question parsing (Parse and parseName of internal/dns/dns.go). Name wire form:
    RFC 1035 section 3.1; header and question: sections 4.1.1 and 4.1.2. */
module DnsMessages {
  import opened Base

  type Label = seq<byte>

  const DOT: byte := 46
  const MAX_NAME := 253

  // ---------- The wire form ----------

  predicate Visible(s: seq<byte>) {
    forall i :: 0 <= i < |s| ==> 33 <= s[i] <= 126
  }

  predicate ValidLabel(l: Label) {
    1 <= |l| <= 63 && Visible(l)
  }

  predicate ValidLabels(ls: seq<Label>) {
    forall i :: 0 <= i < |ls| ==> ValidLabel(ls[i])
  }

  /** Length-prefixed labels ended by the root's zero length. */
  function Wire(ls: seq<Label>): seq<byte>
    requires ValidLabels(ls)
  {
    if ls == [] then [0] else [|ls[0]| as byte] + ls[0] + Wire(ls[1..])
  }

  /** Labels joined by dots. */
  function Dotted(ls: seq<Label>): seq<byte> {
    if ls == [] then [] else if |ls| == 1 then ls[0] else ls[0] + [DOT] + Dotted(ls[1..])
  }

  /** A nonempty name takes two octets more on the wire than dotted (RFC 1035 section 2.3.4). */
  lemma {:induction false} WireLength(ls: seq<Label>)
    requires ValidLabels(ls) && ls != []
    ensures |Wire(ls)| == |Dotted(ls)| + 2
    decreases |ls|
  {
    if |ls| == 1 {
      assert Wire(ls[1..]) == [0];
    } else {
      WireLength(ls[1..]);
    }
  }

  /** The wire form is prefix-free, so bytes determine the labels. */
  lemma {:induction false} WireIsUnique(a: seq<Label>, x: seq<byte>, b: seq<Label>, y: seq<byte>)
    requires ValidLabels(a) && ValidLabels(b) && Wire(a) + x == Wire(b) + y
    ensures a == b && x == y
    decreases |a|
  {
    var s := Wire(a) + x;
    WireStarts(a, x);
    WireStarts(b, y);
    if a == [] || b == [] {
      assert x == s[1..] && y == s[1..];
    } else {
      WireIsUnique(a[1..], x, b[1..], y);
      assert a == [a[0]] + a[1..] && b == [b[0]] + b[1..];
    }
  }

  /** The first octet tells whether there is a label, and which. */
  lemma WireStarts(a: seq<Label>, x: seq<byte>)
    requires ValidLabels(a)
    ensures var s := Wire(a) + x;
            && |s| > 0
            && (a == [] <==> s[0] == 0)
            && (a != [] ==> var n := s[0] as nat; n == |a[0]| && n < |s| && s[1..n + 1] == a[0] && s[n + 1..] == Wire(a[1..]) + x)
            && (a == [] ==> s[1..] == x)
  {
    if a == [] {
      assert Wire(a) + x == [0] + x;
    } else {
      assert ValidLabel(a[0]);
      var size := [|a[0]| as byte];
      assert (size + a[0] + Wire(a[1..])) + x == size + a[0] + (Wire(a[1..]) + x);
      ThreeParts(size[0], a[0], Wire(a[1..]) + x);
    }
  }

  lemma ThreeParts(size: byte, a: seq<byte>, b: seq<byte>)
    ensures var s := [size] + a + b;
            s[0] == size && s[1..|a| + 1] == a && s[|a| + 1..] == b
  {
  }

  // ---------- Parsing a name ----------

  datatype NameError = PastEnd | Compressed | LabelPastEnd | Unsupported
  datatype LabelsResult = Labels(labels: seq<Label>, end: nat) | BadLabels(error: NameError)
  datatype NameResult = Name(name: seq<byte>, end: nat) | BadName(error: NameError)

  /** The dotted length once a label of n bytes joins a name of `used` bytes. */
  function Longer(used: nat, n: nat): nat {
    used + n + if used > 0 then 1 else 0
  }

  /** What parseName finds at one length octet: an end, an objection, or a label to take. */
  datatype Found = Stop(result: LabelsResult) | Take(part: Label)

  function FindLabel(payload: seq<byte>, offset: nat, used: nat): (f: Found)
    ensures f.Stop? && f.result.Labels? ==> f.result.labels == []
    ensures f.Take? ==> ValidLabel(f.part) && offset + 1 + |f.part| <= |payload| && Longer(used, |f.part|) <= MAX_NAME
  {
    if offset >= |payload| then Stop(BadLabels(PastEnd))
    else if payload[offset] == 0 then Stop(Labels([], offset + 1))
    else if payload[offset] >= 64 then Stop(BadLabels(Compressed))
    else if offset + 1 + payload[offset] as nat > |payload| then Stop(BadLabels(LabelPastEnd))
    else
      var part := payload[offset + 1..offset + 1 + payload[offset] as nat];
      if Longer(used, |part|) > MAX_NAME || !Visible(part) then Stop(BadLabels(Unsupported)) else Take(part)
  }

  function Prepended(ls: seq<Label>, r: LabelsResult): LabelsResult {
    if r.Labels? then r.(labels := ls + r.labels) else r
  }

  /** The labels from offset on, behind a name of `used` bytes. */
  function ParseLabels(payload: seq<byte>, offset: nat, used: nat): LabelsResult
    decreases |payload| - offset
  {
    match FindLabel(payload, offset, used)
    case Stop(result) => result
    case Take(part) => Prepended([part], ParseLabels(payload, offset + 1 + |part|, Longer(used, |part|)))
  }

  function NameOf(r: LabelsResult): NameResult {
    if r.Labels? then Name(Dotted(r.labels), r.end) else BadName(r.error)
  }

  /** The dotted length after all labels joined. */
  function Total(used: nat, ls: seq<Label>): (n: nat)
    ensures n >= used
    decreases |ls|
  {
    if ls == [] then used else Total(Longer(used, |ls[0]|), ls[1..])
  }

  lemma {:induction false} TotalIsDotted(used: nat, ls: seq<Label>)
    requires ValidLabels(ls) && ls != []
    ensures Total(used, ls) == Longer(used, |Dotted(ls)|)
    decreases |ls|
  {
    assert ValidLabel(ls[0]);
    if |ls| > 1 {
      TotalIsDotted(Longer(used, |ls[0]|), ls[1..]);
    }
  }

  /** The labels stand at the offset in wire form. */
  predicate At(payload: seq<byte>, offset: nat, ls: seq<Label>)
    requires ValidLabels(ls)
  {
    offset + |Wire(ls)| <= |payload| && payload[offset..offset + |Wire(ls)|] == Wire(ls)
  }

  lemma SliceSplits(p: seq<byte>, o: nat, a: seq<byte>, b: seq<byte>)
    requires o + |a| + |b| <= |p|
    ensures p[o..o + |a| + |b|] == a + b <==> p[o..o + |a|] == a && p[o + |a|..o + |a| + |b|] == b
  {
    var s := p[o..o + |a| + |b|];
    assert p[o..o + |a|] == s[..|a|] && p[o + |a|..o + |a| + |b|] == s[|a|..];
    if s == a + b {
      assert s[..|a|] == a && s[|a|..] == b;
    }
  }

  lemma AtSplits(payload: seq<byte>, offset: nat, ls: seq<Label>)
    requires ValidLabels(ls) && ls != [] && offset < |payload|
    ensures At(payload, offset, ls) <==>
            var n := |ls[0]|;
            && payload[offset] as nat == n
            && offset + 1 + n <= |payload| && payload[offset + 1..offset + 1 + n] == ls[0]
            && At(payload, offset + 1 + n, ls[1..])
  {
    var n := |ls[0]|;
    var size, rest := [n as byte], Wire(ls[1..]);
    assert Wire(ls) == size + (ls[0] + rest);
    if offset + |Wire(ls)| <= |payload| {
      SliceSplits(payload, offset, size, ls[0] + rest);
      SliceSplits(payload, offset + 1, ls[0], rest);
      assert payload[offset..offset + 1] == [payload[offset]];
    }
  }

  /** Labels in wire form are read back, if their dotted name is short enough; otherwise they are
      refused as unsupported. */
  lemma {:induction false} EncodedLabelsParse(payload: seq<byte>, offset: nat, used: nat, ls: seq<Label>)
    requires ValidLabels(ls) && At(payload, offset, ls) && used <= MAX_NAME
    ensures ParseLabels(payload, offset, used) ==
            if Total(used, ls) <= MAX_NAME then Labels(ls, offset + |Wire(ls)|) else BadLabels(Unsupported)
    decreases |ls|
  {
    if ls == [] {
      assert payload[offset] == payload[offset..offset + 1][0] == 0;
    } else {
      AtSplits(payload, offset, ls);
      assert ValidLabel(ls[0]);
      assert ls == [ls[0]] + ls[1..];
      if Longer(used, |ls[0]|) <= MAX_NAME {
        assert FindLabel(payload, offset, used) == Take(ls[0]);
        EncodedLabelsParse(payload, offset + 1 + |ls[0]|, Longer(used, |ls[0]|), ls[1..]);
      }
    }
  }

  /** Labels that were read stand at the offset in wire form. */
  lemma {:induction false} ParsedLabelsAreEncoded(payload: seq<byte>, offset: nat, used: nat)
    requires ParseLabels(payload, offset, used).Labels? && used <= MAX_NAME
    ensures var r := ParseLabels(payload, offset, used);
            && ValidLabels(r.labels) && At(payload, offset, r.labels)
            && r.end == offset + |Wire(r.labels)| && Total(used, r.labels) <= MAX_NAME
    decreases |payload| - offset
  {
    match FindLabel(payload, offset, used)
    case Stop(_) =>
      assert payload[offset..offset + 1] == [0] == Wire([]);
    case Take(part) =>
      ParsedLabelsAreEncoded(payload, offset + 1 + |part|, Longer(used, |part|));
      PrependPart(payload, offset, used, part, ParseLabels(payload, offset + 1 + |part|, Longer(used, |part|)).labels);
  }

  lemma PrependPart(payload: seq<byte>, offset: nat, used: nat, part: Label, rest: seq<Label>)
    requires ValidLabel(part) && ValidLabels(rest) && offset + 1 + |part| <= |payload|
    requires payload[offset] as nat == |part| && payload[offset + 1..offset + 1 + |part|] == part
    requires At(payload, offset + 1 + |part|, rest)
    ensures ValidLabels([part] + rest) && At(payload, offset, [part] + rest)
    ensures |Wire([part] + rest)| == 1 + |part| + |Wire(rest)|
    ensures Total(used, [part] + rest) == Total(Longer(used, |part|), rest)
  {
    var ls := [part] + rest;
    assert ls[1..] == rest && ls[0] == part;
    AtSplits(payload, offset, ls);
  }

  /** The name of some labels at the offset, ending at end. */
  ghost predicate Encodes(payload: seq<byte>, offset: nat, ls: seq<Label>, name: seq<byte>, end: nat) {
    ValidLabels(ls) && At(payload, offset, ls) && end == offset + |Wire(ls)| && name == Dotted(ls) && |name| <= MAX_NAME
  }

  /** parseName succeeds with (name, end) exactly when the bytes up to end are the wire form of
      labels whose dotted name it is, of at most 253 bytes; and those labels are unique. */
  lemma ParseNameExactly(payload: seq<byte>, offset: nat, name: seq<byte>, end: nat)
    ensures NameOf(ParseLabels(payload, offset, 0)) == Name(name, end) <==> exists ls :: Encodes(payload, offset, ls, name, end)
    ensures forall a, b :: Encodes(payload, offset, a, name, end) && Encodes(payload, offset, b, name, end) ==> a == b
  {
    var r := ParseLabels(payload, offset, 0);
    if NameOf(r) == Name(name, end) {
      ParsedLabelsAreEncoded(payload, offset, 0);
      if r.labels != [] {
        TotalIsDotted(0, r.labels);
      }
      assert Encodes(payload, offset, r.labels, name, end);
    }
    forall ls | Encodes(payload, offset, ls, name, end)
      ensures NameOf(r) == Name(name, end)
    {
      if ls != [] {
        TotalIsDotted(0, ls);
      }
      EncodedLabelsParse(payload, offset, 0, ls);
    }
    forall a, b | Encodes(payload, offset, a, name, end) && Encodes(payload, offset, b, name, end)
      ensures a == b
    {
      WireIsUnique(a, [], b, []);
    }
  }

  lemma {:induction false} DottedSnoc(ls: seq<Label>, part: Label)
    requires ValidLabels(ls) && ls != []
    ensures Dotted(ls + [part]) == Dotted(ls) + [DOT] + part
    decreases |ls|
  {
    var more := ls + [part];
    assert more[0] == ls[0] && more[1..] == ls[1..] + [part];
    if |ls| == 1 {
      assert more[1..] == [part];
    } else {
      DottedSnoc(ls[1..], part);
    }
  }

  lemma BeforeSnoc(done: seq<Label>, part: Label, r: LabelsResult)
    ensures Prepended(done, Prepended([part], r)) == Prepended(done + [part], r)
  {
    if r.Labels? {
      assert done + ([part] + r.labels) == (done + [part]) + r.labels;
    }
  }

  /** How the loop extends its name. */
  lemma DottedGrows(ls: seq<Label>, part: Label)
    requires ValidLabels(ls) && ValidLabel(part)
    ensures ValidLabels(ls + [part])
    ensures Dotted(ls + [part]) == if Dotted(ls) == [] then part else Dotted(ls) + [DOT] + part
    ensures |Dotted(ls + [part])| == Longer(|Dotted(ls)|, |part|)
  {
    if ls == [] {
      assert ls + [part] == [part];
    } else {
      assert ValidLabel(ls[0]);
      DottedSnoc(ls, part);
    }
  }

  /** One round of the loop: a label moves from the input to the name. */
  lemma OneMore(payload: seq<byte>, offset: nat, done: seq<Label>, part: Label)
    requires ValidLabels(done) && FindLabel(payload, offset, |Dotted(done)|) == Take(part)
    ensures ValidLabels(done + [part])
    ensures Dotted(done + [part]) == if Dotted(done) == [] then part else Dotted(done) + [DOT] + part
    ensures Prepended(done, ParseLabels(payload, offset, |Dotted(done)|)) ==
            Prepended(done + [part], ParseLabels(payload, offset + 1 + |part|, |Dotted(done + [part])|))
  {
    DottedGrows(done, part);
    BeforeSnoc(done, part, ParseLabels(payload, offset + 1 + |part|, Longer(|Dotted(done)|, |part|)));
  }

  /** The checks of one round, in the order parseName makes them. */
  method ReadLabel(payload: seq<byte>, start: nat, used: nat) returns (found: Found)
    ensures found == FindLabel(payload, start, used)
  {
    var offset := start;
    if offset >= |payload| {
      return Stop(BadLabels(PastEnd));
    }
    var length := payload[offset] as nat;
    if length == 0 {
      return Stop(Labels([], offset + 1));
    }
    if length >= 64 {
      return Stop(BadLabels(Compressed));
    }
    offset := offset + 1;
    if offset + length > |payload| {
      return Stop(BadLabels(LabelPastEnd));
    }
    var nameLength := used + length;
    if used > 0 {
      nameLength := nameLength + 1;
    }
    if nameLength > MAX_NAME || !Visible(payload[offset..offset + length]) {
      return Stop(BadLabels(Unsupported));
    }
    return Take(payload[offset..offset + length]);
  }

  lemma NothingMore(done: seq<Label>, r: LabelsResult)
    requires r.Labels? ==> r.labels == []
    ensures NameOf(Prepended(done, r)) == if r.Labels? then Name(Dotted(done), r.end) else BadName(r.error)
  {
    assert done + [] == done;
  }

  /** parseName: one loop over offset and name. */
  method ParseName(payload: seq<byte>, start: nat) returns (r: NameResult)
    ensures r == NameOf(ParseLabels(payload, start, 0))
  {
    var name: seq<byte>, offset := [], start;
    ghost var done: seq<Label> := [];
    ghost var goal := ParseLabels(payload, start, 0);
    while true
      invariant ValidLabels(done) && name == Dotted(done)
      invariant goal == Prepended(done, ParseLabels(payload, offset, |name|))
      decreases |payload| - offset
    {
      var found := ReadLabel(payload, offset, |name|);
      if found.Stop? {
        NothingMore(done, found.result);
        return if found.result.Labels? then Name(name, found.result.end) else BadName(found.result.error);
      }
      OneMore(payload, offset, done, found.part);
      if name != [] {
        name := name + [DOT];
      }
      name := name + found.part;
      done := done + [found.part];
      offset := offset + 1 + |found.part|;
    }
  }

  // ---------- Parsing a message ----------

  datatype Message = Message(id: nat, response: bool, responseCode: nat, questionName: seq<byte>, questionType: nat)
  datatype ParseError = ShortHeader | BadQuestionName(error: NameError) | QuestionTruncated
  datatype ParseResult = Parsed(message: Message) | Unparsable(error: ParseError)

  const HEADER_BYTES := 12

  function U16(s: seq<byte>, i: nat): nat
    requires i + 2 <= |s|
  {
    s[i] as nat * 256 + s[i + 1] as nat
  }

  function Put16(n: nat): (s: seq<byte>)
    requires n < 0x1_0000
    ensures |s| == 2 && U16(s, 0) == n
  {
    [(n / 256) as byte, (n % 256) as byte]
  }

  function Parse(payload: seq<byte>): ParseResult {
    if |payload| < HEADER_BYTES then Unparsable(ShortHeader)
    else
      var flags := U16(payload, 2);
      var header := Message(U16(payload, 0), flags >= 0x8000, flags % 16, [], 0);
      if U16(payload, 4) == 0 then Parsed(header)
      else
        match NameOf(ParseLabels(payload, HEADER_BYTES, 0))
        case BadName(error) => Unparsable(BadQuestionName(error))
        case Name(name, offset) =>
          if offset + 4 > |payload| then Unparsable(QuestionTruncated)
          else Parsed(header.(questionName := name, questionType := U16(payload, offset)))
  }

  /** A datagram: header, first question, and whatever follows. */
  function Encoded(id: nat, flags: nat, questions: nat, counts: seq<byte>, ls: seq<Label>, qtype: nat, rest: seq<byte>): seq<byte>
    requires id < 0x1_0000 && flags < 0x1_0000 && questions < 0x1_0000 && qtype < 0x1_0000
    requires |counts| == 6 && ValidLabels(ls)
  {
    Put16(id) + Put16(flags) + Put16(questions) + counts + Wire(ls) + Put16(qtype) + rest
  }

  lemma HeaderReads(p: seq<byte>, id: nat, flags: nat, questions: nat, counts: seq<byte>, more: seq<byte>)
    requires id < 0x1_0000 && flags < 0x1_0000 && questions < 0x1_0000 && |counts| == 6
    requires p == Put16(id) + Put16(flags) + Put16(questions) + counts + more
    ensures U16(p, 0) == id && U16(p, 2) == flags && U16(p, 4) == questions
  {
  }

  /** Parse gives back the id, the flags' meaning, the name and the type of an encoded message; it
      needs the two class bytes after the type, and a name of at most 253 bytes. */
  lemma ParseInvertsEncoding(id: nat, flags: nat, questions: nat, counts: seq<byte>, ls: seq<Label>, qtype: nat, rest: seq<byte>)
    requires id < 0x1_0000 && flags < 0x1_0000 && 0 < questions < 0x1_0000 && qtype < 0x1_0000
    requires |counts| == 6 && ValidLabels(ls)
    ensures var p := Encoded(id, flags, questions, counts, ls, qtype, rest);
            Parse(p) ==
            if |Dotted(ls)| > MAX_NAME then Unparsable(BadQuestionName(Unsupported))
            else if |rest| < 2 then Unparsable(QuestionTruncated)
            else Parsed(Message(id, flags >= 0x8000, flags % 16, Dotted(ls), qtype))
  {
    var p := Encoded(id, flags, questions, counts, ls, qtype, rest);
    var head := Put16(id) + Put16(flags) + Put16(questions) + counts;
    var tail := Put16(qtype) + rest;
    assert p == head + (Wire(ls) + tail);
    HeaderReads(p, id, flags, questions, counts, Wire(ls) + tail);
    var end := HEADER_BYTES + |Wire(ls)|;
    assert p[HEADER_BYTES..end] == Wire(ls) && p[end..] == tail;
    if ls != [] {
      TotalIsDotted(0, ls);
    }
    EncodedLabelsParse(p, HEADER_BYTES, 0, ls);
    if |rest| >= 2 {
      assert p[end..][0] == tail[0] && p[end..][1] == tail[1];
    }
  }
}

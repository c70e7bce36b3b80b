/** Which datagrams parse as a DNS message, octet by octet (RFC 1035 sections 2.3.4 and 4.1.1). */
module DnsMessageExact {
  import opened Base
  import opened DnsMessages

  /** A label is 1 to 63 octets, each a visible ASCII character. */
  lemma LabelsExactly(l: Label)
    ensures ValidLabel(l) <==> 1 <= |l| <= 63 && forall i :: 0 <= i < |l| ==> '!' <= (l[i] as int) as char <= '~'
  {
  }

  /** The header in front: identifier, response bit, response code. */
  predicate HeaderIs(payload: seq<byte>, m: Message) {
    && |payload| >= 12
    && m.id == 256 * payload[0] as nat + payload[1] as nat
    && (m.response <==> payload[2] >= 128) && m.responseCode == payload[3] as nat % 16
  }

  /** The first question: a name in wire form, its type, and room for its class. */
  ghost predicate QuestionIs(payload: seq<byte>, m: Message) {
    exists ls, end: nat :: && Encodes(payload, 12, ls, m.questionName, end) && end + 4 <= |payload|
                      && m.questionType == 256 * payload[end] as nat + payload[end + 1] as nat
  }

  lemma HeaderReads(payload: seq<byte>)
    requires |payload| >= 12
    ensures U16(payload, 2) >= 0x8000 <==> payload[2] >= 128
    ensures U16(payload, 2) % 16 == payload[3] as nat % 16
    ensures U16(payload, 4) == 0 <==> payload[4] == 0 && payload[5] == 0
  {
  }

  /** A datagram parses to a message exactly if it has the header of that message and either no question, and
      then no name and type, or that name and type in its first one. */
  lemma ParsesExactly(payload: seq<byte>, m: Message)
    ensures Parse(payload) == Parsed(m) <==>
            && HeaderIs(payload, m)
            && if payload[4] == 0 && payload[5] == 0 then m.questionName == [] && m.questionType == 0 else QuestionIs(payload, m)
  {
    if |payload| >= 12 {
      HeaderReads(payload);
      var r := NameOf(ParseLabels(payload, 12, 0));
      forall ls, end: nat | Encodes(payload, 12, ls, m.questionName, end) ensures r == Name(m.questionName, end) {
        ParseNameExactly(payload, 12, m.questionName, end);
      }
      if r.Name? {
        ParseNameExactly(payload, 12, r.name, r.end);
      }
      hide ParseLabels, NameOf, Encodes;
      if r.Name? && r.name == m.questionName {
        var ls :| Encodes(payload, 12, ls, r.name, r.end);
      }
    }
  }
}

/** Three-way comparisons in the style of Go's cmp package: negative, zero or positive.

    A record is compared field by field, the first difference deciding (cmp.Or); an absent
    pointer comes before a present one. */
module Order {

  datatype Field = Number(n: int) | Text(text: string) | Missing | Record(fields: seq<Field>)

  function CompareInt(a: int, b: int): int {
    if a < b then -1 else if a > b then 1 else 0
  }

  /** Go's string comparison: element by element, a proper prefix first. */
  function CompareText(a: string, b: string): int {
    if a == [] && b == [] then 0
    else if a == [] then -1
    else if b == [] then 1
    else if a[0] != b[0] then CompareInt(a[0] as int, b[0] as int)
    else CompareText(a[1..], b[1..])
  }

  function Rank(f: Field): nat {
    match f case Number(_) => 0 case Text(_) => 1 case Missing => 2 case Record(_) => 3
  }

  function CompareField(a: Field, b: Field): int
    decreases a, 1
  {
    match (a, b)
    case (Number(m), Number(n)) => CompareInt(m, n)
    case (Text(s), Text(t)) => CompareText(s, t)
    case (Record(f), Record(g)) => CompareFields(f, g)
    case _ => CompareInt(Rank(a), Rank(b))
  }

  function CompareFields(a: seq<Field>, b: seq<Field>): int
    decreases a, 0
  {
    if a == [] && b == [] then 0
    else if a == [] then -1
    else if b == [] then 1
    else
      var c := CompareField(a[0], b[0]);
      if c != 0 then c else CompareFields(a[1..], b[1..])
  }

  /** How the results for (a,b), (b,c) and (a,c) hang together in a total order. */
  predicate Chain(ab: int, bc: int, ac: int) {
    ab <= 0 && bc <= 0 ==> ac <= 0 && (ac == 0 <==> ab == 0 && bc == 0)
  }

  /** String comparison is a total order. */
  lemma {:induction false} TextOrder(a: string, b: string, c: string)
    ensures CompareText(b, a) == -CompareText(a, b)
    ensures CompareText(a, b) == 0 <==> a == b
    ensures Chain(CompareText(a, b), CompareText(b, c), CompareText(a, c))
    decreases |a| + |b| + |c|
  {
    if a != [] && b != [] {
      assert a == [a[0]] + a[1..] && b == [b[0]] + b[1..];
      TextOrder(a[1..], b[1..], if c == [] then [] else c[1..]);
    }
  }

  /** Field comparison is a total order, and so is comparison of records. */
  lemma {:induction false} FieldOrder(a: Field, b: Field, c: Field)
    ensures CompareField(b, a) == -CompareField(a, b)
    ensures CompareField(a, b) == 0 <==> a == b
    ensures Chain(CompareField(a, b), CompareField(b, c), CompareField(a, c))
    decreases a, 1
  {
    if a.Text? && b.Text? {
      TextOrder(a.text, b.text, if c.Text? then c.text else []);
    } else if a.Record? && b.Record? {
      FieldsOrder(a.fields, b.fields, if c.Record? then c.fields else []);
    }
  }

  lemma {:induction false} FieldsOrder(a: seq<Field>, b: seq<Field>, c: seq<Field>)
    ensures CompareFields(b, a) == -CompareFields(a, b)
    ensures CompareFields(a, b) == 0 <==> a == b
    ensures Chain(CompareFields(a, b), CompareFields(b, c), CompareFields(a, c))
    decreases a, 0
  {
    if a != [] && b != [] {
      FieldOrder(a[0], b[0], if c == [] then Missing else c[0]);
      FieldsOrder(a[1..], b[1..], if c == [] then [] else c[1..]);
      assert a == [a[0]] + a[1..] && b == [b[0]] + b[1..];
    }
  }
}

/** What exactly is recognized of an HTTP/1 message: lines, targets, statuses and pipelined requests. */
module Http1Exact {
  import opened Base
  import opened Http1

  // ---------- Lines ----------

  predicate Occurs(s: Text, part: Text, i: int) {
    0 <= i <= |s| - |part| && s[i..i + |part|] == part
  }

  lemma OccursBehind(s: Text, part: Text, j: nat)
    requires j > 0 && s != []
    ensures Occurs(s, part, j) <==> Occurs(s[1..], part, j - 1)
  {
    if j <= |s| - |part| {
      var x, y := s[j..j + |part|], s[1..][j - 1..j - 1 + |part|];
      assert |x| == |y| && forall i :: 0 <= i < |x| ==> x[i] == y[i];
    }
  }

  /** A part is found exactly where it first occurs. */
  lemma {:induction false} IndexOfExactly(s: Text, part: Text)
    ensures match IndexOf(s, part)
            case Some(n) => Occurs(s, part, n) && forall j: nat :: j < n ==> !Occurs(s, part, j)
            case None => forall j: nat :: !Occurs(s, part, j)
    decreases |s|
  {
    if |s| >= |part| && s[..|part|] != part && s != [] {
      IndexOfExactly(s[1..], part);
      forall j: nat | j > 0 ensures Occurs(s, part, j) <==> Occurs(s[1..], part, j - 1) {
        OccursBehind(s, part, j);
      }
      assert !Occurs(s, part, 0);
    }
  }

  /** The first line is what stands before the first line break, or everything. */
  lemma FirstLineExactly(payload: Text, line: Text)
    ensures FirstLine(payload) == line <==>
            && (line == payload || (line <= payload && Occurs(payload, CRLF, |line|)))
            && forall j: nat :: j < |line| ==> !Occurs(payload, CRLF, j)
  {
    IndexOfExactly(payload, CRLF);
    if IndexOf(payload, CRLF).Some? {
      var n := IndexOf(payload, CRLF).value;
      assert |payload[..n]| == n;
    }
  }

  /** Another request is seen behind a message exactly if one begins behind its first blank line. */
  lemma PipelinedExactly(payload: Text, maxPath: nat)
    ensures Pipelined(payload, maxPath) <==>
            exists n: nat :: && Occurs(payload, HEADER_END, n) && (forall j: nat :: j < n ==> !Occurs(payload, HEADER_END, j))
                             && ParseRequest(payload[n + 4..], maxPath).Some?
  {
    IndexOfExactly(payload, HEADER_END);
    hide ParseRequest;
  }

  /** The methods that are recognized. */
  lemma MethodsExactly(m: Text)
    ensures IsMethod(m) <==>
            || m == Ascii("GET") || m == Ascii("HEAD") || m == Ascii("POST") || m == Ascii("PUT") || m == Ascii("DELETE")
            || m == Ascii("CONNECT") || m == Ascii("OPTIONS") || m == Ascii("TRACE") || m == Ascii("PATCH")
  {
    hide Ascii;
  }

  // ---------- Targets ----------

  /** The path is the target up to its query, cut to the limit. */
  lemma PathExactly(target: Text, maxPath: nat, path: Text)
    ensures PathOf(target, maxPath) == path <==>
            exists whole: Text :: && Lacks(whole, QUESTION) && (whole == target || whole + [QUESTION] <= target)
                                  && path == (if |whole| > maxPath then whole[..maxPath] else whole)
  {
    var found := target[..Find(target, QUESTION)];
    assert Lacks(found, QUESTION) && (found == target || found + [QUESTION] <= target);
    forall whole: Text | Lacks(whole, QUESTION) && (whole == target || whole + [QUESTION] <= target) ensures whole == found {
      if whole != target {
        assert target[|whole|] == (whole + [QUESTION])[|whole|];
        assert forall i :: 0 <= i < |whole| ==> target[i] == (whole + [QUESTION])[i] == whole[i];
      }
    }
  }

  // ---------- Statuses ----------

  function Numeral(n: nat): byte
    requires n < 10
  {
    (48 + n) as byte
  }

  /** The three decimal digits of a status. */
  function ThreeDigits(n: nat): Text
    requires 100 <= n <= 599
  {
    [Numeral(n / 100), Numeral(n / 10 % 10), Numeral(n % 10)]
  }

  lemma DecimalSnoc(s: Text, b: byte)
    ensures DecimalValue(s + [b]) == 10 * DecimalValue(s) + (b as int % 16)
  {
    assert (s + [b])[..|s|] == s;
  }

  lemma {:induction false} ZerosAreNothing(k: nat)
    ensures DecimalValue(Repeat(48, k)) == 0
    decreases k
  {
    if k > 0 {
      ZerosAreNothing(k - 1);
      assert Repeat(48 as byte, k)[..k - 1] == Repeat(48, k - 1);
    }
  }

  /** Appending three digits of value x, y and z. */
  lemma ThreeMore(front: Text, a: byte, b: byte, c: byte)
    requires IsDigit(a) && IsDigit(b) && IsDigit(c)
    ensures DecimalValue(front + [a, b, c])
            == 1000 * DecimalValue(front) + 100 * (a as int - 48) + 10 * (b as int - 48) + (c as int - 48)
  {
    hide DecimalValue;
    DecimalSnoc(front, a);
    DecimalSnoc(front + [a], b);
    DecimalSnoc(front + [a] + [b], c);
    assert front + [a, b, c] == front + [a] + [b] + [c];
  }

  lemma NumeralsOf(n: nat, x: nat, y: nat, z: nat)
    requires 100 <= n <= 599 && n == 100 * x + 10 * y + z && x < 10 && y < 10 && z < 10
    ensures n / 100 == x && n / 10 % 10 == y && n % 10 == z
  {
    assert n / 10 == 10 * x + y;
  }

  lemma StatusOfDigits(k: nat, n: nat)
    requires 100 <= n <= 599
    ensures Status(Repeat(48, k) + ThreeDigits(n)) == Some(n)
  {
    var zeros, x, y, z := Repeat(48 as byte, k), n / 100, n / 10 % 10, n % 10;
    assert n == 100 * x + 10 * y + z;
    ZerosAreNothing(k);
    ThreeMore(zeros, Numeral(x), Numeral(y), Numeral(z));
    hide DecimalValue;
    assert forall i :: 0 <= i < |zeros + ThreeDigits(n)| ==> IsDigit((zeros + ThreeDigits(n))[i]);
  }

  lemma {:induction false} ValueNothing(s: Text)
    requires (forall i :: 0 <= i < |s| ==> IsDigit(s[i])) && DecimalValue(s) == 0
    ensures s == Repeat(48, |s|)
    decreases |s|
  {
    if s != [] {
      ValueNothing(s[..|s| - 1]);
      assert s == s[..|s| - 1] + [s[|s| - 1]];
    }
  }

  lemma DigitsOfStatus(s: Text, n: nat)
    requires Status(s) == Some(n)
    ensures |s| >= 3 && s == Repeat(48, |s| - 3) + ThreeDigits(n)
  {
    if |s| < 3 {
      ShortIsSmall(s);
    } else {
      var m := |s| - 3;
      var front, a, b, c := s[..m], s[m], s[m + 1], s[m + 2];
      assert s == front + [a, b, c];
      assert IsDigit(a) && IsDigit(b) && IsDigit(c);
      ThreeMore(front, a, b, c);
      hide DecimalValue;
      assert DecimalValue(front) == 0;
      ValueNothing(front);
      NumeralsOf(n, a as int - 48, b as int - 48, c as int - 48);
    }
  }

  lemma ShortIsSmall(s: Text)
    requires (forall i :: 0 <= i < |s| ==> IsDigit(s[i])) && |s| < 3
    ensures DecimalValue(s) < 100
  {
    assert DecimalValue([]) == 0;
    hide DecimalValue;
    if |s| == 2 {
      assert IsDigit(s[0]) && IsDigit(s[1]) && s == [] + [s[0]] + [s[1]];
      DecimalSnoc([], s[0]);
      DecimalSnoc([] + [s[0]], s[1]);
    } else if |s| == 1 {
      assert IsDigit(s[0]) && s == [] + [s[0]];
      DecimalSnoc([], s[0]);
    }
  }

  /** A field is a status exactly if it is the decimal form of one from 100 to 599, zeros in front allowed. */
  lemma StatusExactly(s: Text, n: nat)
    ensures Status(s) == Some(n) <==> 100 <= n <= 599 && exists k: nat :: s == Repeat(48, k) + ThreeDigits(n)
  {
    hide Status;
    if Status(s) == Some(n) {
      assert 100 <= n <= 599 by {
        InRange(s);
      }
      DigitsOfStatus(s, n);
    }
    if 100 <= n <= 599 {
      if k: nat :| s == Repeat(48, k) + ThreeDigits(n) {
        StatusOfDigits(k, n);
      }
    }
  }

  lemma InRange(s: Text)
    ensures Status(s).Some? ==> 100 <= Status(s).value <= 599
  {
  }

  /** The line is a status line: a version of HTTP/1, a space, three digits, and nothing or a space more. */
  predicate IsStatusLine(line: Text, version: Text, n: nat, rest: Text)
    requires 100 <= n <= 599
  {
    && line == Ascii("HTTP/1.") + version + [SPACE] + ThreeDigits(n) + rest
    && Lacks(version, SPACE) && (rest == [] || rest[0] == SPACE)
  }

  lemma PrefixLacks()
    ensures Lacks(Ascii("HTTP/1."), SPACE)
  {
  }

  lemma DigitsLack(n: nat)
    requires 100 <= n <= 599
    ensures Lacks(ThreeDigits(n), SPACE) && |ThreeDigits(n)| == 3
  {
  }

  lemma LineHasStatus(payload: Text, version: Text, n: nat, rest: Text)
    requires 100 <= n <= 599 && IsStatusLine(FirstLine(payload), version, n, rest)
    ensures ParseResponse(payload) == Some(n)
  {
    var line, http, digits := FirstLine(payload), Ascii("HTTP/1.") + version, ThreeDigits(n);
    PrefixLacks();
    DigitsLack(n);
    assert Lacks(http, SPACE);
    assert line == http + [SPACE] + (digits + rest);
    PartsOfTwo(http, digits, rest);
    assert Repeat(48 as byte, 0) + digits == digits;
    StatusOfDigits(0, n);
    hide FirstLine, Status, Parts, ThreeDigits, Ascii;
  }

  lemma PartsOfTwo(a: Text, b: Text, rest: Text)
    requires Lacks(a, SPACE) && Lacks(b, SPACE) && (rest == [] || rest[0] == SPACE)
    ensures var p := Parts(a + [SPACE] + (b + rest)); |p| >= 2 && p[0] == a && p[1] == b
  {
    FindAfter(a, SPACE, b + rest);
    if rest == [] {
      assert b + rest == b && Find(b, SPACE) == |b|;
    } else {
      assert b + rest == b + [SPACE] + rest[1..];
      FindAfter(b, SPACE, rest[1..]);
    }
    hide Find;
  }

  lemma CutAtSpace(s: Text)
    ensures var n := Find(s, SPACE);
            && s == s[..n] + s[n..] && Lacks(s[..n], SPACE) && (s[n..] == [] || s[n] == SPACE)
  {
  }

  lemma TwoParts(line: Text) returns (rest: Text)
    requires |Parts(line)| >= 2
    ensures var p := Parts(line);
            && Lacks(p[0], SPACE) && Lacks(p[1], SPACE)
            && line == p[0] + [SPACE] + (p[1] + rest) && (rest == [] || rest[0] == SPACE)
  {
    var i := Find(line, SPACE);
    var behind := line[i + 1..];
    var k := Find(behind, SPACE);
    rest := behind[k..];
    CutAtSpace(line);
    CutAtSpace(behind);
    SplitAt(line, i);
    PartsAre(line);
    hide Find, Lacks, Parts;
  }

  lemma PartsAre(line: Text)
    requires |Parts(line)| >= 2
    ensures var i := Find(line, SPACE);
            i < |line| && Parts(line)[0] == line[..i] && var behind := line[i + 1..]; Parts(line)[1] == behind[..Find(behind, SPACE)]
  {
    hide Find;
  }

  lemma LacksBehind(s: Text, n: nat, b: byte)
    requires n <= |s| && Lacks(s, b)
    ensures Lacks(s[n..], b)
  {
  }

  lemma Fivefold(a: Text, b: Text, c: Text, d: Text, e: Text)
    ensures (a + b) + c + (d + e) == a + b + c + d + e
  {
  }

  lemma StatusHasLine(payload: Text, n: nat)
    requires ParseResponse(payload) == Some(n)
    ensures 100 <= n <= 599 && exists version, rest :: IsStatusLine(FirstLine(payload), version, n, rest)
  {
    var line, http := FirstLine(payload), Ascii("HTTP/1.");
    var p := Parts(line);
    InRange(p[1]);
    DigitsOfStatus(p[1], n);
    assert Repeat(48 as byte, 0) + ThreeDigits(n) == ThreeDigits(n);
    var rest := TwoParts(line);
    hide FirstLine, Status, ThreeDigits, Ascii, Parts, Find;
    var version := p[0][|http|..];
    assert p[0] == http + version;
    Fivefold(http, version, [SPACE], p[1], rest);
    LacksBehind(p[0], |http|, SPACE);
    hide Lacks;
    assert IsStatusLine(line, version, n, rest);
  }

  /** A payload parses as a response of status n exactly if its first line is a status line of n. */
  lemma ResponseExactly(payload: Text, n: nat)
    ensures ParseResponse(payload) == Some(n) <==>
            100 <= n <= 599 && exists version, rest :: IsStatusLine(FirstLine(payload), version, n, rest)
  {
    hide ParseResponse, FirstLine, IsStatusLine;
    if ParseResponse(payload) == Some(n) {
      StatusHasLine(payload, n);
    }
    if 100 <= n <= 599 {
      if version, rest :| IsStatusLine(FirstLine(payload), version, n, rest) {
        LineHasStatus(payload, version, n, rest);
      }
    }
  }
}

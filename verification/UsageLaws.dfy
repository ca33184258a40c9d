/** What the two readers of usage count, said of the bytes themselves. */
module UsageLaws {

  import opened Common
  import opened UsageScanner

  // ---- stripping and lines ---------------------------------------------------------------------------------

  /** The bytes `bytes.strip` takes off: tab, line feed, vertical tab, form feed, carriage return and space. */
  predicate AllWhite(s: Bytes) {
    forall b | b in s :: b in {9, 10, 11, 12, 13, 32}
  }

  lemma {:induction false} StripLeftIs(s: Bytes) returns (a: Bytes)
    ensures s == a + StripLeft(s) && AllWhite(a)
    ensures StripLeft(s) != [] ==> !AllWhite(StripLeft(s)[..1])
  {
    a := [];
    if s != [] && IsSpace(s[0]) {
      a := StripLeftIs(s[1..]);
      assert s == [s[0]] + s[1..];
      a := [s[0]] + a;
      assert s == a + StripLeft(s);
    } else if s != [] {
      assert s[0] in s[..1];
    }
  }

  lemma {:induction false} StripRightIs(s: Bytes) returns (b: Bytes)
    ensures s == StripRight(s) + b && AllWhite(b)
    ensures StripRight(s) != [] ==> !AllWhite(StripRight(s)[|StripRight(s)| - 1..])
  {
    b := [];
    if s != [] && IsSpace(s[|s| - 1]) {
      b := StripRightIs(s[..|s| - 1]);
      assert s == s[..|s| - 1] + [s[|s| - 1]];
      b := b + [s[|s| - 1]];
      assert s == StripRight(s) + b;
    } else if s != [] {
      assert s[|s| - 1] in s[|s| - 1..];
    }
  }

  /** White space goes at both ends and nothing else: what is left neither begins nor ends with any. */
  lemma StripIs(s: Bytes) returns (a: Bytes, b: Bytes)
    ensures s == a + Strip(s) + b && AllWhite(a) && AllWhite(b)
    ensures Strip(s) != [] ==> !AllWhite(Strip(s)[..1]) && !AllWhite(Strip(s)[|Strip(s)| - 1..])
  {
    hide StripLeft, StripRight, AllWhite;
    var left := StripLeft(s);
    a := StripLeftIs(s);
    b := StripRightIs(left);
    assert s == a + (Strip(s) + b) == a + Strip(s) + b;
    if Strip(s) != [] {
      assert left[..1] == Strip(s)[..1];
    }
  }

  /** The lines of a body, the unfinished one last. */
  function AllLines(data: Bytes): seq<Bytes> {
    Lines(data) + [Tail(data)]
  }

  function JoinLF(lines: seq<Bytes>): Bytes
    requires lines != []
  {
    if |lines| == 1 then lines[0] else lines[0] + [10] + JoinLF(lines[1..])
  }

  /** Put back together with line feeds the lines are the body, and none has a line feed inside. */
  lemma {:induction false} LinesAreSplit(data: Bytes)
    ensures JoinLF(AllLines(data)) == data && forall l | l in AllLines(data) :: (10 as Byte) !in l
    decreases |data|
  {
    FirstLFStands(data);
    var i := FirstLF(data);
    if i < |data| {
      LinesAreSplit(data[i + 1..]);
      assert AllLines(data) == [data[..i]] + AllLines(data[i + 1..]);
      assert AllLines(data)[1..] == AllLines(data[i + 1..]);
      assert data == data[..i] + [10] + data[i + 1..];
    } else {
      assert data[..i] == data;
    }
  }

  // ---- totals ----------------------------------------------------------------------------------------------

  const DATA_COLON: Bytes := [100, 97, 116, 97, 58, 32]
  const DATA_DONE: Bytes := [100, 97, 116, 97, 58, 32, 91, 68, 79, 78, 69, 93]

  /** The line reads `data: ` and a document that reports `n`; the end marker is not read. */
  predicate LineReports(read: Reader, line: Bytes, n: int) {
    DATA_COLON <= Strip(line) && Strip(line) != DATA_DONE && read(Strip(line)[6..]) == Some(n)
  }

  /** The body is an object that reports `n`. */
  predicate ObjectReports(read: Reader, data: Bytes, n: int) {
    Strip(data) != [] && Strip(data)[0] == 0x7B && read(Strip(data)) == Some(n)
  }

  predicate Reports(read: Reader, data: Bytes, n: int) {
    ObjectReports(read, data, n) || exists l :: l in AllLines(data) && LineReports(read, l, n)
  }

  lemma {:induction false} InTotals(read: Reader, documents: seq<Bytes>, n: int)
    ensures n in Totals(read, documents) <==> exists d :: d in documents && read(d) == Some(n)
  {
    if documents != [] {
      var front, last := documents[..|documents| - 1], documents[|documents| - 1];
      InTotals(read, front, n);
      assert documents == front + [last];
      assert forall d | d in front :: d in documents;
    }
  }

  lemma {:induction false} InPayloads(lines: seq<Bytes>, document: Bytes)
    ensures document in Payloads(lines) <==> exists l :: l in lines && Payload(l) == Some(document)
  {
    hide Payload;
    if lines != [] {
      var front, last := lines[..|lines| - 1], lines[|lines| - 1];
      InPayloads(front, document);
      assert lines == front + [last];
      assert forall l | l in front :: l in lines;
    }
  }

  lemma LineReportsPayload(read: Reader, line: Bytes, n: int)
    ensures LineReports(read, line, n) <==> Payload(line).Some? && read(Payload(line).value) == Some(n)
  {
    hide Strip;
    assert DATA == DATA_COLON && DONE == DATA_DONE;
  }

  lemma ReportsAreTotals(read: Reader, data: Bytes, n: int)
    ensures Reports(read, data, n) <==> n in Totals(read, Documents(data))
  {
    hide Strip, Payload, Totals, Payloads, Lines, Tail, LineReports;
    InTotals(read, Documents(data), n);
    var lines := AllLines(data);
    assert ObjectReports(read, data, n) <==> exists d :: d in Whole(data) && read(d) == Some(n) by {
      assert [BRACE] <= Strip(data) <==> Strip(data) != [] && Strip(data)[0] == 0x7B;
      if [BRACE] <= Strip(data) {
        assert Strip(data) in Whole(data);
      }
    }
    assert (exists l :: l in lines && LineReports(read, l, n))
           <==> exists d :: d in Payloads(lines) && read(d) == Some(n) by {
      if l :| l in lines && LineReports(read, l, n) {
        LineReportsPayload(read, l, n);
        InPayloads(lines, Payload(l).value);
      }
      if d :| d in Payloads(lines) && read(d) == Some(n) {
        InPayloads(lines, d);
        var l :| l in lines && Payload(l) == Some(d);
        LineReportsPayload(read, l, n);
      }
    }
    assert forall d | d in Documents(data) :: d in Whole(data) || d in Payloads(lines);
    assert forall d | d in Whole(data) || d in Payloads(lines) :: d in Documents(data);
  }

  /** The extractor returns the greatest total reported by the body itself or by a line, and 0 if there is none above
      it. */
  lemma ExtractedIsGreatest(read: Reader, data: Bytes)
    ensures Extracted(read, data) >= 0
    ensures forall n | Reports(read, data, n) :: n <= Extracted(read, data)
    ensures Extracted(read, data) == 0 || Reports(read, data, Extracted(read, data))
  {
    hide Reports, Totals, Documents;
    GreatestIs(Totals(read, Documents(data)));
    forall n | Reports(read, data, n) ensures n <= Extracted(read, data) {
      ReportsAreTotals(read, data, n);
    }
    ReportsAreTotals(read, data, Extracted(read, data));
  }

  /** A plain JSON body, which has no `data: ` line, counts for what it reports. */
  lemma ObjectBodyCounts(read: Reader, data: Bytes, n: int)
    requires ObjectReports(read, data, n) && forall l | l in AllLines(data) :: !(DATA_COLON <= Strip(l))
    ensures Extracted(read, data) == if n > 0 then n else 0
  {
    hide Strip;
    ExtractedIsGreatest(read, data);
    assert Reports(read, data, n);
  }

  // ---- the scanner -----------------------------------------------------------------------------------------

  /** The i-th line is the last that reports anything. */
  ghost predicate LastReport(read: Reader, lines: seq<Bytes>, i: nat, n: int) {
    && i < |lines| && LineReports(read, lines[i], n)
    && forall j, m :: i < j < |lines| ==> !LineReports(read, lines[j], m)
  }

  /** The scan ends with the total of the last line that reports one, and with 0 and no flag if none does. */
  lemma {:induction false} ScanIsLastReport(read: Reader, lines: seq<Bytes>) returns (i: nat)
    ensures var scan := ScanLines(read, FRESH, lines);
            if scan.seen then LastReport(read, lines, i, scan.best)
            else scan.best == 0 && forall j, m :: 0 <= j < |lines| ==> !LineReports(read, lines[j], m)
  {
    hide LineReports, Payload;
    i := 0;
    if lines != [] {
      var front, k := lines[..|lines| - 1], |lines| - 1;
      i := ScanIsLastReport(read, front);
      assert forall j | 0 <= j < k :: front[j] == lines[j];
      forall m ensures LineReports(read, lines[k], m) <==> LineTotal(read, lines[k]) == Some(m) {
        LineReportsPayload(read, lines[k], m);
      }
      if LineTotal(read, lines[k]).Some? {
        i := k;
      }
    }
  }

  /** What the relay leaves: the scan of the finished lines, and for a body the client had loaded at once no less than
      anything that body reports. */
  lemma FinalIs(read: Reader, counted: Scan, end: BodyEnd)
    ensures !end.Consumed? ==> Final(read, counted, end) == counted
    ensures end.Consumed? ==>
              var final := Final(read, counted, end);
              && final.best >= counted.best && final.best >= 0
              && (forall n | Reports(read, end.content, n) :: n <= final.best)
              && (final.best in {counted.best, 0} || Reports(read, end.content, final.best))
              && (final.seen <==> counted.seen || final.best > 0)
  {
    hide Reports, Extracted;
    if end.Consumed? {
      ExtractedIsGreatest(read, end.content);
    }
  }

  /** Whatever the body, an object, finished or not: the two readers count the same exactly when the scanner's count is
      not negative and nothing the body reports exceeds it. */
  lemma ReadersAgreeExactly(read: Reader, data: Bytes)
    ensures var counted := ScanLines(read, FRESH, Lines(data)).best;
            Extracted(read, data) == counted
            <==> counted >= 0 && forall n | Reports(read, data, n) :: n <= counted
  {
    hide Extracted, ScanLines, Lines, LineReports, ObjectReports;
    ExtractedIsGreatest(read, data);
    var i := ScanIsLastReport(read, Lines(data));
    var scan := ScanLines(read, FRESH, Lines(data));
    if scan.seen {
      assert Lines(data)[i] in AllLines(data);
      assert Reports(read, data, scan.best);
    }
  }
}

/** When the streaming scanner, where the last total wins, and the extractor, where the greatest does, count the
    same. */
module UsageAgreement {

  import opened Common
  import opened UsageScanner

  function Last(ns: seq<int>): int {
    if ns == [] then 0 else ns[|ns| - 1]
  }

  /** The totals reported by the finished lines of `data`, in order. */
  function Reported(read: Reader, data: Bytes): seq<int> {
    Totals(read, Payloads(Lines(data)))
  }

  lemma TotalsOfMore(read: Reader, documents: seq<Bytes>, document: Bytes)
    ensures Totals(read, documents + [document]) ==
            Totals(read, documents) + match read(document) { case None => [] case Some(n) => [n] }
  {
    assert (documents + [document])[..|documents|] == documents;
  }

  lemma {:induction false} ScanKeepsLast(read: Reader, lines: seq<Bytes>)
    ensures var ns := Totals(read, Payloads(lines));
            ScanLines(read, FRESH, lines) == Scan(Last(ns), ns != [])
  {
    if lines != [] {
      var before, line := lines[..|lines| - 1], lines[|lines| - 1];
      ScanKeepsLast(read, before);
      match Payload(line) {
        case None => assert Payloads(before) + [] == Payloads(before);
        case Some(document) =>
          TotalsOfMore(read, Payloads(before), document);
      }
    }
  }

  lemma {:induction false} FinishedBody(data: Bytes)
    requires data != [] && data[|data| - 1] == LF
    ensures Tail(data) == []
    decreases |data|
  {
    var i := FirstLF(data);
    FirstLFStands(data);
    assert data[|data| - 1] in data;
    if i < |data| - 1 {
      FinishedBody(data[i + 1..]);
    }
  }

  lemma DocumentsOfFinishedBody(data: Bytes)
    requires data == [] || data[|data| - 1] == LF
    requires !([BRACE] <= Strip(data))
    ensures Documents(data) == Payloads(Lines(data))
  {
    if data != [] {
      FinishedBody(data);
    }
    var lines := Lines(data);
    assert (lines + [[]])[..|lines|] == lines;
    assert Payload([]) == None;
    assert Payloads(lines) + [] == Payloads(lines);
  }

  /** On a newline-terminated body that is not itself an object, the two counts agree exactly when no total exceeds
      the last one and the last one is not negative. */
  lemma ExtractorsAgreeExactly(read: Reader, data: Bytes)
    requires data == [] || data[|data| - 1] == LF
    requires !([BRACE] <= Strip(data))
    ensures var ns := Reported(read, data);
            Extracted(read, data) == ScanLines(read, FRESH, Lines(data)).best
            <==> ns == [] || (Last(ns) >= 0 && forall n | n in ns :: n <= Last(ns))
  {
    hide Totals, Payloads, Lines, Strip, ScanLines, Documents;
    DocumentsOfFinishedBody(data);
    ScanKeepsLast(read, Lines(data));
    var ns := Reported(read, data);
    GreatestIs(ns);
    assert ns != [] ==> Last(ns) in ns;
  }

  predicate Growing(ns: seq<int>) {
    (forall n | n in ns :: n >= 0) && forall i, j | 0 <= i < j < |ns| :: ns[i] <= ns[j]
  }

  lemma GrowingEndsGreatest(ns: seq<int>)
    requires Growing(ns)
    ensures ns == [] || (Last(ns) >= 0 && forall n | n in ns :: n <= Last(ns))
  {
    if ns != [] {
      assert Last(ns) in ns;
      forall n | n in ns ensures n <= Last(ns) {
        var i :| 0 <= i < |ns| && ns[i] == n;
      }
    }
  }

  /** In particular for totals that never decrease, however the body is cut into chunks. */
  lemma ExtractorsAgreeOnGrowingTotals(read: Reader, chunks: seq<Bytes>)
    requires var data := Concat(chunks); data == [] || data[|data| - 1] == LF
    requires !([BRACE] <= Strip(Concat(chunks))) && Growing(Reported(read, Concat(chunks)))
    ensures Extracted(read, Concat(chunks)) == Fed(read, chunks).0.best
  {
    FedIsCounted(read, chunks);
    GrowingEndsGreatest(Reported(read, Concat(chunks)));
    ExtractorsAgreeExactly(read, Concat(chunks));
  }

  // ---- a body on which they differ ----------------------------------------------------------------------

  /** The line `data: ` and one byte. */
  function ShortLine(b: Byte): Bytes {
    DATA + [b]
  }

  lemma ShortLinePayload(b: Byte)
    requires !IsSpace(b)
    ensures Payload(ShortLine(b)) == Some([b])
  {
    var line := ShortLine(b);
    assert StripLeft(line) == line && StripRight(line) == line;
    assert line[6..] == [b];
  }

  lemma ShortLines(a: Byte, b: Byte)
    requires a != LF && b != LF
    ensures var body := ShortLine(a) + [LF] + (ShortLine(b) + [LF]);
            Lines(body) == [ShortLine(a), ShortLine(b)]
  {
    var second := ShortLine(b) + [LF];
    var body := ShortLine(a) + [LF] + second;
    assert body[..7] == ShortLine(a) && body[8..] == second && second[..7] == ShortLine(b) && second[8..] == [];
    NextLine(body, 7);
    NextLine(second, 7);
    Unfinished([]);
  }

  lemma {:induction false} StripRightKeepsFirst(s: Bytes)
    requires s != [] && !IsSpace(s[0])
    ensures StripRight(s) != [] && StripRight(s)[0] == s[0]
    decreases |s|
  {
    if IsSpace(s[|s| - 1]) {
      StripRightKeepsFirst(s[..|s| - 1]);
    }
  }

  /** Two lines with a falling total: the scanner counts the last, the extractor the first. */
  lemma ExtractorsDiffer(read: Reader, a: Byte, b: Byte, m: int, n: int)
    requires !IsSpace(a) && !IsSpace(b) && read([a]) == Some(m) && read([b]) == Some(n) && m > n >= 0
    ensures var body := ShortLine(a) + [LF] + (ShortLine(b) + [LF]);
            Extracted(read, body) == m && ScanLines(read, FRESH, Lines(body)).best == n
  {
    var body := ShortLine(a) + [LF] + (ShortLine(b) + [LF]);
    ShortLines(a, b);
    ShortLinePayload(a);
    ShortLinePayload(b);
    assert StripLeft(body) == body;
    StripRightKeepsFirst(body);
    DocumentsOfFinishedBody(body);
    var lines := [ShortLine(a), ShortLine(b)];
    assert Payloads(lines) == [[a], [b]] by {
      assert lines[..1] == [ShortLine(a)] && [ShortLine(a)][..0] == [];
      assert Payloads([ShortLine(a)]) == [[a]];
    }
    assert Totals(read, [[a], [b]]) == [m, n] by {
      TotalsOfMore(read, [], [a]);
      TotalsOfMore(read, [[a]], [b]);
    }
    assert Greatest([m, n]) == m by {
      assert [m, n][..1] == [m] && [m][..0] == [];
      assert Greatest([m]) == m;
    }
    ScanKeepsLast(read, lines);
  }

  /** A reader and a body on which the two counts are 2 and 1. */
  lemma SomeBodyIsCountedTwice() returns (read: Reader, body: Bytes)
    ensures Extracted(read, body) == 2 && ScanLines(read, FRESH, Lines(body)).best == 1
  {
    read := document => if document == [0x32] then Some(2) else if document == [0x31] then Some(1) else None;
    body := ShortLine(0x32) + [LF] + (ShortLine(0x31) + [LF]);
    ExtractorsDiffer(read, 0x32, 0x31, 2, 1);
  }
}

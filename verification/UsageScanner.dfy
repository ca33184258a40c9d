/** The proxy's two readers of token usage: the streaming line scanner and the whole-body extractor. */
module UsageScanner {

  import opened Common

  newtype Byte = x: int | 0 <= x < 256
  type Bytes = seq<Byte>

  const LF: Byte := 10
  const BRACE: Byte := 0x7B
  const DATA: Bytes := [0x64, 0x61, 0x74, 0x61, 0x3A, 0x20]
  const DONE: Bytes := DATA + [0x5B, 0x44, 0x4F, 0x4E, 0x45, 0x5D]

  /** What one JSON document reports as `usage.total_tokens`, None when it reports nothing readable as an int. */
  type Reader = Bytes -> Option<int>

  predicate IsSpace(b: Byte) {
    b in {9, 10, 11, 12, 13, 32}
  }

  function StripLeft(s: Bytes): Bytes {
    if s != [] && IsSpace(s[0]) then StripLeft(s[1..]) else s
  }

  function StripRight(s: Bytes): Bytes {
    if s != [] && IsSpace(s[|s| - 1]) then StripRight(s[..|s| - 1]) else s
  }

  function Strip(s: Bytes): Bytes {
    StripRight(StripLeft(s))
  }

  /** The document a stripped line carries: `data: ` and then anything but the end marker. */
  function Payload(line: Bytes): Option<Bytes> {
    var ln := Strip(line);
    if DATA <= ln && ln != DONE then Some(ln[6..]) else None
  }

  function LineTotal(read: Reader, line: Bytes): Option<int> {
    match Payload(line)
    case None => None
    case Some(doc) => read(doc)
  }

  // ---- lines of a byte stream ---------------------------------------------------------------------------

  /** Where the first line feed of `s` is, or the length of `s`. */
  function FirstLF(s: Bytes): (i: nat)
    ensures i <= |s|
  {
    if s == [] || s[0] == LF then 0 else 1 + FirstLF(s[1..])
  }

  lemma {:induction false} FirstLFStands(s: Bytes)
    ensures LF !in s[..FirstLF(s)] && (FirstLF(s) < |s| <==> LF in s)
    ensures FirstLF(s) < |s| ==> s[FirstLF(s)] == LF
  {
    if s != [] && s[0] != LF {
      FirstLFStands(s[1..]);
      var i := FirstLF(s);
      assert s[..i] == [s[0]] + s[1..][..i - 1] && s == [s[0]] + s[1..];
    }
  }

  /** The lines of `s` that a line feed ends, without it. */
  function Lines(s: Bytes): seq<Bytes>
    decreases |s|
  {
    var i := FirstLF(s);
    if i == |s| then [] else [s[..i]] + Lines(s[i + 1..])
  }

  /** What follows the last line feed of `s`. */
  function Tail(s: Bytes): Bytes
    decreases |s|
  {
    var i := FirstLF(s);
    if i == |s| then s else Tail(s[i + 1..])
  }

  function Concat(chunks: seq<Bytes>): Bytes {
    if chunks == [] then [] else Concat(chunks[..|chunks| - 1]) + chunks[|chunks| - 1]
  }

  lemma {:induction false} FirstIs(s: Bytes, i: nat)
    requires i < |s| && s[i] == LF && LF !in s[..i]
    ensures FirstLF(s) == i
  {
    if i > 0 {
      assert s[..i] == [s[0]] + s[1..][..i - 1];
      FirstIs(s[1..], i - 1);
    }
  }

  lemma NextLine(s: Bytes, i: nat)
    requires i < |s| && s[i] == LF && LF !in s[..i]
    ensures Lines(s) == [s[..i]] + Lines(s[i + 1..]) && Tail(s) == Tail(s[i + 1..])
  {
    FirstIs(s, i);
  }

  lemma Unfinished(s: Bytes)
    requires LF !in s
    ensures Lines(s) == [] && Tail(s) == s
  {
    FirstLFStands(s);
  }

  lemma NextLineOfConcat(a: Bytes, b: Bytes, i: nat)
    requires i < |a| && a[i] == LF && LF !in a[..i]
    ensures Lines(a + b) == [a[..i]] + Lines(a[i + 1..] + b) && Tail(a + b) == Tail(a[i + 1..] + b)
  {
    assert (a + b)[..i] == a[..i] && (a + b)[i + 1..] == a[i + 1..] + b;
    NextLine(a + b, i);
  }

  /** Cutting a stream in two loses nothing, if what follows the last line feed is put before the second part. */
  lemma {:induction false} LinesOfConcat(a: Bytes, b: Bytes)
    ensures Lines(a + b) == Lines(a) + Lines(Tail(a) + b)
    ensures Tail(a + b) == Tail(Tail(a) + b)
    decreases |a|
  {
    hide Lines, Tail, FirstLF;
    if LF in a {
      var i := FirstLF(a);
      FirstLFStands(a);
      NextLine(a, i);
      NextLineOfConcat(a, b, i);
      LinesOfConcat(a[i + 1..], b);
    } else {
      Unfinished(a);
    }
  }

  // ---- the whole-body extractor -----------------------------------------------------------------------------

  /** The documents the lines carry, in order. */
  function Payloads(lines: seq<Bytes>): seq<Bytes> {
    if lines == [] then []
    else
      Payloads(lines[..|lines| - 1])
      + match Payload(lines[|lines| - 1]) { case None => [] case Some(doc) => [doc] }
  }

  /** The totals the documents report, in order. */
  function Totals(read: Reader, documents: seq<Bytes>): seq<int> {
    if documents == [] then []
    else
      Totals(read, documents[..|documents| - 1])
      + match read(documents[|documents| - 1]) { case None => [] case Some(n) => [n] }
  }

  function Whole(data: Bytes): seq<Bytes> {
    if [BRACE] <= Strip(data) then [Strip(data)] else []
  }

  /** Everything the extractor reads: the body itself when it looks like an object, then what each line carries, the
      unfinished last line included. */
  function Documents(data: Bytes): seq<Bytes> {
    Whole(data) + Payloads(Lines(data) + [Tail(data)])
  }

  function Greatest(ns: seq<int>): int {
    if ns == [] then 0
    else
      var m, n := Greatest(ns[..|ns| - 1]), ns[|ns| - 1];
      if n > m then n else m
  }

  /** The greatest of the numbers and zero. */
  lemma {:induction false} GreatestIs(ns: seq<int>)
    ensures Greatest(ns) >= 0 && forall n | n in ns :: n <= Greatest(ns)
    ensures Greatest(ns) == 0 || Greatest(ns) in ns
  {
    if ns != [] {
      GreatestIs(ns[..|ns| - 1]);
      assert ns == ns[..|ns| - 1] + [ns[|ns| - 1]];
    }
  }

  function Extracted(read: Reader, data: Bytes): int {
    Greatest(Totals(read, Documents(data)))
  }

  lemma NextPayload(lines: seq<Bytes>, k: nat)
    requires k < |lines|
    ensures Payloads(lines[..k + 1]) ==
            Payloads(lines[..k]) + match Payload(lines[k]) { case None => [] case Some(doc) => [doc] }
  {
    hide Payload;
    assert lines[..k + 1][..k] == lines[..k];
  }

  lemma NextDocument(read: Reader, documents: seq<Bytes>, k: nat)
    requires k < |documents|
    ensures var best := Greatest(Totals(read, documents[..k]));
            Greatest(Totals(read, documents[..k + 1])) ==
            match read(documents[k]) { case None => best case Some(n) => if n > best then n else best }
  {
    assert documents[..k + 1][..k] == documents[..k];
    var ns := Totals(read, documents[..k]);
    if read(documents[k]).Some? {
      assert (ns + [read(documents[k]).value])[..|ns|] == ns;
    } else {
      assert ns + [] == ns;
    }
  }

  lemma EmptyBody()
    ensures Documents([]) == []
  {
    assert Payloads([[]]) == [];
  }

  /** `_extract_total_tokens`, in its two passes: collect the documents, then keep the greatest total. */
  method ExtractTotalTokens(read: Reader, data: Bytes) returns (best: int)
    ensures best == Extracted(read, data)
  {
    hide Lines, Tail, Strip, Payload;
    best := 0;
    if data == [] {
      EmptyBody();
      return;
    }
    var documents: seq<Bytes> := [];
    if [BRACE] <= Strip(data) {
      documents := [Strip(data)];
    }
    var lines := Lines(data) + [Tail(data)];
    for k := 0 to |lines|
      invariant documents == Whole(data) + Payloads(lines[..k])
    {
      NextPayload(lines, k);
      var document := Payload(lines[k]);
      if document.Some? {
        documents := documents + [document.value];
      }
    }
    assert lines[..|lines|] == lines;
    for k := 0 to |documents|
      invariant best == Greatest(Totals(read, documents[..k]))
    {
      NextDocument(read, documents, k);
      var total := read(documents[k]);
      if total.Some? {
        best := if total.value > best then total.value else best;
      }
    }
    assert documents[..|documents|] == documents;
  }

  // ---- the streaming scanner ------------------------------------------------------------------------------

  /** `best` and `seen` are `best_total_tokens` and `has_usage`. */
  datatype Scan = Scan(best: int, seen: bool)

  function ScanLine(read: Reader, scan: Scan, line: Bytes): Scan {
    match LineTotal(read, line)
    case None => scan
    case Some(n) => Scan(n, true)
  }

  function ScanLines(read: Reader, scan: Scan, lines: seq<Bytes>): Scan {
    if lines == [] then scan
    else ScanLine(read, ScanLines(read, scan, lines[..|lines| - 1]), lines[|lines| - 1])
  }

  lemma {:induction false} ScanMore(read: Reader, scan: Scan, a: seq<Bytes>, b: seq<Bytes>)
    ensures ScanLines(read, scan, a + b) == ScanLines(read, ScanLines(read, scan, a), b)
    decreases b
  {
    if b == [] {
      assert a + b == a;
    } else {
      assert (a + b)[..|a + b| - 1] == a + b[..|b| - 1];
      ScanMore(read, scan, a, b[..|b| - 1]);
    }
  }

  const FRESH := Scan(0, false)

  /** How the relay ended: all read, already loaded by the client, broken off by upstream, or given up because the
      caller went away, waiting for a chunk or while `last` was handed on and not yet looked at. */
  datatype BodyEnd = Exhausted | Consumed(content: Bytes) | Broken(eventStream: bool) | GivenUp(last: Option<Bytes>)

  /** The inner loop: takes every finished line off the buffer and counts it. */
  method DrainLines(read: Reader, counted: Scan, buffer: Bytes) returns (scan: Scan, rest: Bytes)
    ensures scan == ScanLines(read, counted, Lines(buffer)) && rest == Tail(buffer)
  {
    scan, rest := counted, buffer;
    while LF in rest
      invariant ScanLines(read, scan, Lines(rest)) == ScanLines(read, counted, Lines(buffer))
      invariant Tail(rest) == Tail(buffer)
      decreases |rest|
    {
      var i := FirstLF(rest);
      FirstLFStands(rest);
      NextLine(rest, i);
      ScanMore(read, scan, [rest[..i]], Lines(rest[i + 1..]));
      scan, rest := ScanLine(read, scan, rest[..i]), rest[i + 1..];
    }
    Unfinished(rest);
  }

  /** What the loop over the chunks has counted and kept after `chunks`: the scan of the stream's finished lines. */
  function Counted(read: Reader, chunks: seq<Bytes>): Scan {
    ScanLines(read, FRESH, Lines(Concat(chunks)))
  }

  lemma NextChunk(read: Reader, chunks: seq<Bytes>, k: nat)
    requires k < |chunks|
    ensures var rest := Tail(Concat(chunks[..k])) + chunks[k];
            && Counted(read, chunks[..k + 1]) == ScanLines(read, Counted(read, chunks[..k]), Lines(rest))
            && Tail(Concat(chunks[..k + 1])) == Tail(rest)
  {
    var before := Concat(chunks[..k]);
    assert chunks[..k + 1][..k] == chunks[..k];
    LinesOfConcat(before, chunks[k]);
    ScanMore(read, FRESH, Lines(before), Lines(Tail(before) + chunks[k]));
  }

  /** The total and flag the finished body leaves: a body loaded beforehand is read as a whole on top. */
  function Final(read: Reader, counted: Scan, end: BodyEnd): Scan {
    if !end.Consumed? then counted
    else
      var best := if Extracted(read, end.content) > counted.best then Extracted(read, end.content) else counted.best;
      Scan(best, counted.seen || best > 0)
  }

  /** `_relay_and_count` up to its `finally`: the chunks handed on, what was counted, and the unfinished line. */
  method RelayAndCount(read: Reader, chunks: seq<Bytes>, end: BodyEnd)
    returns (sent: seq<Bytes>, scan: Scan, rest: Bytes)
    ensures end.Exhausted? || end == Broken(false) || end == GivenUp(None) ==> sent == chunks
    ensures end.Consumed? ==> sent == chunks + [end.content]
    ensures end.GivenUp? && end.last.Some? ==> sent == chunks + [end.last.value]
    ensures end == Broken(true) ==>
              sent == chunks + [[100, 97, 116, 97, 58, 32, 91, 68, 79, 78, 69, 93, 10, 10]]
    ensures scan == Final(read, Counted(read, chunks), end)
    ensures rest == Tail(Concat(chunks))
  {
    sent, scan, rest := [], FRESH, [];
    for k := 0 to |chunks|
      invariant sent == chunks[..k]
      invariant scan == Counted(read, chunks[..k])
      invariant rest == Tail(Concat(chunks[..k]))
    {
      NextChunk(read, chunks, k);
      sent := sent + [chunks[k]];
      rest := rest + chunks[k];
      scan, rest := DrainLines(read, scan, rest);
    }
    assert chunks[..|chunks|] == chunks;
    match end {
      case Exhausted =>
      case Consumed(content) =>
        var extracted := ExtractTotalTokens(read, content);
        if extracted > scan.best {
          scan := scan.(best := extracted);
        }
        if scan.best > 0 {
          scan := scan.(seen := true);
        }
        sent := sent + [content];
      case Broken(eventStream) =>
        if eventStream {
          assert DONE + [LF, LF] == [100, 97, 116, 97, 58, 32, 91, 68, 79, 78, 69, 93, 10, 10];
          sent := sent + [DONE + [LF, LF]];
        }
      case GivenUp(last) =>
        if last.Some? {
          sent := sent + [last.value];
        }
    }
  }

  /** However a body is cut into chunks, the same bytes go out, the same usage is counted and the same unfinished
      line is left. */
  lemma ChunkingIndependent(read: Reader, xs: seq<Bytes>, ys: seq<Bytes>)
    requires Concat(xs) == Concat(ys)
    ensures Fed(read, xs) == Fed(read, ys) == (Counted(read, xs), Tail(Concat(xs)))
  {
    FedIsCounted(read, xs);
    FedIsCounted(read, ys);
  }

  /** The loop read chunk by chunk: each one is appended to the unfinished line and the finished lines counted. */
  function Fed(read: Reader, chunks: seq<Bytes>): (Scan, Bytes) {
    if chunks == [] then (FRESH, [])
    else
      var (scan, rest) := Fed(read, chunks[..|chunks| - 1]);
      var buffer := rest + chunks[|chunks| - 1];
      (ScanLines(read, scan, Lines(buffer)), Tail(buffer))
  }

  lemma {:induction false} FedIsCounted(read: Reader, chunks: seq<Bytes>)
    ensures Fed(read, chunks) == (Counted(read, chunks), Tail(Concat(chunks)))
  {
    if chunks != [] {
      FedIsCounted(read, chunks[..|chunks| - 1]);
      NextChunk(read, chunks, |chunks| - 1);
      assert chunks[..|chunks| - 1 + 1] == chunks;
    }
  }
}

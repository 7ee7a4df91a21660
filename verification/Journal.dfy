/** The append-only lifecycle journal of a task, under torn writes.

    A marker is one line. A crash during an append leaves any part of the line
    without its newline, and the next append merges with it. */
module Journal {
  import opened Wrappers
  import opened Text

  datatype Marker = Marker(sequence: nat, eventType: string, taskId: string, agentId: Option<string>,
                           payload: Option<string>, createdAt: nat)

  /** Writing a marker as one line of text, and reading a line back. */
  datatype Codec = Codec(encode: Marker -> string, decode: string -> Option<Marker>)

  /** What a single write may have left on the open line. */
  ghost predicate Piece(c: Codec, p: string) {
    exists m, n :: 0 < n <= |c.encode(m)| && p == c.encode(m)[..n]
  }

  ghost predicate Pieces(c: Codec, ps: seq<string>) {
    forall p | p in ps :: Piece(c, p)
  }

  /** The contract of the serializer: a marker is one line that reads back, and
      neither a part of one nor anything made of several writes reads at all. */
  ghost predicate CodecOk(c: Codec) {
    && (forall m :: c.encode(m) != "" && NEWLINE !in c.encode(m) && c.decode(c.encode(m)) == Some(m))
    && (forall m, n | 0 < n < |c.encode(m)| :: c.decode(c.encode(m)[..n]) == None)
    && (forall ps | |ps| >= 2 && Pieces(c, ps) :: c.decode(Concat(ps)) == None)
  }

  // ---- The file ------------------------------------------------------------

  function Body(line: string): string {
    if line == "" then "" else line[..|line| - 1]
  }

  function Bodies(lines: seq<string>): (bodies: seq<string>)
    ensures |bodies| == |lines|
  {
    seq(|lines|, i requires 0 <= i < |lines| => Body(lines[i]))
  }

  /** The lines of a text; an open last line counts. */
  function Lines(text: string): seq<string> {
    Bodies(CompleteLines(text)) + if Remainder(text) == "" then [] else [Remainder(text)]
  }

  /** What writing `x` does to the lines. */
  function Put(lines: seq<string>, open: bool, x: string): seq<string>
    requires open ==> lines != []
  {
    if open then lines[..|lines| - 1] + [lines[|lines| - 1] + x] else lines + [x]
  }

  lemma CutOpen(text: string, x: string)
    requires NEWLINE !in x
    ensures CompleteLines(text + x) == CompleteLines(text) && Remainder(text + x) == Remainder(text) + x
  {
    hide *;
    var done, rest := CompleteLines(text), Remainder(text);
    LinesRebuild(text);
    LinesOfWhole(done, rest + x);
    NoNewlineNoLines(rest + x);
    assert text + x == Concat(done) + (rest + x);
    assert done + [] == done;
  }

  lemma CutClosed(text: string, x: string)
    requires NEWLINE !in x
    ensures CompleteLines(text + x + [NEWLINE]) == CompleteLines(text) + [Remainder(text) + x + [NEWLINE]]
    ensures Remainder(text + x + [NEWLINE]) == ""
  {
    hide *;
    var done, rest := CompleteLines(text), Remainder(text);
    LinesRebuild(text);
    var line := rest + x + [NEWLINE];
    OneLine(rest + x);
    FirstLine(line, "");
    assert line + "" == line;
    NoNewlineNoLines("");
    LinesOfWhole(done, line);
    assert text + x + [NEWLINE] == Concat(done) + line;
    assert [line] + [] == [line];
  }

  lemma OneLine(x: string)
    requires NEWLINE !in x
    ensures IsLine(x + [NEWLINE]) && Body(x + [NEWLINE]) == x
  {
    assert (x + [NEWLINE])[..|x|] == x;
  }

  lemma WriteOpen(text: string, x: string)
    requires NEWLINE !in x && x != ""
    ensures Lines(text + x) == Put(Lines(text), Remainder(text) != "", x)
    ensures Remainder(text + x) == Remainder(text) + x
  {
    hide CompleteLines, Remainder, Bodies;
    CutOpen(text, x);
    var bodies, rest := Bodies(CompleteLines(text)), Remainder(text);
    assert Lines(text + x) == bodies + [rest + x];
    if rest == "" {
      assert bodies + [] == bodies && rest + x == x;
    } else {
      assert (bodies + [rest])[..|bodies|] == bodies;
    }
  }

  lemma WriteClosed(text: string, x: string)
    requires NEWLINE !in x && x != ""
    ensures Lines(text + x + [NEWLINE]) == Put(Lines(text), Remainder(text) != "", x)
    ensures Remainder(text + x + [NEWLINE]) == ""
  {
    hide CompleteLines, Remainder, Bodies, Body;
    CutClosed(text, x);
    var bodies, rest := Bodies(CompleteLines(text)), Remainder(text);
    OneLine(rest + x);
    BodiesMore(CompleteLines(text), rest + x + [NEWLINE]);
    assert Lines(text + x + [NEWLINE]) == bodies + [rest + x];
    if rest == "" {
      assert bodies + [] == bodies && rest + x == x;
    } else {
      assert (bodies + [rest])[..|bodies|] == bodies;
    }
  }

  lemma BodiesMore(lines: seq<string>, line: string)
    ensures Bodies(lines + [line]) == Bodies(lines) + [Body(line)]
  {
    hide Body;
  }

  function ReadLines(c: Codec, lines: seq<string>): seq<Marker> {
    if lines == [] then []
    else
      var last := lines[|lines| - 1];
      ReadLines(c, lines[..|lines| - 1])
      + (if last == "" then [] else if c.decode(last).Some? then [c.decode(last).value] else [])
  }

  /** What a crash left of the append of `m`: its first `cut` characters. */
  function Torn(c: Codec, text: string, m: Marker, cut: nat): string {
    text + if cut <= |c.encode(m)| then c.encode(m)[..cut] else c.encode(m)
  }

  function Next(text: string): nat {
    |Lines(text)| + 1
  }

  function Appended(c: Codec, text: string, draft: Marker): string {
    text + c.encode(draft.(sequence := Next(text))) + [NEWLINE]
  }

  class JournalFile {
    const c: Codec
    var text: string

    constructor (c: Codec)
      ensures this.c == c && text == ""
    {
      this.c, text := c, "";
    }

    /** Count the lines, then write the marker and its newline. */
    method Append(draft: Marker) returns (sequence: nat)
      modifies this
      ensures text == Appended(c, old(text), draft)
      ensures sequence == Next(old(text))
    {
      sequence := |Lines(text)| + 1;
      var line := c.encode(draft.(sequence := sequence));
      text := text + line + [NEWLINE];
    }

    method Read() returns (events: seq<Marker>)
      ensures events == ReadLines(c, Lines(text))
    {
      var lines := Lines(text);
      events := [];
      var k := 0;
      while k < |lines|
        invariant 0 <= k <= |lines|
        invariant events == ReadLines(c, lines[..k])
      {
        assert lines[..k + 1][..k] == lines[..k];
        if lines[k] != "" {
          match c.decode(lines[k]) {
            case Some(event) => events := events + [event];
            case None =>
          }
        }
        k := k + 1;
      }
      assert lines[..k] == lines;
    }
  }

  // ---- What every history of appends and crashes keeps ---------------------

  /** Every line that reads carries its own line number. */
  ghost predicate Numbered(c: Codec, lines: seq<string>) {
    forall i | 0 <= i < |lines| :: c.decode(lines[i]).Some? ==> c.decode(lines[i]).value.sequence == i + 1
  }

  /** The open line is made of torn writes. */
  ghost predicate MadeOfPieces(c: Codec, rest: string) {
    exists ps :: Pieces(c, ps) && Concat(ps) == rest
  }

  ghost predicate JournalOk(c: Codec, text: string) {
    Numbered(c, Lines(text)) && MadeOfPieces(c, Remainder(text))
  }

  lemma PiecesMore(c: Codec, rest: string, p: string)
    requires CodecOk(c) && MadeOfPieces(c, rest) && Piece(c, p)
    ensures MadeOfPieces(c, rest + p)
    ensures rest != "" ==> c.decode(rest + p) == None
  {
    var ps :| Pieces(c, ps) && Concat(ps) == rest;
    ConcatAppend(ps, [p]);
    ConcatSingle(p);
    assert Pieces(c, ps + [p]);
    if rest != "" {
      assert ps != [] by { ConcatEmpty(""); }
      assert |ps + [p]| >= 2;
    }
  }

  lemma Encodes(c: Codec, m: Marker)
    requires CodecOk(c)
    ensures c.encode(m) != "" && NEWLINE !in c.encode(m) && c.decode(c.encode(m)) == Some(m)
    ensures Piece(c, c.encode(m))
  {
    assert c.encode(m)[..|c.encode(m)|] == c.encode(m);
  }

  lemma PartReads(c: Codec, m: Marker, n: nat)
    requires CodecOk(c) && 0 < n <= |c.encode(m)|
    ensures c.decode(c.encode(m)[..n]) == if n == |c.encode(m)| then Some(m) else None
    ensures Piece(c, c.encode(m)[..n])
  {
    assert c.encode(m)[..|c.encode(m)|] == c.encode(m);
  }

  lemma NumberedPut(c: Codec, lines: seq<string>, open: bool, x: string)
    requires Numbered(c, lines) && (open ==> lines != [])
    requires if open then c.decode(lines[|lines| - 1] + x) == None
             else c.decode(x).Some? ==> c.decode(x).value.sequence == |lines| + 1
    ensures Numbered(c, Put(lines, open, x))
  {
  }

  /** Writing a piece of the marker that has the next number. */
  lemma PutKeepsNumbered(c: Codec, text: string, m: Marker, n: nat)
    requires CodecOk(c) && JournalOk(c, text) && m.sequence == Next(text) && 0 < n <= |c.encode(m)|
    ensures Numbered(c, Put(Lines(text), Remainder(text) != "", c.encode(m)[..n]))
    ensures MadeOfPieces(c, Remainder(text) + c.encode(m)[..n])
  {
    hide CodecOk, Lines, Remainder, MadeOfPieces, Piece, Numbered, Put;
    var p, rest := c.encode(m)[..n], Remainder(text);
    PartReads(c, m, n);
    PiecesMore(c, rest, p);
    if rest != "" {
      OpenIsLast(text);
    }
    NumberedPut(c, Lines(text), rest != "", p);
  }

  lemma OpenIsLast(text: string)
    requires Remainder(text) != ""
    ensures Lines(text) != [] && Lines(text)[|Lines(text)| - 1] == Remainder(text)
  {
  }

  lemma OpenLine(text: string)
    ensures Remainder(text) != "" ==> Lines(text) != []
  {
  }

  datatype Move = Append(draft: Marker) | Crash(draft: Marker, cut: nat)

  function Step(c: Codec, text: string, move: Move): string {
    match move
    case Append(draft) => Appended(c, text, draft)
    case Crash(draft, cut) => Torn(c, text, draft.(sequence := Next(text)), cut)
  }

  function Steps(c: Codec, text: string, moves: seq<Move>): string
    decreases |moves|
  {
    if moves == [] then text else Steps(c, Step(c, text, moves[0]), moves[1..])
  }

  lemma StepKeeps(c: Codec, text: string, move: Move)
    requires CodecOk(c) && JournalOk(c, text)
    ensures JournalOk(c, Step(c, text, move))
  {
    var m := move.draft.(sequence := Next(text));
    var line := c.encode(m);
    hide CodecOk, Lines, Remainder, Numbered, MadeOfPieces;
    Encodes(c, m);
    match move {
      case Append(_) =>
        PutKeepsNumbered(c, text, m, |line|);
        assert line[..|line|] == line;
        WriteClosed(text, line);
        NothingIsMade(c);
      case Crash(_, cut) =>
        var n := if cut <= |line| then cut else |line|;
        assert line[..|line|] == line;
        if n == 0 {
          assert text + line[..0] == text;
        } else {
          PutKeepsNumbered(c, text, m, n);
          WriteOpen(text, line[..n]);
        }
    }
  }

  lemma NothingIsMade(c: Codec)
    ensures MadeOfPieces(c, "")
  {
    assert Pieces(c, []) && Concat([]) == "";
  }

  lemma {:induction false} StepsKeep(c: Codec, text: string, moves: seq<Move>)
    requires CodecOk(c) && JournalOk(c, text)
    ensures JournalOk(c, Steps(c, text, moves))
    decreases |moves|
  {
    hide CodecOk, JournalOk, Step;
    if moves != [] {
      StepKeeps(c, text, moves[0]);
      StepsKeep(c, Step(c, text, moves[0]), moves[1..]);
    }
  }

  lemma EmptyIsOk(c: Codec)
    ensures JournalOk(c, "")
  {
    NoNewlineNoLines("");
    NothingIsMade(c);
  }

  // ---- What is read back ---------------------------------------------------

  ghost predicate Ascending(events: seq<Marker>, limit: nat) {
    && (forall i | 0 <= i < |events| :: 0 < events[i].sequence <= limit)
    && forall i, j | 0 <= i < j < |events| :: events[i].sequence < events[j].sequence
  }

  lemma {:induction false} NumberedReadsAscending(c: Codec, lines: seq<string>)
    requires Numbered(c, lines)
    ensures Ascending(ReadLines(c, lines), |lines|)
  {
    if lines != [] {
      NumberedReadsAscending(c, lines[..|lines| - 1]);
    }
  }

  /** Whatever appends and crashes made of a journal: every event read back has
      its own 1-based line number as its sequence, so the sequences strictly
      increase. */
  lemma JournalsReadInOrder(c: Codec, moves: seq<Move>)
    requires CodecOk(c)
    ensures var lines := Lines(Steps(c, "", moves));
            Numbered(c, lines) && Ascending(ReadLines(c, lines), |lines|)
  {
    hide Lines, Numbered, CodecOk;
    EmptyIsOk(c);
    StepsKeep(c, "", moves);
    NumberedReadsAscending(c, Lines(Steps(c, "", moves)));
  }

  /** A completed append is read back exactly when the file was empty or ended in
      a newline before it; otherwise it is lost together with the open line. */
  lemma AppendIsReadBack(c: Codec, text: string, draft: Marker)
    requires CodecOk(c) && JournalOk(c, text)
    ensures var m := draft.(sequence := Next(text));
            var after := ReadLines(c, Lines(Appended(c, text, draft)));
            && (m in after <==> Remainder(text) == "")
            && after == if Remainder(text) == "" then ReadLines(c, Lines(text)) + [m]
                        else ReadLines(c, Lines(text)[..|Lines(text)| - 1])
  {
    hide CodecOk, Lines, Remainder, MadeOfPieces, Piece, Numbered, Put, ReadLines;
    var m := draft.(sequence := Next(text));
    var line, lines, rest := c.encode(m), Lines(text), Remainder(text);
    Encodes(c, m);
    WriteClosed(text, line);
    if rest == "" {
      PutReads(c, lines, line);
    } else {
      OpenIsLast(text);
      PiecesMore(c, rest, line);
      PutLoses(c, lines, line);
    }
  }

  lemma PutReads(c: Codec, lines: seq<string>, x: string)
    requires x != "" && c.decode(x).Some?
    ensures ReadLines(c, Put(lines, false, x)) == ReadLines(c, lines) + [c.decode(x).value]
  {
    assert (lines + [x])[..|lines|] == lines;
  }

  lemma PutLoses(c: Codec, lines: seq<string>, x: string)
    requires Numbered(c, lines) && lines != [] && c.decode(lines[|lines| - 1] + x) == None
    ensures ReadLines(c, Put(lines, true, x)) == ReadLines(c, lines[..|lines| - 1])
    ensures forall m | m in ReadLines(c, Put(lines, true, x)) :: m.sequence < |lines|
  {
    var put, kept := Put(lines, true, x), lines[..|lines| - 1];
    assert put[..|put| - 1] == kept;
    NumberedReadsAscending(c, kept);
  }
}

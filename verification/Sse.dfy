/** The streaming turn accumulator: chunks become lines, lines become frames,
    and tool calls are rebuilt from fragments by index.

    `TurnBuilder` and `AccumulateTurn` work step by step on a growing buffer.
    `BatchTurn` reads the whole text at once; the two agree for every way of
    cutting the text into chunks. JSON decoding is the parameter `parse`. */
module Sse {
  import opened Wrappers
  import opened Text
  import opened Messages

  const MAX_TOOL_CALLS: nat := 64
  const DONE := "[DONE]"

  /** What one `data:` payload decodes to, as far as the accumulator looks. */
  datatype Frame =
    | Ignored                                    // not JSON, or no first choice
    | Choice(finish: Option<string>, delta: Option<Delta>)

  datatype Delta = Delta(content: Option<string>, reasoning: Option<string>,
                         fragments: seq<Fragment>)

  /** One entry of `delta.tool_calls`; an absent index counts as 0. */
  datatype Fragment = Fragment(index: nat, id: Option<string>,
                               name: Option<string>, arguments: Option<string>)

  datatype Call = Call(index: nat, id: Option<string>, name: string, arguments: string)

  /** One item of the byte stream, decoded: a chunk of text or an error. */
  datatype Item = Chunk(text: string) | Failure(error: string)

  /** Everything `accumulate_turn` has assembled so far. */
  datatype Assembly = Assembly(content: string, finish: Option<string>,
                               reasoning: Option<string>, calls: seq<Call>)

  const EMPTY := Assembly("", None, None, [])
  const BLANK_CALL := Call(0, None, "", "")

  function OrEmpty(text: Option<string>): string {
    if text.Some? then text.value else ""
  }

  // ---- One frame -----------------------------------------------------------

  /** Grow the call list with blank entries until it has `n` of them. */
  function PadTo(calls: seq<Call>, n: nat): (r: seq<Call>)
    ensures |r| == if |calls| < n then n else |calls|
    ensures forall i :: 0 <= i < |r| ==> r[i] == if i < |calls| then calls[i] else BLANK_CALL
  {
    if |calls| >= n then calls
    else calls + seq(n - |calls|, i => BLANK_CALL)
  }

  function Extend(call: Call, f: Fragment): Call {
    Call(f.index, if f.id.Some? then f.id else call.id,
         call.name + OrEmpty(f.name), call.arguments + OrEmpty(f.arguments))
  }

  function ApplyFragment(calls: seq<Call>, f: Fragment): seq<Call> {
    if f.index >= MAX_TOOL_CALLS then calls
    else
      var padded := PadTo(calls, f.index + 1);
      padded[f.index := Extend(padded[f.index], f)]
  }

  function ApplyFragments(calls: seq<Call>, fs: seq<Fragment>): seq<Call>
    decreases |fs|
  {
    if fs == [] then calls else ApplyFragments(ApplyFragment(calls, fs[0]), fs[1..])
  }

  function ApplyFrame(st: Assembly, frame: Frame): Assembly {
    match frame
    case Ignored => st
    case Choice(finish, delta) =>
      var st1 := if finish.Some? then st.(finish := finish) else st;
      match delta
      case None => st1
      case Some(d) =>
        Assembly(st1.content + OrEmpty(d.content), st1.finish,
                 if d.reasoning.Some? then Some(OrEmpty(st1.reasoning) + d.reasoning.value)
                 else st1.reasoning,
                 ApplyFragments(st1.calls, d.fragments))
  }

  function FinalizeFrom(calls: seq<Call>, i: nat): seq<ToolCall>
    requires i <= |calls|
    decreases |calls| - i
  {
    if i == |calls| then []
    else
      var c := calls[i];
      (if c.name == "" then []
       else [ToolCall(if c.id.Some? then c.id.value else "call_" + Decimal(c.index),
                      c.name, c.arguments)])
      + FinalizeFrom(calls, i + 1)
  }

  function Finish(st: Assembly): Turn {
    Turn(st.content, FinalizeFrom(st.calls, 0), st.finish, st.reasoning)
  }

  // ---- The whole text ------------------------------------------------------

  /** The payload of one line; empty for anything that is not `data:`. */
  function Payload(line: string): string {
    var l := TrimEnd(line);
    if HasPrefix(l, "data:") then Trim(l[5..]) else ""
  }

  predicate IsDone(line: string) {
    Payload(line) == DONE
  }

  predicate HasDone(lines: seq<string>) {
    exists line :: line in lines && IsDone(line)
  }

  function BeforeDone(lines: seq<string>): seq<string> {
    if lines == [] || IsDone(lines[0]) then [] else [lines[0]] + BeforeDone(lines[1..])
  }

  /** The frames of `lines`: blank payloads carry none. */
  function Frames(parse: string -> Frame, lines: seq<string>): seq<Frame> {
    if lines == [] then []
    else
      (if Payload(lines[0]) == "" then [] else [parse(Payload(lines[0]))])
      + Frames(parse, lines[1..])
  }

  function ApplyFrames(st: Assembly, frames: seq<Frame>): Assembly
    decreases |frames|
  {
    if frames == [] then st else ApplyFrames(ApplyFrame(st, frames[0]), frames[1..])
  }

  function TurnOfLines(parse: string -> Frame, lines: seq<string>): Turn {
    Finish(ApplyFrames(EMPTY, Frames(parse, lines)))
  }

  /** The text delivered before the first error item. */
  function Delivered(items: seq<Item>): string {
    if items == [] || items[0].Failure? then "" else items[0].text + Delivered(items[1..])
  }

  function FirstError(items: seq<Item>): Option<string> {
    if items == [] then None
    else if items[0].Failure? then Some(items[0].error)
    else FirstError(items[1..])
  }

  /** The reference meaning of a stream: look at all the delivered text, keep
      its complete lines before the first `[DONE]`, and fold their frames. An
      error counts only when no `[DONE]` line was completed before it. */
  function BatchTurn(parse: string -> Frame, items: seq<Item>): Result<Turn, string> {
    var lines := CompleteLines(Delivered(items));
    if HasDone(lines) || FirstError(items).None?
    then Ok(TurnOfLines(parse, BeforeDone(lines)))
    else Err(FirstError(items).value)
  }

  // ---- Lines seen incrementally --------------------------------------------

  lemma {:induction false} FramesAppend(parse: string -> Frame, a: seq<string>, b: seq<string>)
    ensures Frames(parse, a + b) == Frames(parse, a) + Frames(parse, b)
  {
    if a == [] {
      assert a + b == b;
    } else {
      assert (a + b)[1..] == a[1..] + b;
      FramesAppend(parse, a[1..], b);
    }
  }

  lemma {:induction false} ApplyFramesAppend(st: Assembly, a: seq<Frame>, b: seq<Frame>)
    ensures ApplyFrames(st, a + b) == ApplyFrames(ApplyFrames(st, a), b)
    decreases |a|
  {
    if a == [] {
      assert a + b == b;
    } else {
      assert (a + b)[1..] == a[1..] + b;
      ApplyFramesAppend(ApplyFrame(st, a[0]), a[1..], b);
    }
  }

  /** Reading one more line folds one more frame. */
  lemma OneMoreLine(parse: string -> Frame, lines: seq<string>, line: string)
    ensures ApplyFrames(EMPTY, Frames(parse, lines + [line])) ==
            var st := ApplyFrames(EMPTY, Frames(parse, lines));
            if Payload(line) == "" then st else ApplyFrame(st, parse(Payload(line)))
  {
    FramesAppend(parse, lines, [line]);
    ApplyFramesAppend(EMPTY, Frames(parse, lines), Frames(parse, [line]));
    assert Frames(parse, [line]) ==
           (if Payload(line) == "" then [] else [parse(Payload(line))]) + Frames(parse, []);
  }

  lemma HasDoneAppend(a: seq<string>, b: seq<string>)
    ensures HasDone(a + b) <==> HasDone(a) || HasDone(b)
  {
    if HasDone(a) {
      var line :| line in a && IsDone(line);
      assert line in a + b;
    }
    if HasDone(b) {
      var line :| line in b && IsDone(line);
      assert line in a + b;
    }
  }

  lemma {:induction false} BeforeDoneAppend(a: seq<string>, b: seq<string>)
    ensures BeforeDone(a + b) == if HasDone(a) then BeforeDone(a) else a + BeforeDone(b)
  {
    hide *;
    if a == [] {
      assert a + b == b;
      NothingDone();
      assert [] + BeforeDone(b) == BeforeDone(b);
    } else {
      var line, rest := a[0], a[1..];
      assert a == [line] + rest && a + b == [line] + (rest + b);
      HasDoneCons(line, rest);
      BeforeDoneCons(line, rest);
      BeforeDoneCons(line, rest + b);
      BeforeDoneAppend(rest, b);
      assert [line] + (rest + BeforeDone(b)) == a + BeforeDone(b);
    }
  }

  lemma NothingDone()
    ensures !HasDone([]) && BeforeDone([]) == []
  {
  }

  lemma BeforeDoneCons(line: string, rest: seq<string>)
    ensures BeforeDone([line] + rest) == if IsDone(line) then [] else [line] + BeforeDone(rest)
  {
    hide IsDone;
    assert ([line] + rest)[1..] == rest;
  }

  lemma HasDoneCons(line: string, rest: seq<string>)
    ensures HasDone([line] + rest) <==> IsDone(line) || HasDone(rest)
  {
    HasDoneAppend([line], rest);
    assert line in [line];
  }

  /** A completed `[DONE]` line settles the turn whatever is delivered later. */
  lemma DoneIsFinal(a: string, b: string)
    requires HasDone(CompleteLines(a))
    ensures HasDone(CompleteLines(a + b))
    ensures BeforeDone(CompleteLines(a + b)) == BeforeDone(CompleteLines(a))
  {
    hide CompleteLines, Remainder, HasDone, BeforeDone, Concat;
    var lines, rest := CompleteLines(a), Remainder(a);
    LinesRebuild(a);
    assert a + b == Concat(lines) + (rest + b);
    LinesOfWhole(lines, rest + b);
    HasDoneAppend(lines, CompleteLines(rest + b));
    BeforeDoneAppend(lines, CompleteLines(rest + b));
  }

  lemma {:induction false} DeliveredAppend(a: seq<Item>, b: seq<Item>)
    requires FirstError(a).None?
    ensures Delivered(a + b) == Delivered(a) + Delivered(b)
    ensures FirstError(a + b) == FirstError(b)
  {
    hide *;
    if a == [] {
      assert a + b == b;
      NothingDelivered();
      assert "" + Delivered(b) == Delivered(b);
    } else {
      var item, rest := a[0], a[1..];
      assert a == [item] + rest && a + b == [item] + (rest + b);
      DeliveredCons(item, rest);
      DeliveredCons(item, rest + b);
      DeliveredAppend(rest, b);
      assert item.text + (Delivered(rest) + Delivered(b)) == item.text + Delivered(rest) + Delivered(b);
    }
  }

  lemma NothingDelivered()
    ensures Delivered([]) == "" && FirstError([]).None?
  {
  }

  lemma DeliveredCons(item: Item, rest: seq<Item>)
    ensures FirstError([item] + rest) == if item.Failure? then Some(item.error) else FirstError(rest)
    ensures item.Chunk? ==> Delivered([item] + rest) == item.text + Delivered(rest)
  {
    assert ([item] + rest)[1..] == rest;
  }

  // ---- The accumulator itself ----------------------------------------------

  /** The turn being built: the `turn` and `calls` locals that `apply_delta`
      updates through mutable references. */
  class TurnBuilder {
    var content: string
    var finish: Option<string>
    var reasoning: Option<string>
    var calls: seq<Call>

    constructor ()
      ensures View() == EMPTY
    {
      content, finish, reasoning, calls := "", None, None, [];
    }

    function View(): Assembly
      reads this
    {
      Assembly(content, finish, reasoning, calls)
    }

    method ApplyDelta(frame: Frame)
      modifies this
      ensures View() == ApplyFrame(old(View()), frame)
    {
      if frame.Ignored? { return; }
      if frame.finish.Some? { finish := frame.finish; }
      if frame.delta.None? { return; }
      var delta := frame.delta.value;
      if delta.content.Some? { content := content + delta.content.value; }
      if delta.reasoning.Some? {
        if reasoning.None? { reasoning := Some(""); }
        reasoning := Some(reasoning.value + delta.reasoning.value);
      }
      ApplyFragmentsInPlace(delta.fragments);
    }

    method ApplyFragmentsInPlace(fragments: seq<Fragment>)
      modifies this`calls
      ensures calls == ApplyFragments(old(calls), fragments)
    {
      var k := 0;
      while k < |fragments|
        invariant k <= |fragments|
        invariant ApplyFragments(calls, fragments[k..]) == ApplyFragments(old(calls), fragments)
      {
        assert fragments[k..][1..] == fragments[k + 1..];
        ApplyFragmentInPlace(fragments[k]);
        k := k + 1;
      }
    }

    method ApplyFragmentInPlace(f: Fragment)
      modifies this`calls
      ensures calls == ApplyFragment(old(calls), f)
    {
      if f.index >= MAX_TOOL_CALLS { return; }
      while |calls| <= f.index
        invariant calls == PadTo(old(calls), |calls|)
        invariant |old(calls)| <= |calls| && (|calls| <= f.index + 1 || calls == old(calls))
      {
        calls := calls + [BLANK_CALL];
      }
      assert calls == PadTo(old(calls), f.index + 1);
      calls := calls[f.index := Extend(calls[f.index], f)];
    }
  }

  /** What the loops keep: `seen` are the lines read so far, none of them
      `[DONE]`, `buf` is the rest of `text`, and `st` folds the lines read. */
  ghost predicate Progress(parse: string -> Frame, text: string, seen: seq<string>, buf: string, st: Assembly) {
    && text == Concat(seen) + buf
    && (forall line :: line in seen ==> IsLine(line))
    && !HasDone(seen)
    && st == ApplyFrames(EMPTY, Frames(parse, seen))
  }

  lemma ProgressStart(parse: string -> Frame)
    ensures Progress(parse, "", [], "", EMPTY)
  {
  }

  lemma ProgressByLine(parse: string -> Frame, text: string, seen: seq<string>, buf: string, st: Assembly,
                       line: string, rest: string)
    requires Progress(parse, text, seen, buf, st)
    requires IsLine(line) && buf == line + rest && !IsDone(line)
    ensures Progress(parse, text, seen + [line], rest,
                     if Payload(line) == "" then st else ApplyFrame(st, parse(Payload(line))))
  {
    hide CompleteLines, Payload, ApplyFrames, Frames, ApplyFrame, Concat;
    ConcatAppend(seen, [line]);
    ConcatSingle(line);
    assert Concat(seen) + (line + rest) == (Concat(seen) + line) + rest;
    HasDoneAppend(seen, [line]);
    OneMoreLine(parse, seen, line);
  }

  lemma ProgressToDone(parse: string -> Frame, text: string, seen: seq<string>, buf: string, st: Assembly,
                       line: string, rest: string)
    requires Progress(parse, text, seen, buf, st)
    requires IsDone(line) && CompleteLines(buf) == [line] + CompleteLines(rest)
    ensures HasDone(CompleteLines(text)) && BeforeDone(CompleteLines(text)) == seen
  {
    hide Payload, ApplyFrames, Frames, ApplyFrame, CompleteLines, Concat;
    LinesOfWhole(seen, buf);
    assert line in CompleteLines(buf);
    HasDoneAppend(seen, CompleteLines(buf));
    BeforeDoneAppend(seen, CompleteLines(buf));
    assert seen + [] == seen;
  }

  lemma ProgressByChunk(parse: string -> Frame, text: string, seen: seq<string>, buf: string, st: Assembly,
                        chunk: string)
    requires Progress(parse, text, seen, buf, st)
    ensures Progress(parse, text + chunk, seen, buf + chunk, st)
  {
    assert (Concat(seen) + buf) + chunk == Concat(seen) + (buf + chunk);
  }

  lemma ProgressAtEnd(parse: string -> Frame, text: string, seen: seq<string>, buf: string, st: Assembly)
    requires Progress(parse, text, seen, buf, st) && NEWLINE !in buf
    ensures CompleteLines(text) == seen && BeforeDone(seen) == seen && !HasDone(seen)
    ensures Finish(st) == TurnOfLines(parse, seen)
  {
    LinesOfWhole(seen, buf);
    NoNewlineNoLines(buf);
    BeforeDoneAppend(seen, []);
    assert seen + [] == seen;
  }

  /** Splitting a stream at item `k`, none of the first `k` being an error. */
  lemma StreamAt(items: seq<Item>, k: nat)
    requires k < |items| && FirstError(items[..k]).None?
    ensures items[k].Failure? ==>
              Delivered(items) == Delivered(items[..k]) && FirstError(items) == Some(items[k].error)
    ensures items[k].Chunk? ==>
              && FirstError(items[..k + 1]).None?
              && Delivered(items[..k + 1]) == Delivered(items[..k]) + items[k].text
              && Delivered(items) == Delivered(items[..k + 1]) + Delivered(items[k + 1..])
  {
    hide *;
    if items[k].Failure? {
      assert items == items[..k] + items[k..];
      DeliveredAppend(items[..k], items[k..]);
      ErrorFirst(items[k..]);
      assert Delivered(items[..k]) + "" == Delivered(items[..k]);
    } else {
      assert items[..k + 1] == items[..k] + [items[k]];
      DeliveredAppend(items[..k], [items[k]]);
      OneChunk(items[k].text);
      assert items == items[..k + 1] + items[k + 1..];
      DeliveredAppend(items[..k + 1], items[k + 1..]);
    }
  }

  lemma ErrorFirst(items: seq<Item>)
    requires items != [] && items[0].Failure?
    ensures Delivered(items) == "" && FirstError(items) == Some(items[0].error)
  {
  }

  /** Consume a stream chunk by chunk. The result is the reference meaning of
      the items, so no chunk boundary can be observed. */
  method AccumulateTurn(parse: string -> Frame, items: seq<Item>) returns (r: Result<Turn, string>)
    ensures r == BatchTurn(parse, items)
  {
    hide Progress, HasDone, CompleteLines, BeforeDone, Frames, ApplyFrames, ApplyFrame, Concat;
    var builder := new TurnBuilder();
    var buf := "";
    ghost var seen: seq<string> := [];
    ProgressStart(parse);
    var k := 0;
    while k < |items|
      invariant 0 <= k <= |items|
      invariant FirstError(items[..k]).None?
      invariant Progress(parse, Delivered(items[..k]), seen, buf, builder.View())
      invariant NEWLINE !in buf
    {
      StreamAt(items, k);
      if items[k].Failure? {
        ProgressAtEnd(parse, Delivered(items[..k]), seen, buf, builder.View());
        return Err(items[k].error);
      }
      ProgressByChunk(parse, Delivered(items[..k]), seen, buf, builder.View(), items[k].text);
      buf := buf + items[k].text;
      ghost var text := Delivered(items[..k + 1]);
      var nl := FindNewline(buf);
      while nl < |buf|
        invariant nl == FindNewline(buf)
        invariant Progress(parse, text, seen, buf, builder.View())
        decreases |buf|
      {
        SplitAtNewline(buf);
        var line := buf[..nl + 1];
        var data := Payload(line);
        if data == DONE {
          ProgressToDone(parse, text, seen, buf, builder.View(), line, buf[nl + 1..]);
          DoneIsFinal(text, Delivered(items[k + 1..]));
          ProgressFolds(parse, text, seen, buf, builder.View());
          return Ok(Finish(builder.View()));
        }
        ProgressByLine(parse, text, seen, buf, builder.View(), line, buf[nl + 1..]);
        if data != "" {
          builder.ApplyDelta(parse(data));
        }
        buf := buf[nl + 1..];
        seen := seen + [line];
        nl := FindNewline(buf);
      }
      assert buf[..nl] == buf;
      k := k + 1;
    }
    assert items[..k] == items;
    ProgressAtEnd(parse, Delivered(items), seen, buf, builder.View());
    return Ok(Finish(builder.View()));
  }

  lemma ProgressFolds(parse: string -> Frame, text: string, seen: seq<string>, buf: string, st: Assembly)
    requires Progress(parse, text, seen, buf, st)
    ensures Finish(st) == TurnOfLines(parse, seen)
  {
  }

  // ---- What the stream promises --------------------------------------------

  function Chunks(parts: seq<string>): seq<Item> {
    if parts == [] then [] else [Chunk(parts[0])] + Chunks(parts[1..])
  }

  /** However a text is cut into chunks, the turn is that of the whole text. */
  lemma {:induction false} ChunkingIsInvisible(parse: string -> Frame, parts: seq<string>)
    ensures Delivered(Chunks(parts)) == Concat(parts) && FirstError(Chunks(parts)).None?
    ensures BatchTurn(parse, Chunks(parts)) == BatchTurn(parse, [Chunk(Concat(parts))])
  {
    hide CompleteLines, HasDone, BeforeDone, TurnOfLines;
    if parts != [] {
      ChunkingIsInvisible(parse, parts[1..]);
    }
    OneChunk(Concat(parts));
  }

  lemma OneChunk(text: string)
    ensures Delivered([Chunk(text)]) == text && FirstError([Chunk(text)]).None?
  {
    assert Delivered([Chunk(text)]) == text + Delivered([]);
    assert FirstError([Chunk(text)]) == FirstError([]);
  }

  /** Text after the last newline has no effect: without an error the turn is
      that of the complete lines alone. */
  lemma UnterminatedLineIgnored(parse: string -> Frame, items: seq<Item>)
    requires FirstError(items).None?
    ensures BatchTurn(parse, items) == BatchTurn(parse, [Chunk(Concat(CompleteLines(Delivered(items))))])
  {
    hide CompleteLines, Remainder, HasDone, BeforeDone, Concat;
    var lines := CompleteLines(Delivered(items));
    OneChunk(Concat(lines));
    LinesOfWhole(lines, "");
    NoNewlineNoLines("");
    assert Concat(lines) + "" == Concat(lines);
    assert lines + [] == lines;
  }

  /** Once a `[DONE]` line is complete, later chunks and errors are not read. */
  lemma DoneStopsReading(parse: string -> Frame, items: seq<Item>, later: seq<Item>)
    requires FirstError(items).None? && HasDone(CompleteLines(Delivered(items)))
    ensures BatchTurn(parse, items + later) == BatchTurn(parse, items)
    ensures BatchTurn(parse, items).Ok?
  {
    DeliveredAppend(items, later);
    DoneIsFinal(Delivered(items), Delivered(later));
  }

  /** The payload of a line: what follows `data:`, without the white space around
      it. Other lines have none. */
  lemma PayloadExactly(line: string)
    ensures forall before: string, data: string, after: string |
              line == "data:" + (before + data + after) && AllWhite(before) && AllWhite(after) && IsTrimmed(data) ::
              Payload(line) == data
    ensures !Extends(line, "data:") ==> Payload(line) == ""
  {
    hide Trim, IsWhite, IsTrimmed, AllWhite, Extends;
    var after := TrimEndExactly(line);
    PrefixExactly(TrimEnd(line), "data:");
    PrefixExactly(line, "data:");
    assert HasPrefix(TrimEnd(line), "data:") ==> HasPrefix(line, "data:");
    forall before: string, data: string, after: string |
        line == "data:" + (before + data + after) && AllWhite(before) && AllWhite(after) && IsTrimmed(data)
      ensures Payload(line) == data
    {
      DataPayload(before, data, after);
    }
  }

  lemma DataPayload(before: string, data: string, after: string)
    requires AllWhite(before) && AllWhite(after) && IsTrimmed(data)
    ensures Payload("data:" + (before + data + after)) == data
  {
    hide IsTrimmed, AllWhite, Trim;
    var rest := before + data + after;
    var line := "data:" + rest;
    ColonStays(rest);
    assert TrimEnd(line)[5..] == TrimEnd(rest);
    TrimTwice(rest);
    TrimUndoes(before, data, after);
  }

  lemma {:induction false} ColonStays(rest: string)
    ensures TrimEnd("data:" + rest) == "data:" + TrimEnd(rest)
  {
    var line := "data:" + rest;
    if rest == "" {
      assert line == "data:";
    } else {
      assert line[..|line| - 1] == "data:" + rest[..|rest| - 1];
      ColonStays(rest[..|rest| - 1]);
    }
  }

  // ---- What a server's stream means ----------------------------------------

  /** A line as a server may write it: data with white space around it, or a line
      of another kind. */
  datatype Sent = DataLine(before: string, data: string, after: string) | OtherLine(text: string)
  {
    function Line(): string {
      if DataLine? then "data:" + (before + data + after) + [NEWLINE] else text + [NEWLINE]
    }

    ghost predicate Proper() {
      && NEWLINE !in Line()[..|Line()| - 1]
      && if DataLine? then AllWhite(before) && AllWhite(after) && IsTrimmed(data) && data != DONE
         else !Extends(Line(), "data:")
    }
  }

  function LinesOf(sents: seq<Sent>): (lines: seq<string>)
    ensures |lines| == |sents|
  {
    seq(|sents|, i requires 0 <= i < |sents| => sents[i].Line())
  }

  /** The nonempty data, decoded, in order. */
  function Decodes(parse: string -> Frame, sents: seq<Sent>): seq<Frame> {
    if sents == [] then []
    else (if sents[0].DataLine? && sents[0].data != "" then [parse(sents[0].data)] else []) + Decodes(parse, sents[1..])
  }

  lemma SentPayload(sent: Sent)
    requires sent.Proper()
    ensures IsLine(sent.Line()) && !IsDone(sent.Line())
    ensures Payload(sent.Line()) == if sent.DataLine? then sent.data else ""
  {
    var line := sent.Line();
    hide Payload, IsTrimmed;
    PayloadExactly(line);
    if sent.DataLine? {
      WhiteTogether(sent.after, [NEWLINE]);
      assert line == "data:" + (sent.before + sent.data + (sent.after + [NEWLINE]));
    }
  }

  lemma {:induction false} SentFrames(parse: string -> Frame, sents: seq<Sent>)
    requires forall i | 0 <= i < |sents| :: sents[i].Proper()
    ensures Frames(parse, LinesOf(sents)) == Decodes(parse, sents)
    ensures forall line | line in LinesOf(sents) :: IsLine(line) && !IsDone(line)
  {
    hide Payload, IsDone, IsLine, Sent.Proper, Sent.Line;
    if sents != [] {
      SentPayload(sents[0]);
      SentFrames(parse, sents[1..]);
      assert LinesOf(sents) == [sents[0].Line()] + LinesOf(sents[1..]);
    }
  }

  lemma DoneLine()
    ensures IsLine("data: [DONE]\n") && IsDone("data: [DONE]\n")
  {
    var line := "data: [DONE]\n";
    assert line[|line| - 1] == NEWLINE && NEWLINE !in line[..|line| - 1];
    hide Payload;
    PayloadExactly(line);
    assert line == "data:" + (" " + "[DONE]" + "\n");
    assert AllWhite(" ") && AllWhite("\n") && IsTrimmed("[DONE]");
  }

  /** What a stream means, from the text alone: the turn of its data lines, up to
      the `[DONE]` line if there is one. An open last line does not count, and
      without a `[DONE]` line an error ends the turn. */
  lemma StreamMeans(parse: string -> Frame, sents: seq<Sent>, tail: string, items: seq<Item>)
    requires forall i | 0 <= i < |sents| :: sents[i].Proper()
    requires Delivered(items) == Concat(LinesOf(sents)) + tail
    ensures var turn := Finish(ApplyFrames(EMPTY, Decodes(parse, sents)));
            && (Extends(tail, "data: [DONE]\n") ==> BatchTurn(parse, items) == Ok(turn))
            && (NEWLINE !in tail ==>
                  BatchTurn(parse, items)
                  == if FirstError(items).Some? then Err(FirstError(items).value) else Ok(turn))
  {
    hide Finish, ApplyFrames, Decodes, Concat, CompleteLines, Remainder, IsDone, IsLine, HasDone, BeforeDone, Frames,
         FirstError, Delivered, LinesOf;
    var lines := LinesOf(sents);
    SentFrames(parse, sents);
    LinesOfWhole(lines, tail);
    NoneIsDone(lines);
    HasDoneAppend(lines, CompleteLines(tail));
    BeforeDoneAppend(lines, CompleteLines(tail));
    if NEWLINE !in tail {
      NoNewlineNoLines(tail);
      NothingDone();
      assert lines + [] == lines;
    }
    if Extends(tail, "data: [DONE]\n") {
      var later: string :| tail == "data: [DONE]\n" + later;
      DoneLine();
      FirstLine("data: [DONE]\n", later);
      HasDoneCons("data: [DONE]\n", CompleteLines(later));
      BeforeDoneCons("data: [DONE]\n", CompleteLines(later));
      assert lines + [] == lines;
    }
  }

  lemma NoneIsDone(lines: seq<string>)
    requires forall line | line in lines :: !IsDone(line)
    ensures !HasDone(lines)
  {
  }

  // ---- The texts of a turn -------------------------------------------------

  function Listed(text: Option<string>): seq<string> {
    if text.Some? then [text.value] else []
  }

  /** What one frame gives: the finish reason needs no delta. */
  function ContentIn(frame: Frame): seq<string> {
    if frame.Choice? && frame.delta.Some? then Listed(frame.delta.value.content) else []
  }

  function ReasoningIn(frame: Frame): seq<string> {
    if frame.Choice? && frame.delta.Some? then Listed(frame.delta.value.reasoning) else []
  }

  function FinishIn(frame: Frame): seq<string> {
    if frame.Choice? then Listed(frame.finish) else []
  }

  /** What all the frames give, in order. */
  function ContentsOf(frames: seq<Frame>): seq<string> {
    if frames == [] then [] else ContentIn(frames[0]) + ContentsOf(frames[1..])
  }

  function ReasoningsOf(frames: seq<Frame>): seq<string> {
    if frames == [] then [] else ReasoningIn(frames[0]) + ReasoningsOf(frames[1..])
  }

  function FinishesOf(frames: seq<Frame>): seq<string> {
    if frames == [] then [] else FinishIn(frames[0]) + FinishesOf(frames[1..])
  }

  /** Text so far with more parts joined to it; without any there is still none. */
  function Joined(before: Option<string>, parts: seq<string>): Option<string> {
    if before.None? && parts == [] then None else Some(OrEmpty(before) + Concat(parts))
  }

  lemma JoinedTwice(before: Option<string>, x: seq<string>, y: seq<string>)
    ensures Joined(before, x + y) == Joined(Joined(before, x), y)
  {
    ConcatAppend(x, y);
    hide Concat;
    assert OrEmpty(before) + Concat(x) + Concat(y) == OrEmpty(before) + (Concat(x) + Concat(y));
    if before.None? && x == [] {
      assert x + y == y;
    }
  }

  lemma JoinedNone(before: Option<string>)
    ensures Joined(before, []) == before
  {
    assert OrEmpty(before) + "" == OrEmpty(before);
  }

  lemma FrameTexts(st: Assembly, frame: Frame)
    ensures Some(ApplyFrame(st, frame).content) == Joined(Some(st.content), ContentIn(frame))
    ensures ApplyFrame(st, frame).reasoning == Joined(st.reasoning, ReasoningIn(frame))
  {
    hide ApplyFragments;
    JoinedNone(Some(st.content));
    JoinedNone(st.reasoning);
    if frame.Choice? && frame.delta.Some? {
      var d := frame.delta.value;
      ConcatSingle(OrEmpty(d.content));
      ConcatSingle(OrEmpty(d.reasoning));
      assert st.content + "" == st.content;
    }
  }

  lemma {:induction false} TextsOfFrames(st: Assembly, frames: seq<Frame>)
    ensures Some(ApplyFrames(st, frames).content) == Joined(Some(st.content), ContentsOf(frames))
    ensures ApplyFrames(st, frames).reasoning == Joined(st.reasoning, ReasoningsOf(frames))
    decreases |frames|
  {
    hide Joined, ApplyFrame, ContentIn, ReasoningIn;
    if frames == [] {
      JoinedNone(Some(st.content));
      JoinedNone(st.reasoning);
    } else {
      var frame, rest := frames[0], frames[1..];
      FrameTexts(st, frame);
      TextsOfFrames(ApplyFrame(st, frame), rest);
      JoinedTwice(Some(st.content), ContentIn(frame), ContentsOf(rest));
      JoinedTwice(st.reasoning, ReasoningIn(frame), ReasoningsOf(rest));
    }
  }

  lemma {:induction false} FinishOfFrames(st: Assembly, frames: seq<Frame>)
    ensures var reasons := FinishesOf(frames);
            ApplyFrames(st, frames).finish == if reasons == [] then st.finish else Some(reasons[|reasons| - 1])
    decreases |frames|
  {
    hide ApplyFragments;
    if frames != [] {
      FinishOfFrames(ApplyFrame(st, frames[0]), frames[1..]);
    }
  }

  /** The content of a turn is all its content deltas joined in order; it has
      reasoning exactly when a delta had some, and then all of it joined; and its
      finish reason is the last one given. */
  lemma TextsOfTurn(frames: seq<Frame>)
    ensures var turn := Finish(ApplyFrames(EMPTY, frames));
            var thoughts, reasons := ReasoningsOf(frames), FinishesOf(frames);
            && turn.content == Concat(ContentsOf(frames))
            && turn.reasoning == (if thoughts == [] then None else Some(Concat(thoughts)))
            && turn.finishReason == (if reasons == [] then None else Some(reasons[|reasons| - 1]))
  {
    hide ApplyFrames, FinalizeFrom, ContentsOf, ReasoningsOf, FinishesOf, Concat;
    TextsOfFrames(EMPTY, frames);
    FinishOfFrames(EMPTY, frames);
    assert "" + Concat(ContentsOf(frames)) == Concat(ContentsOf(frames));
    assert "" + Concat(ReasoningsOf(frames)) == Concat(ReasoningsOf(frames));
  }

  // ---- Reassembly by index -------------------------------------------------

  function FragmentsOf(frames: seq<Frame>): seq<Fragment> {
    if frames == [] then []
    else
      (if frames[0].Choice? && frames[0].delta.Some? then frames[0].delta.value.fragments else [])
      + FragmentsOf(frames[1..])
  }

  /** The fragments of one index, in arrival order. */
  function At(fs: seq<Fragment>, i: nat): seq<Fragment> {
    if fs == [] then [] else (if fs[0].index == i then [fs[0]] else []) + At(fs[1..], i)
  }

  function Names(fs: seq<Fragment>): string {
    if fs == [] then "" else OrEmpty(fs[0].name) + Names(fs[1..])
  }

  function Arguments(fs: seq<Fragment>): string {
    if fs == [] then "" else OrEmpty(fs[0].arguments) + Arguments(fs[1..])
  }

  function LastId(fs: seq<Fragment>): Option<string> {
    if fs == [] then None
    else if LastId(fs[1..]).Some? then LastId(fs[1..])
    else fs[0].id
  }

  /** The calls that the fragments spell, index by index from `i` up. */
  function Reassembled(fs: seq<Fragment>, i: nat): seq<ToolCall>
    decreases 64 - i
  {
    if i >= 64 then []
    else
      var mine := At(fs, i);
      (if Names(mine) == "" then []
       else [ToolCall(if LastId(mine).Some? then LastId(mine).value else "call_" + Decimal(i),
                      Names(mine), Arguments(mine))])
      + Reassembled(fs, i + 1)
  }

  function Slot(calls: seq<Call>, i: nat): Call {
    if i < |calls| then calls[i] else BLANK_CALL
  }

  function Merged(call: Call, i: nat, mine: seq<Fragment>): Call {
    if mine == [] then call
    else Call(i, if LastId(mine).Some? then LastId(mine) else call.id,
              call.name + Names(mine), call.arguments + Arguments(mine))
  }

  lemma MergedOneMore(call: Call, i: nat, f: Fragment, later: seq<Fragment>)
    requires f.index == i
    ensures Merged(call, i, [f] + later) == Merged(Extend(call, f), i, later)
  {
    assert ([f] + later)[1..] == later;
    assert (call.name + OrEmpty(f.name)) + Names(later) == call.name + (OrEmpty(f.name) + Names(later));
    assert (call.arguments + OrEmpty(f.arguments)) + Arguments(later)
        == call.arguments + (OrEmpty(f.arguments) + Arguments(later));
    assert call.name + OrEmpty(f.name) + "" == call.name + OrEmpty(f.name);
    assert call.arguments + OrEmpty(f.arguments) + "" == call.arguments + OrEmpty(f.arguments);
  }

  lemma MergedIntoBlank(i: nat, mine: seq<Fragment>)
    ensures var c := Merged(BLANK_CALL, i, mine);
            && c.name == Names(mine) && c.arguments == Arguments(mine) && c.id == LastId(mine)
            && (c.name != "" ==> c.index == i)
  {
    assert "" + Names(mine) == Names(mine);
    assert "" + Arguments(mine) == Arguments(mine);
  }

  /** Each slot collects exactly the fragments of its own index. */
  lemma {:induction false} SlotCollects(calls: seq<Call>, fs: seq<Fragment>, i: nat)
    requires |calls| <= MAX_TOOL_CALLS && i < MAX_TOOL_CALLS
    ensures |ApplyFragments(calls, fs)| <= MAX_TOOL_CALLS
    ensures Slot(ApplyFragments(calls, fs), i) == Merged(Slot(calls, i), i, At(fs, i))
    decreases |fs|
  {
    if fs != [] {
      var f := fs[0];
      SlotCollects(ApplyFragment(calls, f), fs[1..], i);
      if f.index == i {
        MergedOneMore(Slot(calls, i), i, f, At(fs[1..], i));
      } else {
        assert At(fs, i) == At(fs[1..], i);
        assert Slot(ApplyFragment(calls, f), i) == Slot(calls, i);
      }
    }
  }

  lemma {:induction false} FinalizeReads(calls: seq<Call>, fs: seq<Fragment>, i: nat)
    requires i <= |calls| <= MAX_TOOL_CALLS
    requires forall k | 0 <= k < MAX_TOOL_CALLS :: Slot(calls, k) == Merged(BLANK_CALL, k, At(fs, k))
    ensures FinalizeFrom(calls, i) == Reassembled(fs, i)
    decreases |calls| - i
  {
    if i < |calls| {
      assert calls[i] == Slot(calls, i);
      MergedIntoBlank(i, At(fs, i));
      FinalizeReads(calls, fs, i + 1);
    } else {
      NothingBeyond(calls, fs, i);
    }
  }

  lemma {:induction false} NothingBeyond(calls: seq<Call>, fs: seq<Fragment>, i: nat)
    requires |calls| <= i
    requires forall k | 0 <= k < MAX_TOOL_CALLS :: Slot(calls, k) == Merged(BLANK_CALL, k, At(fs, k))
    ensures Reassembled(fs, i) == []
    decreases MAX_TOOL_CALLS - i
  {
    if i < MAX_TOOL_CALLS {
      assert Slot(calls, i) == BLANK_CALL;
      NothingBeyond(calls, fs, i + 1);
    }
  }

  lemma {:induction false} ApplyFragmentsAppend(calls: seq<Call>, a: seq<Fragment>, b: seq<Fragment>)
    ensures ApplyFragments(calls, a + b) == ApplyFragments(ApplyFragments(calls, a), b)
    decreases |a|
  {
    if a == [] {
      assert a + b == b;
    } else {
      assert (a + b)[1..] == a[1..] + b;
      ApplyFragmentsAppend(ApplyFragment(calls, a[0]), a[1..], b);
    }
  }

  lemma {:induction false} CallsOfFrames(st: Assembly, frames: seq<Frame>)
    ensures ApplyFrames(st, frames).calls == ApplyFragments(st.calls, FragmentsOf(frames))
    decreases |frames|
  {
    if frames != [] {
      CallsOfFrames(ApplyFrame(st, frames[0]), frames[1..]);
      var own := if frames[0].Choice? && frames[0].delta.Some? then frames[0].delta.value.fragments else [];
      ApplyFragmentsAppend(st.calls, own, FragmentsOf(frames[1..]));
    }
  }

  /** The finalized calls are, in ascending index below 64, exactly the indices
      with a nonempty name; each carries its own fragments joined in order and
      the last id given, or `call_i`. */
  lemma ReassemblyByIndex(frames: seq<Frame>)
    ensures Finish(ApplyFrames(EMPTY, frames)).toolCalls == Reassembled(FragmentsOf(frames), 0)
  {
    var fs := FragmentsOf(frames);
    CallsOfFrames(EMPTY, frames);
    var calls := ApplyFragments([], fs);
    forall k | 0 <= k < MAX_TOOL_CALLS
      ensures |calls| <= MAX_TOOL_CALLS && Slot(calls, k) == Merged(BLANK_CALL, k, At(fs, k))
    {
      SlotCollects([], fs, k);
    }
    assert Slot(calls, 0) == Merged(BLANK_CALL, 0, At(fs, 0));
    FinalizeReads(calls, fs, 0);
  }

  lemma AtEmpty(i: nat)
    ensures At([], i) == []
  {
  }

  lemma AtCons(f: Fragment, fs: seq<Fragment>, i: nat)
    ensures At([f] + fs, i) == At([f], i) + At(fs, i)
  {
    assert ([f] + fs)[1..] == fs;
    assert At([f], i) == (if f.index == i then [f] else []) + At([], i);
  }

  lemma Reassociate<T>(x: seq<T>, y: seq<T>, z: seq<T>)
    ensures (x + y) + z == x + (y + z)
  {
  }

  lemma {:induction false} AtAppend(a: seq<Fragment>, b: seq<Fragment>, i: nat)
    ensures At(a + b, i) == At(a, i) + At(b, i)
  {
    hide At;
    if a == [] {
      AtEmpty(i);
      assert a + b == b;
    } else {
      AtAppend(a[1..], b, i);
      AtCons(a[0], a[1..] + b, i);
      AtCons(a[0], a[1..], i);
      assert a + b == [a[0]] + (a[1..] + b) && a == [a[0]] + a[1..];
      Reassociate(At([a[0]], i), At(a[1..], i), At(b, i));
    }
  }

  /** Only the order within each index counts: any two interleavings of the same
      fragments per index give the same calls. */
  lemma {:induction false} SameProjections(fs: seq<Fragment>, gs: seq<Fragment>, i: nat)
    requires forall k | 0 <= k < MAX_TOOL_CALLS :: At(fs, k) == At(gs, k)
    ensures Reassembled(fs, i) == Reassembled(gs, i)
    decreases MAX_TOOL_CALLS - i
  {
    if i < MAX_TOOL_CALLS {
      assert At(fs, i) == At(gs, i);
      SameProjections(fs, gs, i + 1);
    }
  }

  lemma AtPair(f: Fragment, g: Fragment, i: nat)
    requires f.index != g.index
    ensures At([f, g], i) == if f.index == i then [f] else if g.index == i then [g] else []
  {
    assert At([f, g], i) == (if f.index == i then [f] else []) + At([g], i);
    assert At([g], i) == (if g.index == i then [g] else []) + At([], i);
  }

  /** Fragments of different indices may arrive in either order. */
  lemma IndicesAreIndependent(a: seq<Fragment>, f: Fragment, g: Fragment, b: seq<Fragment>)
    requires f.index != g.index
    ensures Reassembled(a + [f, g] + b, 0) == Reassembled(a + [g, f] + b, 0)
  {
    forall k | 0 <= k < MAX_TOOL_CALLS
      ensures At(a + [f, g] + b, k) == At(a + [g, f] + b, k)
    {
      AtAppend(a + [f, g], b, k);
      AtAppend(a, [f, g], k);
      AtAppend(a + [g, f], b, k);
      AtAppend(a, [g, f], k);
      AtPair(f, g, k);
      AtPair(g, f, k);
    }
    SameProjections(a + [f, g] + b, a + [g, f] + b, 0);
  }
}

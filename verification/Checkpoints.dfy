/** What a checkpoint keeps of a running task, and what a resume makes of it. */
module Checkpoints {
  import opened Wrappers
  import opened Messages
  import opened AgentLoop
  import opened Conversation

  datatype SessionStatus = Running | Suspended | Complete | Failed | Killed

  /** The fixed identity of a task's session. */
  datatype Handle = Handle(tenant: string, taskId: string, parentTaskId: Option<string>, startedAt: nat)

  datatype Checkpoint = Checkpoint(handle: Handle, prompt: string, status: SessionStatus,
                                   conversation: seq<Message>, guard: Guard, stepsUsed: nat,
                                   finalAnswer: Option<string>)

  // ---- Saving --------------------------------------------------------------

  function StripCalls(strip: string -> string, calls: seq<ToolCall>): seq<ToolCall> {
    seq(|calls|, i requires 0 <= i < |calls| => calls[i].(arguments := strip(calls[i].arguments)))
  }

  function StripMessage(strip: string -> string, m: Message): Message {
    m.(content := strip(m.content), toolCalls := StripCalls(strip, m.toolCalls))
  }

  /** The stored messages: no system message, every text stripped. */
  function Stored(strip: string -> string, conv: seq<Message>): seq<Message> {
    if conv == [] then []
    else (if conv[0].role == System then [] else [StripMessage(strip, conv[0])]) + Stored(strip, conv[1..])
  }

  function StripOption(strip: string -> string, text: Option<string>): Option<string> {
    if text.Some? then Some(strip(text.value)) else None
  }

  function MakeCheckpoint(strip: string -> string, h: Handle, status: SessionStatus, prompt: string,
                          conv: seq<Message>, g: Guard, stepsUsed: nat, answer: Option<string>): Checkpoint
  {
    Checkpoint(h, strip(prompt), status, Stored(strip, conv),
               g.(lastGood := StripOption(strip, g.lastGood)), stepsUsed, StripOption(strip, answer))
  }

  // ---- Resuming ------------------------------------------------------------

  datatype Resumed = Resumed(p: Prompts, conv: seq<Message>, g: Guard, stepsUsed: nat)

  /** The current system prompt goes back in front; the stored prompt serves as
      both prompts, for it is already stripped. */
  function Restore(systemPrompt: string, cp: Checkpoint): Resumed {
    Resumed(Prompts(cp.prompt, cp.prompt), [SystemMessage(systemPrompt)] + cp.conversation,
            cp.guard, cp.stepsUsed)
  }

  // ---- What survives -------------------------------------------------------

  ghost predicate CleanMessage(strip: string -> string, m: Message) {
    && strip(m.content) == m.content
    && forall i | 0 <= i < |m.toolCalls| :: strip(m.toolCalls[i].arguments) == m.toolCalls[i].arguments
  }

  ghost predicate CleanMessages(strip: string -> string, ms: seq<Message>) {
    forall i | 0 <= i < |ms| :: CleanMessage(strip, ms[i])
  }

  lemma StripFixesClean(strip: string -> string, m: Message)
    ensures StripMessage(strip, m) == m <==> CleanMessage(strip, m)
  {
    var m' := StripMessage(strip, m);
    assert |m'.toolCalls| == |m.toolCalls|;
    assert forall i | 0 <= i < |m.toolCalls| ::
        m'.toolCalls[i] == m.toolCalls[i].(arguments := strip(m.toolCalls[i].arguments));
    if m' == m {
      forall i | 0 <= i < |m.toolCalls|
        ensures strip(m.toolCalls[i].arguments) == m.toolCalls[i].arguments
      {
        assert m'.toolCalls[i] == m.toolCalls[i];
      }
    }
  }

  /** Without a system message the stored messages are the messages, stripped. */
  lemma {:induction false} StoredIsMap(strip: string -> string, ms: seq<Message>)
    requires forall i | 0 <= i < |ms| :: ms[i].role != System
    ensures |Stored(strip, ms)| == |ms|
    ensures forall i | 0 <= i < |ms| :: Stored(strip, ms)[i] == StripMessage(strip, ms[i])
  {
    hide StripMessage;
    if ms != [] {
      StoredIsMap(strip, ms[1..]);
      assert Stored(strip, ms) == [StripMessage(strip, ms[0])] + Stored(strip, ms[1..]);
    }
  }

  lemma StoredTail(strip: string -> string, conv: seq<Message>)
    requires Shape(conv)
    ensures Stored(strip, conv) == Stored(strip, conv[1..])
    ensures |Stored(strip, conv)| == |conv| - 1
    ensures forall i | 0 < i < |conv| :: Stored(strip, conv)[i - 1] == StripMessage(strip, conv[i])
  {
    StoredIsMap(strip, conv[1..]);
    hide StripMessage;
    assert Stored(strip, conv) == [] + Stored(strip, conv[1..]);
    forall i | 0 < i < |conv|
      ensures Stored(strip, conv)[i - 1] == StripMessage(strip, conv[i])
    {
      assert conv[1..][i - 1] == conv[i];
    }
  }

  /** Saving and resuming gives back a conversation exactly when its system
      message is the current one and the strip changes none of its texts. */
  lemma ConversationRoundTrip(strip: string -> string, systemPrompt: string, conv: seq<Message>)
    requires Shape(conv)
    ensures [SystemMessage(systemPrompt)] + Stored(strip, conv) == conv
            <==> conv[0] == SystemMessage(systemPrompt) && CleanMessages(strip, conv[1..])
  {
    hide CleanMessage, Stored, StripMessage;
    StoredTail(strip, conv);
    var stored, tail := Stored(strip, conv), conv[1..];
    forall i | 0 <= i < |tail|
      ensures stored[i] == tail[i] <==> CleanMessage(strip, tail[i])
    {
      StripFixesClean(strip, conv[i + 1]);
    }
    SameElements(strip, stored, tail);
    assert conv == [conv[0]] + tail;
    ConsEqual(SystemMessage(systemPrompt), stored, conv[0], tail);
  }

  lemma SameElements(strip: string -> string, stored: seq<Message>, tail: seq<Message>)
    requires |stored| == |tail|
    requires forall i | 0 <= i < |tail| :: stored[i] == tail[i] <==> CleanMessage(strip, tail[i])
    ensures stored == tail <==> CleanMessages(strip, tail)
  {
    hide CleanMessage;
  }

  lemma ConsEqual<T>(x: T, xs: seq<T>, y: T, ys: seq<T>)
    ensures [x] + xs == [y] + ys <==> x == y && xs == ys
  {
    if [x] + xs == [y] + ys {
      assert ([x] + xs)[0] == ([y] + ys)[0];
      assert ([x] + xs)[1..] == ([y] + ys)[1..];
      assert ([x] + xs)[1..] == xs && ([y] + ys)[1..] == ys;
    }
  }

  /** The whole of a saved state comes back exactly when the task is clean. */
  lemma ResumeRestoresExactly(strip: string -> string, systemPrompt: string, h: Handle, p: Prompts,
                              conv: seq<Message>, g: Guard, stepsUsed: nat)
    requires Shape(conv)
    ensures Restore(systemPrompt, MakeCheckpoint(strip, h, Running, p.prompt, conv, g, stepsUsed, None))
              == Resumed(p, conv, g, stepsUsed)
            <==> && conv[0] == SystemMessage(systemPrompt) && CleanMessages(strip, conv[1..])
                 && strip(p.prompt) == p.prompt && p.safe == p.prompt
                 && (g.lastGood.Some? ==> strip(g.lastGood.value) == g.lastGood.value)
  {
    ConversationRoundTrip(strip, systemPrompt, conv);
    hide Stored, CleanMessages;
    var g' := g.(lastGood := StripOption(strip, g.lastGood));
    assert g' == g <==> (g.lastGood.Some? ==> strip(g.lastGood.value) == g.lastGood.value);
  }

  /** Whatever the strip does to the texts, a resumed conversation is as good as
      the saved one. */
  lemma ResumeKeepsGood(strip: string -> string, systemPrompt: string, conv: seq<Message>)
    requires Good(conv)
    ensures Good([SystemMessage(systemPrompt)] + Stored(strip, conv))
    ensures |[SystemMessage(systemPrompt)] + Stored(strip, conv)| == |conv|
  {
    StoredTail(strip, conv);
    var back := [SystemMessage(systemPrompt)] + Stored(strip, conv);
    forall i | 0 <= i < |conv|
      ensures SameSkeleton(conv[i], back[i])
    {
      if i > 0 {
        assert back[i] == StripMessage(strip, conv[i]);
        StripKeepsSkeleton(strip, conv[i]);
      }
    }
    hide Good, Stored, SameSkeleton;
    SkeletonIsEnough(conv, back);
  }

  lemma StripKeepsSkeleton(strip: string -> string, m: Message)
    ensures SameSkeleton(m, StripMessage(strip, m))
  {
  }

  lemma ResumeKeepsToolCount(strip: string -> string, systemPrompt: string, conv: seq<Message>)
    requires Shape(conv)
    ensures ToolCount([SystemMessage(systemPrompt)] + Stored(strip, conv)) == ToolCount(conv)
  {
    StoredTail(strip, conv);
    SameRoles(conv, [SystemMessage(systemPrompt)] + Stored(strip, conv));
  }

  lemma {:induction false} SameRoles(xs: seq<Message>, ys: seq<Message>)
    requires |xs| == |ys| && forall i | 0 <= i < |xs| :: xs[i].role == ys[i].role
    ensures ToolCount(xs) == ToolCount(ys)
    decreases |xs|
  {
    if xs != [] {
      SameRoles(xs[..|xs| - 1], ys[..|ys| - 1]);
    }
  }
}

/**
  The token-stream normaliser of biz/domain/deyu/deyu.go.

  Both stream loops (`process` for the chat-completion API, `cozeProcess` for the bot platform)
  run one state machine over the raw content tokens: a state of (current category, pass), where
  `pass` means "swallow the next blank-line separator". Each token either switches category on a
  marker, is swallowed as that separator, or is re-emitted as a message whose content is the
  encoded `RefineContent` (only the current category's field set) and whose `Extra` records the
  category and the raw token.

  `Step` is that decision for one token, `Run` folds it over a whole upstream and adds the
  terminal error; `Process` and `CozeProcess` are the loops, proved to send exactly what `Run`
  (resp. `CozeRun`) says.
 */
module Normaliser {
  import opened Wrappers
  import opened Schema

  /** The separator the upstream emits after a marker. */
  const Blank: string := "\n\n"

  /**
    The four marker tokens (`cst.ThinkStart`, `cst.ThinkEnd`, `cst.SuggestStart`,
    `cst.SuggestEnd`). Their literal values are configuration of the program, so the model takes
    them as a parameter; `Valid` says what the loops rely on: they are distinct cases of one
    `switch` and none of them is the blank separator.
   */
  datatype Markers = Markers(thinkStart: string, thinkEnd: string, suggestStart: string, suggestEnd: string) {

    predicate Valid() {
      && thinkStart != thinkEnd && thinkStart != suggestStart && thinkStart != suggestEnd
      && thinkEnd != suggestStart && thinkEnd != suggestEnd && suggestStart != suggestEnd
      && thinkStart != Blank && thinkEnd != Blank && suggestStart != Blank && suggestEnd != Blank
    }

    predicate IsMarker(t: string) {
      t == thinkStart || t == thinkEnd || t == suggestStart || t == suggestEnd
    }

    /** The category a marker switches to: a start marker opens its section, an end marker closes any. */
    function Target(t: string): Category
      requires IsMarker(t)
    {
      if t == thinkStart then Think else if t == suggestStart then Suggest else Text
    }
  }

  /** The loop's local state: `status` and `pass`. */
  datatype State = State(status: Category, pass: bool)

  /** Both loops start in plain text with nothing to swallow. */
  const Initial: State := State(Text, false)

  /** The normalised payload: one field per category. */
  datatype RefineContent = RefineContent(text: string, think: string, suggest: string)

  function FieldOf(r: RefineContent, c: Category): string {
    match c
    case Text => r.text
    case Think => r.think
    case Suggest => r.suggest
  }

  /** `refine` as the loops fill it: only the current category's field holds the token. */
  function Refine(c: Category, token: string): (r: RefineContent)
    ensures FieldOf(r, c) == token
    ensures forall d: Category :: d != c ==> FieldOf(r, d) == ""
  {
    match c
    case Text => RefineContent(token, "", "")
    case Think => RefineContent("", token, "")
    case Suggest => RefineContent("", "", token)
  }

  /** `json.Marshal`, abstract: `None` is a marshalling failure. */
  type Encoder = RefineContent -> Option<string>

  /** The message sent for a content token: encoded payload, category and raw token in `Extra`. */
  function Retag(msg: Message, data: string, c: Category): (m: Message)
    ensures m.content == data && m.extra == Tagged(c, msg.content)
    ensures m.role == msg.role && m.reasoningContent == msg.reasoningContent && m.name == msg.name
  {
    msg.(content := data, extra := Tagged(c, msg.content))
  }

  /** What one token does: the next state and at most one message to send. */
  datatype StepResult = StepResult(next: State, out: Option<Message>)

  /**
    One iteration of `process`. Something is sent only for a token that is neither a marker nor
    a swallowed separator, and sending never changes the state.
   */
  function Step(mk: Markers, enc: Encoder, s: State, msg: Message): (r: StepResult)
    ensures r.out.Some? ==> r.next == s && !mk.IsMarker(msg.content) && !(s.pass && msg.content == Blank)
  {
    if s.pass && msg.content == Blank then StepResult(State(s.status, false), None)
    else if msg.content == mk.thinkStart then StepResult(State(Think, true), None)
    else if msg.content == mk.suggestStart then StepResult(State(Suggest, true), None)
    else if msg.content == mk.thinkEnd || msg.content == mk.suggestEnd then StepResult(State(Text, true), None)
    else match enc(Refine(s.status, msg.content))
      case None => StepResult(s, None)
      case Some(data) => StepResult(s, Some(Retag(msg, data, s.status)))
  }

  // ---------------------------------------------------------------------------------------------
  // The step, case by case

  /** A marker sets the category it names, sets `pass`, and sends nothing, whatever the state. */
  lemma StepOnMarker(mk: Markers, enc: Encoder, s: State, msg: Message)
    requires mk.Valid() && mk.IsMarker(msg.content)
    ensures Step(mk, enc, s, msg) == StepResult(State(mk.Target(msg.content), true), None)
  {
  }

  /** With `pass` set, a blank separator is dropped and `pass` cleared; the category stays. */
  lemma StepSwallowsBlank(mk: Markers, enc: Encoder, s: State, msg: Message)
    requires s.pass && msg.content == Blank
    ensures Step(mk, enc, s, msg) == StepResult(State(s.status, false), None)
  {
  }

  /**
    `pass` is cleared only by consuming a blank separator, and set only by a marker; any other
    token leaves the state as it is.
   */
  lemma StepPassDiscipline(mk: Markers, enc: Encoder, s: State, msg: Message)
    requires mk.Valid()
    ensures var r := Step(mk, enc, s, msg);
      && (s.pass && !r.next.pass <==> s.pass && msg.content == Blank)
      && (r.next.pass && !s.pass ==> mk.IsMarker(msg.content))
      && (!mk.IsMarker(msg.content) && !(s.pass && msg.content == Blank) ==> r.next == s)
  {
  }

  /**
    Any other token (including a blank separator while `pass` is clear) is sent once, if it
    encodes: the payload is the encoding of the refine content for the current category, `Extra`
    carries that category and the original token, and role, reasoning and name are untouched.
   */
  lemma StepOnContent(mk: Markers, enc: Encoder, s: State, msg: Message)
    requires mk.Valid()
    requires !mk.IsMarker(msg.content) && !(s.pass && msg.content == Blank)
    ensures var r := Step(mk, enc, s, msg);
      && r.next == s
      && (r.out.Some? <==> enc(Refine(s.status, msg.content)).Some?)
      && (r.out.Some? ==>
            && r.out.value.content == enc(Refine(s.status, msg.content)).value
            && r.out.value.extra == Tagged(s.status, msg.content)
            && FieldOf(Refine(s.status, msg.content), s.status) == msg.content
            && r.out.value.role == msg.role
            && r.out.value.reasoningContent == msg.reasoningContent
            && r.out.value.name == msg.name)
  {
  }

  // ---------------------------------------------------------------------------------------------
  // The loop over a whole upstream

  /** A finite upstream: the messages `Recv` returns, then the error that ends the stream. */
  datatype Upstream = Upstream(msgs: seq<Message>, end: UpstreamError)

  /** What the writer end of the pipe receives: a message, or the terminal `(nil, err)`. */
  datatype Item = Data(msg: Message) | Failed(err: UpstreamError)

  function Emit(o: Option<Message>): seq<Item> {
    if o.Some? then [Data(o.value)] else []
  }

  /**
    Cancellation: `Some(k)` means `ctx.Done()` is ready when the loop starts its iteration k
    (counting from 0) and from then on; `None` means it never is.
   */
  function Tick(cancelAfter: Option<nat>): Option<nat> {
    if cancelAfter.Some? && cancelAfter.value > 0 then Some(cancelAfter.value - 1) else cancelAfter
  }

  /** Everything the loop sends, from state `s`, over the remaining reads. */
  function Run(mk: Markers, enc: Encoder, s: State, msgs: seq<Message>, end: UpstreamError,
               cancelAfter: Option<nat>): seq<Item>
    decreases |msgs|
  {
    if cancelAfter == Some(0) then []
    else if msgs == [] then [Failed(end)]
    else
      var r := Step(mk, enc, s, msgs[0]);
      Emit(r.out) + Run(mk, enc, r.next, msgs[1..], end, Tick(cancelAfter))
  }

  /**
    One iteration of the loop of `Process` keeps its invariant: what was sent, what this message
    sends and what the rest of the stream will send make up the whole run.
   */
  lemma RunAdvance(mk: Markers, enc: Encoder, s: State, msgs: seq<Message>, i: nat,
                   end: UpstreamError, cancel: Option<nat>, sent: seq<Item>, total: seq<Item>)
    requires i < |msgs| && cancel != Some(0)
    requires sent + Run(mk, enc, s, msgs[i..], end, cancel) == total
    ensures var r := Step(mk, enc, s, msgs[i]);
      sent + Emit(r.out) + Run(mk, enc, r.next, msgs[i + 1..], end, Tick(cancel)) == total
  {
    assert msgs[i..][0] == msgs[i] && msgs[i..][1..] == msgs[i + 1..];
  }

  /**
    `process`: reads until `Recv` fails, feeding each message through the step and sending what
    it yields, then sends the error; returns silently once the context is done.
   */
  method Process(mk: Markers, enc: Encoder, upstream: Upstream, cancelAfter: Option<nat>)
    returns (sent: seq<Item>)
    ensures sent == Run(mk, enc, Initial, upstream.msgs, upstream.end, cancelAfter)
  {
    var msgs := upstream.msgs;
    var state := Initial;
    var i := 0;
    var cancel := cancelAfter;
    sent := [];
    assert msgs[i..] == msgs;
    while true
      invariant 0 <= i <= |msgs|
      invariant sent + Run(mk, enc, state, msgs[i..], upstream.end, cancel)
             == Run(mk, enc, Initial, msgs, upstream.end, cancelAfter)
      decreases |msgs| - i
    {
      if cancel == Some(0) {
        return;
      }
      if i == |msgs| {
        sent := sent + [Failed(upstream.end)];
        return;
      }
      RunAdvance(mk, enc, state, msgs, i, upstream.end, cancel, sent,
                 Run(mk, enc, Initial, msgs, upstream.end, cancelAfter));
      var r := Step(mk, enc, state, msgs[i]);
      state, i, cancel := r.next, i + 1, Tick(cancel);
      if r.out.Some? {
        sent := sent + [Data(r.out.value)];
      }
    }
  }

  // ---------------------------------------------------------------------------------------------
  // Properties of the whole run

  /**
    The error is terminal: at most one `Failed` item is sent, it is the last one and carries the
    upstream's error; without cancellation it is always sent; a context already done at the start
    sends nothing.
   */
  lemma {:induction false} RunEndsWithError(mk: Markers, enc: Encoder, s: State, msgs: seq<Message>,
                                            end: UpstreamError, cancelAfter: Option<nat>)
    ensures var out := Run(mk, enc, s, msgs, end, cancelAfter);
      && (forall i :: 0 <= i < |out| && out[i].Failed? ==> i == |out| - 1 && out[i] == Failed(end))
      && (cancelAfter.None? ==> |out| >= 1 && out[|out| - 1] == Failed(end))
      && (cancelAfter == Some(0) ==> out == [])
    decreases |msgs|
  {
    if cancelAfter != Some(0) && msgs != [] {
      var r := Step(mk, enc, s, msgs[0]);
      RunEndsWithError(mk, enc, r.next, msgs[1..], end, Tick(cancelAfter));
    }
  }

  /** Never more than one item per read, plus the error. */
  lemma {:induction false} RunLength(mk: Markers, enc: Encoder, s: State, msgs: seq<Message>,
                                     end: UpstreamError, cancelAfter: Option<nat>)
    ensures |Run(mk, enc, s, msgs, end, cancelAfter)| <= |msgs| + 1
    decreases |msgs|
  {
    if cancelAfter != Some(0) && msgs != [] {
      var r := Step(mk, enc, s, msgs[0]);
      RunLength(mk, enc, r.next, msgs[1..], end, Tick(cancelAfter));
    }
  }

  /**
    Without markers (and with an encoder that does not fail, as `json.Marshal` of three strings
    does not), every token is sent, in order, as Text, and then the error: nothing is dropped.
   */
  lemma {:induction false} RunWithoutMarkers(mk: Markers, enc: Encoder, msgs: seq<Message>, end: UpstreamError)
    requires forall r :: enc(r).Some?
    requires forall k :: 0 <= k < |msgs| ==> !mk.IsMarker(msgs[k].content)
    ensures var out := Run(mk, enc, Initial, msgs, end, None);
      && |out| == |msgs| + 1
      && out[|msgs|] == Failed(end)
      && forall k :: 0 <= k < |msgs| ==>
           out[k] == Data(Retag(msgs[k], enc(Refine(Text, msgs[k].content)).value, Text))
    decreases |msgs|
  {
    if msgs != [] {
      RunWithoutMarkers(mk, enc, msgs[1..], end);
      var rest := Run(mk, enc, Initial, msgs[1..], end, None);
      var out := Run(mk, enc, Initial, msgs, end, None);
      assert !mk.IsMarker(msgs[0].content);
      assert out == [Data(Retag(msgs[0], enc(Refine(Text, msgs[0].content)).value, Text))] + rest;
      forall k | 1 <= k < |msgs|
        ensures out[k] == Data(Retag(msgs[k], enc(Refine(Text, msgs[k].content)).value, Text))
      {
        assert out[k] == rest[k - 1] && msgs[1..][k - 1] == msgs[k];
      }
    }
  }

  /** A stream of markers alone sends nothing but the terminal error, from any state. */
  lemma {:induction false} RunMarkersOnly(mk: Markers, enc: Encoder, s: State, msgs: seq<Message>, end: UpstreamError)
    requires mk.Valid()
    requires forall k :: 0 <= k < |msgs| ==> mk.IsMarker(msgs[k].content)
    ensures Run(mk, enc, s, msgs, end, None) == [Failed(end)]
    decreases |msgs|
  {
    if msgs != [] {
      StepOnMarker(mk, enc, s, msgs[0]);
      RunMarkersOnly(mk, enc, State(mk.Target(msgs[0].content), true), msgs[1..], end);
    }
  }

  /**
    The worked example: [think-start, blank, a, think-end, blank, b] sends exactly
    Think(a), Text(b) and the error; markers and their separators never appear.
   */
  lemma MarkedSections(mk: Markers, enc: Encoder, m: seq<Message>, end: UpstreamError)
    requires mk.Valid() && forall r :: enc(r).Some?
    requires |m| == 6
    requires m[0].content == mk.thinkStart && m[1].content == Blank && m[3].content == mk.thinkEnd
    requires m[4].content == Blank
    requires !mk.IsMarker(m[2].content) && !mk.IsMarker(m[5].content)
    ensures Run(mk, enc, Initial, m, end, None) ==
      [ Data(Retag(m[2], enc(Refine(Think, m[2].content)).value, Think)),
        Data(Retag(m[5], enc(Refine(Text, m[5].content)).value, Text)),
        Failed(end) ]
  {
    var d2 := Data(Retag(m[2], enc(Refine(Think, m[2].content)).value, Think));
    var d5 := Data(Retag(m[5], enc(Refine(Text, m[5].content)).value, Text));
    assert Run(mk, enc, State(Text, false), m[5..], end, None) == [d5, Failed(end)] by {
      assert m[5..][0] == m[5] && m[5..][1..] == [];
    }
    assert Run(mk, enc, State(Text, true), m[4..], end, None) == [d5, Failed(end)] by {
      assert m[4..][0] == m[4] && m[4..][1..] == m[5..];
    }
    assert Run(mk, enc, State(Think, false), m[3..], end, None) == [d5, Failed(end)] by {
      assert m[3..][0] == m[3] && m[3..][1..] == m[4..];
    }
    assert Run(mk, enc, State(Think, false), m[2..], end, None) == [d2, d5, Failed(end)] by {
      assert m[2..][0] == m[2] && m[2..][1..] == m[3..];
    }
    assert Run(mk, enc, State(Think, true), m[1..], end, None) == [d2, d5, Failed(end)] by {
      assert m[1..][0] == m[1] && m[1..][1..] == m[2..];
    }
  }

  /**
    `pass` survives content: after a marker, the first later blank separator is swallowed even
    when content tokens come between them, so [think-start, x, blank, y] sends Think(x), Think(y).
   */
  lemma SeparatorNeedNotBeAdjacent(mk: Markers, enc: Encoder, m: seq<Message>, end: UpstreamError)
    requires mk.Valid() && forall r :: enc(r).Some?
    requires |m| == 4
    requires m[0].content == mk.thinkStart && m[2].content == Blank
    requires !mk.IsMarker(m[1].content) && m[1].content != Blank && !mk.IsMarker(m[3].content)
    ensures Run(mk, enc, Initial, m, end, None) ==
      [ Data(Retag(m[1], enc(Refine(Think, m[1].content)).value, Think)),
        Data(Retag(m[3], enc(Refine(Think, m[3].content)).value, Think)),
        Failed(end) ]
  {
    var d1 := Data(Retag(m[1], enc(Refine(Think, m[1].content)).value, Think));
    var d3 := Data(Retag(m[3], enc(Refine(Think, m[3].content)).value, Think));
    assert Run(mk, enc, State(Think, false), m[3..], end, None) == [d3, Failed(end)] by {
      assert m[3..][0] == m[3] && m[3..][1..] == [];
    }
    assert Run(mk, enc, State(Think, true), m[2..], end, None) == [d3, Failed(end)] by {
      assert m[2..][0] == m[2] && m[2..][1..] == m[3..];
    }
    assert Run(mk, enc, State(Think, true), m[1..], end, None) == [d1, d3, Failed(end)] by {
      assert m[1..][0] == m[1] && m[1..][1..] == m[2..];
    }
  }

  // ---------------------------------------------------------------------------------------------
  // The bot-platform loop

  /** `c2e`: a bot-platform message as an assistant message carrying its content. */
  function C2E(c: CozeMessage): (m: Message)
    ensures m.role == Assistant && m.content == c.content
    ensures m.reasoningContent == "" && m.name == "" && m.extra == NoExtra
  {
    Message(Assistant, c.content, "", "", NoExtra)
  }

  /** `ce2e`: the event's message, converted; the loop calls it only on events that have one. */
  function CE2E(e: ChatEvent): (m: Message)
    requires e.message.Some?
    ensures m.role == Assistant && m.content == e.message.value.content
  {
    C2E(e.message.value)
  }

  /** Events the bot-platform loop ignores: no message, or not a message delta. */
  predicate Skipped(e: ChatEvent) {
    e.message.None? || e.event != MessageDelta
  }

  /** One iteration of `cozeProcess`. */
  function CozeStep(mk: Markers, enc: Encoder, s: State, e: ChatEvent): StepResult {
    if Skipped(e) then StepResult(s, None) else Step(mk, enc, s, CE2E(e))
  }

  /**
    A skipped event leaves `status` and `pass` as they were and sends nothing; a message delta
    goes through the same step as a chat-completion message with its content.
   */
  lemma CozeStepSkips(mk: Markers, enc: Encoder, s: State, e: ChatEvent)
    ensures Skipped(e) ==> CozeStep(mk, enc, s, e) == StepResult(s, None)
    ensures !Skipped(e) ==> CozeStep(mk, enc, s, e).out.Some? ==>
      CozeStep(mk, enc, s, e).out.value.content == enc(Refine(s.status, e.message.value.content)).value
  {
  }

  function CozeRun(mk: Markers, enc: Encoder, s: State, events: seq<ChatEvent>, end: UpstreamError,
                   cancelAfter: Option<nat>): seq<Item>
    decreases |events|
  {
    if cancelAfter == Some(0) then []
    else if events == [] then [Failed(end)]
    else
      var r := CozeStep(mk, enc, s, events[0]);
      Emit(r.out) + CozeRun(mk, enc, r.next, events[1..], end, Tick(cancelAfter))
  }

  /** The messages the bot-platform loop actually feeds to the state machine. */
  function Deltas(events: seq<ChatEvent>): (msgs: seq<Message>)
    ensures |msgs| <= |events|
  {
    if events == [] then []
    else if Skipped(events[0]) then Deltas(events[1..])
    else [CE2E(events[0])] + Deltas(events[1..])
  }

  /**
    Both loops run the same machine: without cancellation, the bot-platform loop sends exactly
    what the chat-completion loop sends for the message deltas alone.
   */
  lemma {:induction false} CozeRunIsRunOnDeltas(mk: Markers, enc: Encoder, s: State, events: seq<ChatEvent>,
                                                end: UpstreamError)
    ensures CozeRun(mk, enc, s, events, end, None) == Run(mk, enc, s, Deltas(events), end, None)
    decreases |events|
  {
    if events != [] {
      var r := CozeStep(mk, enc, s, events[0]);
      CozeRunIsRunOnDeltas(mk, enc, r.next, events[1..], end);
      if !Skipped(events[0]) {
        var d := Deltas(events);
        assert d[0] == CE2E(events[0]) && d[1..] == Deltas(events[1..]);
      }
    }
  }

  /** When every event is a message delta, the machine sees every event's message, in order. */
  lemma {:induction false} DeltasOfDeltas(events: seq<ChatEvent>)
    requires forall k :: 0 <= k < |events| ==> events[k].message.Some? && events[k].event == MessageDelta
    ensures |Deltas(events)| == |events|
    ensures forall k :: 0 <= k < |events| ==> Deltas(events)[k] == CE2E(events[k])
    decreases |events|
  {
    if events != [] {
      DeltasOfDeltas(events[1..]);
      assert forall k :: 1 <= k < |events| ==> events[1..][k - 1] == events[k];
    }
  }

  /**
    End to end on the bot platform: the deltas think-start, blank, x, think-end, blank, y produce
    exactly {think: x}, {text: y} and then the terminal error.
   */
  lemma BotPlatformMarkedSections(mk: Markers, enc: Encoder, events: seq<ChatEvent>, end: UpstreamError)
    requires mk.Valid() && forall r :: enc(r).Some?
    requires |events| == 6
    requires !Skipped(events[0]) && !Skipped(events[1]) && !Skipped(events[2])
    requires !Skipped(events[3]) && !Skipped(events[4]) && !Skipped(events[5])
    requires events[0].message.value.content == mk.thinkStart
    requires events[1].message.value.content == Blank
    requires events[3].message.value.content == mk.thinkEnd
    requires events[4].message.value.content == Blank
    requires !mk.IsMarker(events[2].message.value.content) && !mk.IsMarker(events[5].message.value.content)
    ensures CozeRun(mk, enc, Initial, events, end, None) ==
      [ Data(Retag(CE2E(events[2]), enc(Refine(Think, events[2].message.value.content)).value, Think)),
        Data(Retag(CE2E(events[5]), enc(Refine(Text, events[5].message.value.content)).value, Text)),
        Failed(end) ]
  {
    CozeRunIsRunOnDeltas(mk, enc, Initial, events, end);
    DeltasOfDeltas(events);
    MarkedSections(mk, enc, Deltas(events), end);
  }

  /**
    One iteration of the loop of `CozeProcess` keeps its invariant: what was sent, what this event
    sends and what the rest of the events will send make up the whole run.
   */
  lemma CozeRunAdvance(mk: Markers, enc: Encoder, s: State, events: seq<ChatEvent>, i: nat,
                       end: UpstreamError, cancel: Option<nat>, sent: seq<Item>, total: seq<Item>)
    requires i < |events| && cancel != Some(0)
    requires sent + CozeRun(mk, enc, s, events[i..], end, cancel) == total
    ensures var r := CozeStep(mk, enc, s, events[i]);
      sent + Emit(r.out) + CozeRun(mk, enc, r.next, events[i + 1..], end, Tick(cancel)) == total
  {
    assert events[i..][0] == events[i] && events[i..][1..] == events[i + 1..];
  }

  /** `cozeProcess`: as `Process`, over bot-platform events, skipping those without content. */
  method CozeProcess(mk: Markers, enc: Encoder, events: seq<ChatEvent>, end: UpstreamError,
                     cancelAfter: Option<nat>)
    returns (sent: seq<Item>)
    ensures sent == CozeRun(mk, enc, Initial, events, end, cancelAfter)
  {
    var state := Initial;
    var i := 0;
    var cancel := cancelAfter;
    sent := [];
    assert events[i..] == events;
    while true
      invariant 0 <= i <= |events|
      invariant sent + CozeRun(mk, enc, state, events[i..], end, cancel)
             == CozeRun(mk, enc, Initial, events, end, cancelAfter)
      decreases |events| - i
    {
      if cancel == Some(0) {
        return;
      }
      if i == |events| {
        sent := sent + [Failed(end)];
        return;
      }
      var event := events[i];
      CozeRunAdvance(mk, enc, state, events, i, end, cancel, sent,
                     CozeRun(mk, enc, Initial, events, end, cancelAfter));
      i, cancel := i + 1, Tick(cancel);
      if Skipped(event) {
        continue;
      }
      var r := Step(mk, enc, state, CE2E(event));
      state := r.next;
      if r.out.Some? {
        sent := sent + [Data(r.out.value)];
      }
    }
  }
}

/**
  The chat model of biz/domain/deyu/deyu.go around the normaliser: which upstream a model name
  uses, how the history (newest first, as storage returns it) is reordered and converted before
  dispatch, the registration of the seven model names, and `Stream`/`Generate`.
 */
module Deyu {
  import opened Wrappers
  import opened Schema
  import opened Normaliser
  import opened Registry

  const DefaultModel: string := "deyu-default"
  const BZRModel: string := "deyu-bzr"
  const XKJSModel: string := "deyu-xkjs"
  const QYDSModel: string := "deyu-qyds"
  const DYGB: string := "deyu-dygb"
  const XYModel: string := "deyu-xy"
  const JYLFModel: string := "deyu-jylf"

  /** The names `init` registers, in registration order. */
  const ModelNames: seq<string> := [DefaultModel, BZRModel, XKJSModel, QYDSModel, DYGB, XYModel, JYLFModel]

  /** Which client a chat model holds: the chat-completion client or the bot-platform client. */
  datatype Adapter = DirectApi | BotPlatform

  datatype ChatModel = ChatModel(model: string, uid: string, adapter: Adapter)

  /** A failure to open an upstream or to call it; the SDKs' errors are opaque here. */
  datatype SetupError = SetupError(reason: string)

  /**
    `NewChatModel`, without the client construction itself: the model remembers its name and
    user, and only the default model talks to the chat-completion API.
   */
  function NewChatModel(uid: string, req: CompletionsReq): (m: ChatModel)
    ensures m.model == req.model && m.uid == uid
    ensures m.adapter == DirectApi <==> req.model == DefaultModel
  {
    ChatModel(req.model, uid, if req.model != DefaultModel then BotPlatform else DirectApi)
  }

  /** The registry after `init`'s seven registrations, in order. */
  function WithDeyuModels(m: map<string, (string, CompletionsReq) -> ChatModel>): map<string, (string, CompletionsReq) -> ChatModel> {
    m[DefaultModel := NewChatModel][BZRModel := NewChatModel][XKJSModel := NewChatModel]
     [QYDSModel := NewChatModel][DYGB := NewChatModel][XYModel := NewChatModel][JYLFModel := NewChatModel]
  }

  /** `init`: registers `NewChatModel` under each of the seven names, in order. */
  method RegisterDeyuModels(reg: ModelRegistry<ChatModel>)
    modifies reg
    ensures reg.models == WithDeyuModels(old(reg.models))
  {
    reg.RegisterModel(DefaultModel, NewChatModel);
    reg.RegisterModel(BZRModel, NewChatModel);
    reg.RegisterModel(XKJSModel, NewChatModel);
    reg.RegisterModel(QYDSModel, NewChatModel);
    reg.RegisterModel(DYGB, NewChatModel);
    reg.RegisterModel(XYModel, NewChatModel);
    reg.RegisterModel(JYLFModel, NewChatModel);
  }

  /**
    After `init`, every deyu model name is served by `NewChatModel`, exactly those names were
    added, and every other entry is as it was.
   */
  lemma DeyuModelsRegistered(m: map<string, (string, CompletionsReq) -> ChatModel>)
    ensures forall k :: 0 <= k < |ModelNames| ==>
      ModelNames[k] in WithDeyuModels(m) && WithDeyuModels(m)[ModelNames[k]] == NewChatModel
    ensures WithDeyuModels(m).Keys == m.Keys + {DefaultModel, BZRModel, XKJSModel, QYDSModel, DYGB, XYModel, JYLFModel}
    ensures forall n :: n in m && n !in ModelNames ==> WithDeyuModels(m)[n] == m[n]
  {
  }

  /**
    After `init`, looking up any deyu model name in the registry finds a constructor that builds a
    `ChatModel` for that name and user: the default name gets the chat-completion client and the
    six others the bot platform.
   */
  lemma RegisteredModelsDispatch(m: map<string, (string, CompletionsReq) -> ChatModel>,
                                 uid: string, req: CompletionsReq)
    requires req.model in ModelNames
    ensures req.model in WithDeyuModels(m)
    ensures WithDeyuModels(m)[req.model](uid, req)
         == ChatModel(req.model, uid, if req.model == DefaultModel then DirectApi else BotPlatform)
  {
    DeyuModelsRegistered(m);
  }

  // ---------------------------------------------------------------------------------------------
  // History order

  /** The reverse of a sequence: the last element first. */
  function Reverse<T>(s: seq<T>): (r: seq<T>)
    ensures |r| == |s|
  {
    if s == [] then [] else Reverse(s[1..]) + [s[0]]
  }

  lemma {:induction false} ReverseAt<T>(s: seq<T>, j: nat)
    requires j < |s|
    ensures Reverse(s)[j] == s[|s| - 1 - j]
  {
    if j < |s| - 1 {
      ReverseAt(s[1..], j);
    }
  }

  /** Reversing twice gives the history back: the reorder loses and invents nothing. */
  lemma ReverseInvolution<T>(s: seq<T>)
    ensures Reverse(Reverse(s)) == s
  {
    var r := Reverse(s);
    forall j | 0 <= j < |s|
      ensures Reverse(r)[j] == s[j]
    {
      ReverseAt(r, j);
      ReverseAt(s, |s| - 1 - j);
    }
  }

  /** The history with every message's name cleared. */
  function Anonymize(s: seq<Message>): (r: seq<Message>)
    ensures |r| == |s|
    ensures forall k :: 0 <= k < |s| ==> r[k] == s[k].(name := "")
  {
    seq(|s|, k requires 0 <= k < |s| => s[k].(name := ""))
  }

  /**
    The loop at the top of `Stream`: walks the history from its last element to its first,
    clearing each message's name in place and appending it to `reverse`.
   */
  method ReverseAndAnonymize(history: array<Message>) returns (reverse: seq<Message>)
    modifies history
    ensures history[..] == Anonymize(old(history[..]))
    ensures reverse == Reverse(history[..])
    ensures forall j :: 0 <= j < |reverse| ==> reverse[j] == old(history[history.Length - 1 - j]).(name := "")
  {
    var n := history.Length;
    var i := n;
    reverse := [];
    while i > 0
      invariant 0 <= i <= n
      invariant forall k :: 0 <= k < i ==> history[k] == old(history[k])
      invariant forall k :: i <= k < n ==> history[k] == old(history[k]).(name := "")
      invariant reverse == Reverse(history[i..])
    {
      i := i - 1;
      history[i] := history[i].(name := "");
      assert history[i..][1..] == history[i + 1..];
      reverse := reverse + [history[i]];
    }
    assert history[..] == history[0..];
    forall j | 0 <= j < |reverse|
      ensures reverse[j] == old(history[n - 1 - j]).(name := "")
    {
      ReverseAt(history[..], j);
    }
  }

  // ---------------------------------------------------------------------------------------------
  // Conversion to the bot platform

  /** One message in the bot platform's shape: role, content and reasoning copied, fixed tags. */
  function ToCoze(m: Message): (c: CozeMessage)
    ensures c.role == m.role && c.content == m.content && c.reasoningContent == m.reasoningContent
    ensures c.kind == "question" && c.contentType == "text"
  {
    CozeMessage(m.role, m.content, m.reasoningContent, "question", "text")
  }

  function CozeHistory(s: seq<Message>): (r: seq<CozeMessage>)
    ensures |r| == |s|
  {
    seq(|s|, k requires 0 <= k < |s| => ToCoze(s[k]))
  }

  /** `e2c`: the whole history converted, same length and order. */
  method E2C(history: seq<Message>) returns (c: seq<CozeMessage>)
    ensures c == CozeHistory(history)
  {
    c := [];
    for k := 0 to |history|
      invariant |c| == k
      invariant forall j :: 0 <= j < k ==> c[j] == ToCoze(history[j])
    {
      c := c + [ToCoze(history[k])];
    }
  }

  // ---------------------------------------------------------------------------------------------
  // Stream and Generate

  /** The bot platform's chat request. */
  datatype CreateChatsReq = CreateChatsReq(botId: string, userId: string, messages: seq<CozeMessage>)

  /** A bot-platform stream: events until the error that ends it. */
  datatype CozeUpstream = CozeUpstream(events: seq<ChatEvent>, end: UpstreamError)

  /**
    `Stream`: the history is reversed into chronological order (clearing names in place, on both
    paths), then sent either to the bot platform (converted, with the bot id from configuration
    and the model's user) or to the chat-completion API; a failure to open the upstream is
    returned before any event, otherwise the result is everything the caller will read.
   */
  method Stream(c: ChatModel, history: array<Message>, botId: string,
                openCoze: CreateChatsReq -> Result<CozeUpstream, SetupError>,
                openDirect: seq<Message> -> Result<Upstream, SetupError>,
                mk: Markers, enc: Encoder, cancelAfter: Option<nat>)
    returns (r: Result<seq<Item>, SetupError>)
    modifies history
    ensures history[..] == Anonymize(old(history[..]))
    ensures c.model != DefaultModel ==>
      var request := CreateChatsReq(botId, c.uid, CozeHistory(Reverse(history[..])));
      r == match openCoze(request)
           case Failure(e) => Failure(e)
           case Success(u) => Success(CozeRun(mk, enc, Initial, u.events, u.end, cancelAfter))
    ensures c.model == DefaultModel ==>
      r == match openDirect(Reverse(history[..]))
           case Failure(e) => Failure(e)
           case Success(u) => Success(Run(mk, enc, Initial, u.msgs, u.end, cancelAfter))
  {
    var reverse := ReverseAndAnonymize(history);
    if c.model != DefaultModel {
      var messages := E2C(reverse);
      var request := CreateChatsReq(botId, c.uid, messages);
      var conn := openCoze(request);
      if conn.Failure? {
        return Failure(conn.error);
      }
      var sent := CozeProcess(mk, enc, conn.value.events, conn.value.end, cancelAfter);
      r := Success(sent);
    } else {
      var conn := openDirect(reverse);
      if conn.Failure? {
        return Failure(conn.error);
      }
      var sent := Process(mk, enc, conn.value, cancelAfter);
      r := Success(sent);
    }
  }

  /**
    `Generate`: builds the reversed history but then calls the client with the history as given,
    newest first; the reversed copy is discarded. Only a model with the chat-completion client can
    generate: for a bot-platform model that client is nil and the call panics.
   */
  method Generate(c: ChatModel, history: seq<Message>,
                  generate: seq<Message> -> Result<Message, SetupError>)
    returns (r: Result<Message, SetupError>)
    requires c.adapter == DirectApi
    ensures r == generate(history)
  {
    var reverse: seq<Message> := [];
    var i := |history|;
    while i > 0
      invariant 0 <= i <= |history|
      invariant reverse == Reverse(history[i..])
    {
      i := i - 1;
      assert history[i..][1..] == history[i + 1..];
      reverse := reverse + [history[i]];
    }
    assert history[0..] == history;
    assert reverse == Reverse(history);
    r := generate(history);
  }

  /**
    `Generate` and `Stream` disagree on order: for any history whose first and last messages
    differ, what `Generate` sends (the history itself) is neither its own discarded copy
    `Reverse(history)` nor what `Stream` sends, `Reverse(Anonymize(history))`, whose first message
    is the history's last with its name cleared.
   */
  lemma GenerateOrderDiffersFromStream(history: seq<Message>)
    requires |history| >= 2 && history[0] != history[|history| - 1]
    ensures history != Reverse(history)
    ensures Reverse(Anonymize(history))[0] == history[|history| - 1].(name := "")
    ensures history != Reverse(Anonymize(history))
  {
    ReverseAt(history, 0);
    var last := |history| - 1;
    var sent := Reverse(Anonymize(history));
    ReverseAt(Anonymize(history), 0);
    ReverseAt(Anonymize(history), last);
    assert sent[last] == history[0].(name := "");
    if history[0].name != "" {
      assert sent[0].name != history[0].name;
    } else if history[last].name != "" {
      assert sent[last].name != history[last].name;
    } else {
      assert sent[0] == history[last];
    }
  }
}

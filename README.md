# deyu-core-api: the streaming normaliser and its neighbours, in Dafny

This project models the core of the deyu chat backend. Its centre is the token-stream
normaliser of `biz/domain/deyu/deyu.go`. An upstream model streams raw content tokens. Among
them are marker tokens that open a "thinking" or "suggestion" section and close it again, and
each marker is followed by a blank-line separator (`"\n\n"`). The normaliser runs one state
machine over these tokens. The state is the current category (Text, Think or Suggest) plus a
`pass` flag meaning "swallow the next separator". A marker switches the category and sends
nothing. A separator is swallowed while `pass` is set. Every other token is sent once, as a
message whose content is the encoded payload, with only the current category's field filled,
and whose `Extra` records the category and the raw token. The first failed read sends one
terminal error and ends the loop.

Around it the project models:

- the chat model: which upstream a model name uses, and the seven names registered at start-up;
- the history handling of `Stream`, `Generate` and `e2c`/`c2e`;
- the model registry (`biz/domain/model/model.go`);
- the business error values (`biz/infra/cst/errx.go`);
- the conversation handlers (`biz/application/service/conversation.go`): regenerated-answer
  grouping, item mapping, paging cursor, and the authentication-first error mapping.

Files, one module each: `normaliser.dfy` (the state machine `Step`, its fold `Run`/`CozeRun`, and
the two loops `Process`/`CozeProcess`), `deyu.dfy` (chat model, history, `Stream`, `Generate`,
`init`), `registry.dfy`, `errx.dfy`, `conversation.dfy`, and the helpers `schema.dfy` (message
shapes) and `wrappers.dfy` (`Option`, `Result`).

How the model reads the source:

- The literal marker strings are not part of the model. They are a `Markers` parameter whose
  `Valid()` says what the loops rely on: four distinct strings, none equal to `"\n\n"`.
- `json.Marshal` is an `Encoder` parameter. `None` stands for a marshalling failure, which skips
  the token and leaves the state unchanged.
- An upstream is a finite sequence of messages followed by the error that `Recv` returns at its
  end. End-of-stream is such an error too.
- `ctx.Done()` is a countdown, `cancelAfter`. `Some(k)` means the context is done from loop
  iteration `k` on. `None` means it never is.
- `Stream` takes the history as an array. Clearing each message's `Name` is therefore visible to
  the caller, as it is in the source, where the history holds references to the caller's messages.

Where the code and its design notes disagree, the model follows the code:

- `Stream` clears `Name` on both paths, not only for the bot platform (deyu.go:90-94).
- `Generate` builds a reversed copy of the history but sends the history unreversed
  (deyu.go:80-84), although the comment at deyu.go:79 says the model should get messages in
  chronological order. `Generate` is modelled as written, and `GenerateOrderDiffersFromStream`
  shows that for any history whose ends differ it dispatches neither its own reversed copy nor
  what `Stream` dispatches (the reversed history with names cleared).
  This is not reported as a defect of the source: the only caller among the files at hand
  (completions.go:75-77) passes `[system, user]`, already in chronological order, so the code as
  written is what that caller needs. Other callers of `Generate`, if any, are not part of this
  model.
- An unregistered model name is not a handled error. `GetModel` indexes the map and calls what
  it finds (model.go:20), so the model makes registration a precondition.

## Model

| member | source | states |
|---|---|---|
| Normaliser.Refine | biz/domain/deyu/deyu.go:240-247 | the payload holds the token in the current category's field, and every other field is empty |
| Normaliser.Retag | biz/domain/deyu/deyu.go:251 | the sent message's content is the encoded payload and its `Extra` records the category and the original token; role, reasoning and name are kept |
| Normaliser.Step | biz/domain/deyu/deyu.go:220-252 | one iteration of `process`: its own contract says only that something is sent only for a token that is neither a marker nor a swallowed separator, and that sending never changes the state; `StepOnMarker`, `StepSwallowsBlank`, `StepPassDiscipline` and `StepOnContent` characterise it case by case |
| Normaliser.StepOnMarker | biz/domain/deyu/deyu.go:227-238 | a think-start or suggest-start marker switches to Think or Suggest, and either end marker switches to Text whatever the current category; every marker sets `pass` and sends nothing |
| Normaliser.StepSwallowsBlank | biz/domain/deyu/deyu.go:220-223 | with `pass` set, a `"\n\n"` token is dropped and `pass` cleared; the category stays |
| Normaliser.StepPassDiscipline | biz/domain/deyu/deyu.go:209-238 | `pass` goes from set to clear exactly when a `"\n\n"` is consumed; it goes from clear to set only on a marker; any other token leaves the state unchanged |
| Normaliser.StepOnContent | biz/domain/deyu/deyu.go:240-252 | a non-marker token (including `"\n\n"` while `pass` is clear) is sent iff it encodes; the sent content is the encoded payload; `Extra` holds the current category and the original token; role, reasoning and name are kept; the state does not change |
| Normaliser.Run | biz/domain/deyu/deyu.go:211-254 | the fold of `Step` over the reads: a done context sends nothing more, a failed read sends the error and stops; no contract of its own: `Process` is proved equal to it and `RunEndsWithError`, `RunLength`, `RunWithoutMarkers` and `RunMarkersOnly` state its properties |
| Normaliser.Process | biz/domain/deyu/deyu.go:201-255 | the loop sends exactly the fold `Run` of the step over the upstream, starting in Text with `pass` clear, then the terminal error, or stops silently once the context is done |
| Normaliser.RunEndsWithError | biz/domain/deyu/deyu.go:213-219 | at most one error item is sent; it is the last item and carries the read's error; without cancellation it is always sent; a context done at the start sends nothing |
| Normaliser.RunLength | biz/domain/deyu/deyu.go:211-253 | never more than one sent item per read, plus the error |
| Normaliser.RunWithoutMarkers | biz/domain/deyu/deyu.go:209-252 | with no marker tokens and an encoder that does not fail, every token is sent in order, tagged Text, followed by the error; nothing is dropped |
| Normaliser.RunMarkersOnly | biz/domain/deyu/deyu.go:227-238 | a stream made only of markers sends nothing but the terminal error, from any state |
| Normaliser.MarkedSections | biz/domain/deyu/deyu.go:220-252 | [think-start, `"\n\n"`, a, think-end, `"\n\n"`, b] sends exactly Think(a), Text(b), then the error |
| Normaliser.SeparatorNeedNotBeAdjacent | biz/domain/deyu/deyu.go:220-233 | `pass` survives content tokens: in [think-start, x, `"\n\n"`, y] the separator is still swallowed, and x and y are both sent as Think |
| Normaliser.C2E | biz/domain/deyu/deyu.go:134-139 | a bot-platform message becomes an assistant message with the same content and nothing else set |
| Normaliser.CE2E | biz/domain/deyu/deyu.go:131-133 | an event's message, converted (only called on events that carry one) |
| Normaliser.CozeStep | biz/domain/deyu/deyu.go:160-195 | one iteration of `cozeProcess`: a skipped event leaves the state and sends nothing, a delta goes through `Step` with its converted message; no contract of its own, `CozeStepSkips` states it |
| Normaliser.CozeStepSkips | biz/domain/deyu/deyu.go:160-167 | an event without a message, or one that is not a message delta, leaves `status` and `pass` unchanged and sends nothing; when a delta is sent, its content is the encoded payload of the event's content in the current category |
| Normaliser.CozeRun | biz/domain/deyu/deyu.go:151-198 | the fold of `CozeStep` over the events, with a skipped event still advancing the cancellation countdown; no contract of its own: `CozeProcess` is proved equal to it and `CozeRunIsRunOnDeltas` reduces it to `Run` |
| Normaliser.CozeRunIsRunOnDeltas | biz/domain/deyu/deyu.go:140-199 | without cancellation the bot-platform loop sends exactly what the chat-completion loop sends for the message deltas alone |
| Normaliser.DeltasOfDeltas | biz/domain/deyu/deyu.go:160-163 | when every event is a message delta carrying a message, none is dropped: the deltas are exactly the events' converted messages, in order |
| Normaliser.BotPlatformMarkedSections | biz/domain/deyu/deyu.go:140-199 | the deltas [think-start, `"\n\n"`, x, think-end, `"\n\n"`, y] give exactly {think: x}, {text: y}, then the error |
| Normaliser.CozeProcess | biz/domain/deyu/deyu.go:140-199 | the bot-platform loop sends exactly `CozeRun` over the events: skipped events consume a read and nothing else |
| Deyu.NewChatModel | biz/domain/deyu/deyu.go:53-71 | the model keeps the requested name and the user; it uses the chat-completion client iff the name is the default model, and the bot platform otherwise |
| Deyu.RegisterDeyuModels | biz/domain/deyu/deyu.go:20-28 | the registry afterwards is the old one with the seven names mapped to `NewChatModel`, in order |
| Deyu.DeyuModelsRegistered | biz/domain/deyu/deyu.go:20-40 | after `init` all seven names map to `NewChatModel`, exactly those names were added, and every other entry is unchanged |
| Deyu.RegisteredModelsDispatch | biz/domain/deyu/deyu.go:20-28 | after `init`, every deyu model name is in the registry, and the constructor found there builds a model with that name and user; `deyu-default` gets the chat-completion client and the six others the bot platform (deyu.go:53-71) |
| Deyu.ReverseAt | biz/domain/deyu/deyu.go:90-94 | position j of the reversed history holds the history's element n-1-j |
| Deyu.ReverseInvolution | biz/domain/deyu/deyu.go:89-94 | reversing twice restores the history: the reorder loses, duplicates and invents nothing |
| Deyu.Anonymize | biz/domain/deyu/deyu.go:92 | every message keeps its position and fields except `Name`, which is emptied |
| Deyu.ReverseAndAnonymize | biz/domain/deyu/deyu.go:90-94 | the caller's history has every `Name` cleared in place; `reverse[j]` is the caller's `in[n-1-j]` with its name cleared |
| Deyu.ToCoze | biz/domain/deyu/deyu.go:119-125 | role, content and reasoning are copied; type is "question" and content type "text" |
| Deyu.E2C | biz/domain/deyu/deyu.go:117-129 | the converted history has the same length and order, each element converted by `ToCoze` |
| Deyu.Stream | biz/domain/deyu/deyu.go:87-115 | names are cleared in place; the bot platform gets the reversed, converted history with the bot id and user, and the chat-completion API gets the reversed history; a failure to open the upstream is returned before any event; otherwise the result is what the matching loop sends |
| Deyu.Generate | biz/domain/deyu/deyu.go:78-85 | the client is called with the history as given, not reversed; the loop invariant shows that the discarded copy is exactly the reversed history; only a model with the chat-completion client can call it |
| Deyu.GenerateOrderDiffersFromStream | biz/domain/deyu/deyu.go:79-94 | for a history whose first and last messages differ, what `Generate` sends differs from its discarded reversed copy and from what `Stream` sends, the reversed history with names cleared, whose first message is the history's last with its name cleared |
| Registry.ModelRegistry.constructor | biz/domain/model/model.go:12 | the registry starts empty |
| Registry.ModelRegistry.RegisterModel | biz/domain/model/model.go:14-16 | afterwards the name maps to the given constructor, replacing an earlier entry; no other key is added and every other entry is unchanged |
| Registry.ModelRegistry.GetModel | biz/domain/model/model.go:18-21 | the result is the registered constructor for the request's model, applied to the same user and request; the name must be registered |
| Errx.New | biz/infra/cst/errx.go:53-58 | the error's code and message read back as the arguments |
| Errx.Errorx.GetCode | biz/infra/cst/errx.go:65-68 | returns the stored code |
| Errx.Errorx.GetMsg | biz/infra/cst/errx.go:70-73 | returns the stored message |
| Errx.Errorx.Error | biz/infra/cst/errx.go:60-63 | the string "code=" + decimal code + ", msg=" + message, which reads back as exactly this error |
| Errx.Decimal | biz/infra/cst/errx.go:62 | the `%d` rendering: non-empty, with no comma |
| Errx.DecimalRoundTrip | biz/infra/cst/errx.go:62 | a rendered code, negative ones included, reads back as the same integer |
| Errx.ErrorRoundTrip | biz/infra/cst/errx.go:61-63 | reading back an error string splits it at the first comma into the code and the message |
| Errx.ErrorInjective | biz/infra/cst/errx.go:61-63 | two errors render to the same string iff they are equal |
| Errx.PredefinedCodesDistinct | biz/infra/cst/errx.go:7-34 | the twenty predefined errors have pairwise distinct codes, none equal to the unknown code 999 |
| Errx.PredefinedCodeRanges | biz/infra/cst/errx.go:8-31 | `UnAuthErr` is 1000 and `NotFound` 555; the account errors are 20001-20009 and the conversation errors 30001-30006, in order |
| Conversation.CreateConversation | biz/application/service/conversation.go:36-53 | failed authentication gives `UnAuthErr` whatever the mapper would do; a mapper failure gives `ConversationCreationErr`; otherwise the new conversation's id |
| Conversation.RenameConversation | biz/application/service/conversation.go:55-71 | failed authentication gives `UnAuthErr`; otherwise it fails, with `ConversationRenameErr`, iff the update fails |
| Conversation.DeleteConversation | biz/application/service/conversation.go:143-154 | failed authentication gives `UnAuthErr`; otherwise it fails, with `ConversationDeleteErr`, iff the delete fails |
| Conversation.ToItem | biz/application/service/conversation.go:89-94 | the item copies id, brief and both times |
| Conversation.ToItems | biz/application/service/conversation.go:87-95 | one item per conversation, same length, `items[i]` built from `conversations[i]` |
| Conversation.ListConversation | biz/application/service/conversation.go:73-103 | `UnAuthErr` before the mapper is consulted; `ConversationListErr` on mapper failure; otherwise items mapped one to one, `hasMore` passed through, and a cursor set iff the page is non-empty, to the last conversation's id |
| Conversation.SearchConversation | biz/application/service/conversation.go:156-186 | as the list handler, with `ConversationSearchErr` on mapper failure |
| Conversation.MatchingAllReply | biz/application/service/conversation.go:121-128 | every collected message has the newest message's reply id, and there are no more of them than candidates |
| Conversation.MatchingKeepsEvery | biz/application/service/conversation.go:121-129 | every candidate with that reply id is collected; none is collected iff no candidate has it |
| Conversation.MatchingConcat | biz/application/service/conversation.go:122-128 | collection keeps the original order: the matches of a concatenation are the matches of each part, in turn |
| Conversation.RegenGroup | biz/application/service/conversation.go:118-130 | the grouping loop computes exactly `Regen` of the page |
| Conversation.RegenShape | biz/application/service/conversation.go:118-130 | the group is empty for an empty page; it is non-empty iff some later message shares `msgs[0]`'s reply id; then it is `msgs[0]` followed by exactly the matching later messages, in order; every member has that reply id |
| Conversation.FrontList | biz/application/service/conversation.go:133-134 | the message conversion yields one converted element per message, in order, so it preserves length |
| Conversation.GetConversation | biz/application/service/conversation.go:105-141 | `UnAuthErr` first; `ConversationGetErr` on mapper failure; otherwise the converted page, the converted regen group, `hasMore` passed through, and a cursor set iff the page is non-empty, to the last message's id |

## Left out

- Goroutines, the five-slot pipe and its backpressure, and closing the reader and writer in `defer`: these are concurrency and a foreign library. The loops are modelled as producing the sequence the consumer reads.
- Cancellation is reduced to a countdown: the model does not capture when, relative to the upstream, the context becomes done.
- `Send` on the pipe may block. Its return value (pipe closed by the reader) is ignored by the source and is not modelled.
- Client construction in `NewChatModel` (the openai and coze SDK clients, the configuration lookup of keys, base URLs and model names) is an SDK call. Its possible failure on the default path is not modelled.
- The SDK calls `c.cli.Generate`, `c.cli.Stream`, `c.cozeCli.Chat.Stream` and `WithTools` are network clients. Generation and the opening of streams are function parameters; `WithTools` is not modelled. As written, `WithTools` dereferences the chat-completion client, which bot-platform models never set.
- Deyu.Generate: requires a model with the chat-completion client, because for a bot-platform model the source calls `Generate` on a nil client (deyu.go:84), which panics.
- `json.Marshal` is an abstract `Encoder`; the JSON field names of the payload are not part of the model.
- Normaliser.RunWithoutMarkers: assumes an encoder that never fails, because the source's guarantee of delivering every token holds only while `json.Marshal` succeeds (it does for three strings).
- Registry.ModelRegistry.GetModel: requires a registered model name, because the source calls a nil function value (a panic) for an unknown one.
- The `ctx` arguments of the constructors and of `GetModel` carry nothing the modelled code reads.
- Logging (`logx.Error`) has no effect on results.
- The request types are reduced to the fields the core reads: `Model`, plus a conversation id that dispatch passes through.
- Mapper calls, `adaptor.ExtractUserId`, `ObjectID.Hex()`, `time.Unix()` and the `MMsgToFMsgList` conversion are inputs or parameters. Ids are modelled as their hex strings, so comparing `Hex()` strings is comparing ids. The message conversion is modelled element by element, so it preserves length.
- `GetConversation` discards the user id and lists messages without filtering by user. The model keeps this: its mapper result does not depend on the user.
- biz/application/service/auth.go (JWT signing, random codes, Redis, SMS) and completions.go (service wiring) are not part of this model. The same holds for the MongoDB mapper, configuration loading and dependency injection, and the plain structs in user.go and cmd/auth.go.

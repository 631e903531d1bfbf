/**
  The conversation handlers of biz/application/service/conversation.go. Every handler first
  extracts the user id and answers `UnAuthErr` if that fails, before it consults a mapper; a
  mapper failure is answered with the handler's own predefined error. The list and search
  handlers copy each stored conversation into a response item and take the last conversation's
  id as the paging cursor; `GetConversation` also groups the regenerated answers: the messages
  that reply to the same user message as the newest one.

  Mapper results and the identity check are inputs; ids are already their hex strings and times
  their Unix seconds.
 */
module Conversation {
  import opened Wrappers
  import opened Errx

  /** A failure of identity extraction or of a mapper; the handlers do not look inside it. */
  datatype CauseError = CauseError(reason: string)

  /** A stored message: its id, the id of the message it replies to, and its content. */
  datatype StoredMessage = StoredMessage(messageId: string, replyId: string, content: string)

  /** A stored conversation. */
  datatype StoredConversation = StoredConversation(
    conversationId: string,
    userId: string,
    brief: string,
    createTime: int,
    updateTime: int)

  /** One page as a mapper returns it. */
  datatype Listing<T> = Listing(items: seq<T>, hasMore: bool)

  /** A conversation as the list and search responses carry it. */
  datatype ConversationItem = ConversationItem(conversationId: string, brief: string, createTime: int, updateTime: int)

  datatype CreateResp = CreateResp(conversationId: string)
  datatype ListResp = ListResp(conversations: seq<ConversationItem>, hasMore: bool, cursor: Option<string>)
  datatype GetResp<F> = GetResp(messageList: seq<F>, regenList: seq<F>, hasMore: bool, cursor: Option<string>)

  // ---------------------------------------------------------------------------------------------
  // Handlers without loops

  function CreateConversation(auth: Result<string, CauseError>,
                              create: string -> Result<StoredConversation, CauseError>)
    : (r: Result<CreateResp, Errorx>)
    ensures auth.Failure? ==> r == Failure(UnAuthErr)
    ensures auth.Success? && create(auth.value).Failure? ==> r == Failure(ConversationCreationErr)
    ensures auth.Success? && create(auth.value).Success? ==>
      r == Success(CreateResp(create(auth.value).value.conversationId))
  {
    match auth
    case Failure(_) => Failure(UnAuthErr)
    case Success(uid) =>
      match create(uid)
      case Failure(_) => Failure(ConversationCreationErr)
      case Success(conv) => Success(CreateResp(conv.conversationId))
  }

  /** `update` is the mapper's brief update for the given user; `None` is success. */
  function RenameConversation(auth: Result<string, CauseError>, update: string -> Option<CauseError>)
    : (r: Result<(), Errorx>)
    ensures auth.Failure? ==> r == Failure(UnAuthErr)
    ensures auth.Success? ==> (r.Failure? <==> update(auth.value).Some?)
    ensures r.Failure? && auth.Success? ==> r.error == ConversationRenameErr
  {
    match auth
    case Failure(_) => Failure(UnAuthErr)
    case Success(uid) => if update(uid).Some? then Failure(ConversationRenameErr) else Success(())
  }

  function DeleteConversation(auth: Result<string, CauseError>, delete: string -> Option<CauseError>)
    : (r: Result<(), Errorx>)
    ensures auth.Failure? ==> r == Failure(UnAuthErr)
    ensures auth.Success? ==> (r.Failure? <==> delete(auth.value).Some?)
    ensures r.Failure? && auth.Success? ==> r.error == ConversationDeleteErr
  {
    match auth
    case Failure(_) => Failure(UnAuthErr)
    case Success(uid) => if delete(uid).Some? then Failure(ConversationDeleteErr) else Success(())
  }

  // ---------------------------------------------------------------------------------------------
  // Items and cursor

  /** A response item: id, brief and both times copied from the stored conversation. */
  function ToItem(c: StoredConversation): (item: ConversationItem)
    ensures item.conversationId == c.conversationId && item.brief == c.brief
    ensures item.createTime == c.createTime && item.updateTime == c.updateTime
  {
    ConversationItem(c.conversationId, c.brief, c.createTime, c.updateTime)
  }

  /** `items := make(..., len(conversations))` and the loop that fills it. */
  method ToItems(conversations: seq<StoredConversation>) returns (items: seq<ConversationItem>)
    ensures |items| == |conversations|
    ensures forall i :: 0 <= i < |items| ==> items[i] == ToItem(conversations[i])
  {
    var a := new ConversationItem[|conversations|];
    for i := 0 to |conversations|
      invariant forall j :: 0 <= j < i ==> a[j] == ToItem(conversations[j])
    {
      a[i] := ToItem(conversations[i]);
    }
    items := a[..];
  }

  /** `ListConversation`; `list` is the mapper's page of the user's conversations. */
  method ListConversation(auth: Result<string, CauseError>,
                          list: string -> Result<Listing<StoredConversation>, CauseError>)
    returns (r: Result<ListResp, Errorx>)
    ensures auth.Failure? ==> r == Failure(UnAuthErr)
    ensures auth.Success? && list(auth.value).Failure? ==> r == Failure(ConversationListErr)
    ensures auth.Success? && list(auth.value).Success? ==>
      var page := list(auth.value).value;
      && r.Success?
      && |r.value.conversations| == |page.items|
      && (forall i :: 0 <= i < |page.items| ==> r.value.conversations[i] == ToItem(page.items[i]))
      && r.value.hasMore == page.hasMore
      && (r.value.cursor.Some? <==> |page.items| > 0)
      && (r.value.cursor.Some? ==> r.value.cursor.value == page.items[|page.items| - 1].conversationId)
  {
    if auth.Failure? {
      return Failure(UnAuthErr);
    }
    var listed := list(auth.value);
    if listed.Failure? {
      return Failure(ConversationListErr);
    }
    var conversations := listed.value.items;
    var items := ToItems(conversations);
    var cursor := None;
    if |conversations| > 0 {
      cursor := Some(conversations[|conversations| - 1].conversationId);
    }
    r := Success(ListResp(items, listed.value.hasMore, cursor));
  }

  /** `SearchConversation`; `search` is the mapper's page of the user's conversations matching the key. */
  method SearchConversation(auth: Result<string, CauseError>,
                            search: string -> Result<Listing<StoredConversation>, CauseError>)
    returns (r: Result<ListResp, Errorx>)
    ensures auth.Failure? ==> r == Failure(UnAuthErr)
    ensures auth.Success? && search(auth.value).Failure? ==> r == Failure(ConversationSearchErr)
    ensures auth.Success? && search(auth.value).Success? ==>
      var page := search(auth.value).value;
      && r.Success?
      && |r.value.conversations| == |page.items|
      && (forall i :: 0 <= i < |page.items| ==> r.value.conversations[i] == ToItem(page.items[i]))
      && r.value.hasMore == page.hasMore
      && (r.value.cursor.Some? <==> |page.items| > 0)
      && (r.value.cursor.Some? ==> r.value.cursor.value == page.items[|page.items| - 1].conversationId)
  {
    if auth.Failure? {
      return Failure(UnAuthErr);
    }
    var found := search(auth.value);
    if found.Failure? {
      return Failure(ConversationSearchErr);
    }
    var conversations := found.value.items;
    var items := ToItems(conversations);
    var cursor := None;
    if |conversations| > 0 {
      cursor := Some(conversations[|conversations| - 1].conversationId);
    }
    r := Success(ListResp(items, found.value.hasMore, cursor));
  }

  // ---------------------------------------------------------------------------------------------
  // Regenerated answers

  /** The messages of `s` that reply to `replyId`, in their order in `s`. */
  function Matching(s: seq<StoredMessage>, replyId: string): seq<StoredMessage>
  {
    if s == [] then []
    else Matching(s[..|s| - 1], replyId) + (if s[|s| - 1].replyId == replyId then [s[|s| - 1]] else [])
  }

  /** Every kept message replies to `replyId`, and there are no more of them than in `s`. */
  lemma {:induction false} MatchingAllReply(s: seq<StoredMessage>, replyId: string)
    ensures |Matching(s, replyId)| <= |s|
    ensures forall j :: 0 <= j < |Matching(s, replyId)| ==> Matching(s, replyId)[j].replyId == replyId
  {
    if s != [] {
      MatchingAllReply(s[..|s| - 1], replyId);
    }
  }

  /** Every message of `s` that replies to `replyId` is kept; so none is kept only if none replies. */
  lemma {:induction false} MatchingKeepsEvery(s: seq<StoredMessage>, replyId: string)
    ensures forall k :: 0 <= k < |s| && s[k].replyId == replyId ==> s[k] in Matching(s, replyId)
    ensures Matching(s, replyId) == [] <==> forall k :: 0 <= k < |s| ==> s[k].replyId != replyId
  {
    if s != [] {
      var init := s[..|s| - 1];
      MatchingKeepsEvery(init, replyId);
      MatchingAllReply(s, replyId);
      forall k | 0 <= k < |s| - 1
        ensures s[k] == init[k]
      {
      }
    }
  }

  /** Filtering keeps order: the matches of a concatenation are the matches of each part, in turn. */
  lemma {:induction false} MatchingConcat(a: seq<StoredMessage>, b: seq<StoredMessage>, replyId: string)
    ensures Matching(a + b, replyId) == Matching(a, replyId) + Matching(b, replyId)
    decreases |b|
  {
    if b != [] {
      var b' := b[..|b| - 1];
      assert (a + b)[..|a + b| - 1] == a + b';
      MatchingConcat(a, b', replyId);
    } else {
      assert a + b == a;
    }
  }

  /** The regen group of a page: nil unless a later message shares the newest one's reply id. */
  function Regen(msgs: seq<StoredMessage>): seq<StoredMessage> {
    if |msgs| == 0 then []
    else
      var rest := Matching(msgs[1..], msgs[0].replyId);
      if rest == [] then [] else [msgs[0]] + rest
  }

  /**
    Scanning one more message: the group of `msgs[..k + 1]` is that of `msgs[..k]`, with
    `msgs[k]` appended (and the newest message put in front first, if the group was empty) iff
    `msgs[k]` shares the newest message's reply id.
   */
  lemma RegenExtend(msgs: seq<StoredMessage>, k: nat)
    requires 1 <= k < |msgs|
    ensures var prev := Regen(msgs[..k]);
      Regen(msgs[..k + 1])
        == if msgs[k].replyId != msgs[0].replyId then prev
           else (if prev == [] then [msgs[0]] else prev) + [msgs[k]]
  {
    assert msgs[..k + 1][1..][..k - 1] == msgs[..k][1..];
    assert msgs[..k + 1][1..][k - 1] == msgs[k];
  }

  /**
    The regen group is empty for an empty page; it is non-empty iff some later message shares
    the newest message's reply id, and then it is the newest message followed by exactly the
    later messages with that reply id, in order; every member has that reply id.
   */
  lemma RegenShape(msgs: seq<StoredMessage>)
    ensures |msgs| == 0 ==> Regen(msgs) == []
    ensures Regen(msgs) != [] <==> exists k :: 1 <= k < |msgs| && msgs[k].replyId == msgs[0].replyId
    ensures Regen(msgs) != [] ==>
      Regen(msgs)[0] == msgs[0] && Regen(msgs)[1..] == Matching(msgs[1..], msgs[0].replyId)
    ensures |msgs| > 0 ==> forall j :: 0 <= j < |Regen(msgs)| ==> Regen(msgs)[j].replyId == msgs[0].replyId
  {
    if |msgs| > 0 {
      var rest := msgs[1..];
      MatchingKeepsEvery(rest, msgs[0].replyId);
      MatchingAllReply(rest, msgs[0].replyId);
      assert forall k :: 1 <= k < |msgs| ==> msgs[k] == rest[k - 1];
    }
  }

  /** The grouping loop of `GetConversation`: it computes `Regen`, whose shape `RegenShape` gives. */
  method RegenGroup(msgs: seq<StoredMessage>) returns (regen: seq<StoredMessage>)
    ensures regen == Regen(msgs)
  {
    regen := [];
    if |msgs| > 0 {
      var replyId := msgs[0].replyId;
      for k := 1 to |msgs|
        invariant regen == Regen(msgs[..k])
      {
        RegenExtend(msgs, k);
        if msgs[k].replyId == replyId {
          if regen == [] {
            regen := [msgs[0]];
          }
          regen := regen + [msgs[k]];
        }
      }
      assert msgs[..|msgs|] == msgs;
    }
  }

  /**
    `GetConversation`. `listed` is the message mapper's page (newest first); it is not filtered
    by the user. `toFront` stands for the message conversion, applied element by element.
   */
  method GetConversation<F>(auth: Result<string, CauseError>,
                            listed: Result<Listing<StoredMessage>, CauseError>,
                            toFront: StoredMessage -> F)
    returns (r: Result<GetResp<F>, Errorx>)
    ensures auth.Failure? ==> r == Failure(UnAuthErr)
    ensures auth.Success? && listed.Failure? ==> r == Failure(ConversationGetErr)
    ensures auth.Success? && listed.Success? ==>
      var msgs := listed.value.items;
      && r.Success?
      && r.value.messageList == FrontList(msgs, toFront)
      && r.value.regenList == FrontList(Regen(msgs), toFront)
      && r.value.hasMore == listed.value.hasMore
      && (r.value.cursor.Some? <==> |msgs| > 0)
      && (r.value.cursor.Some? ==> r.value.cursor.value == msgs[|msgs| - 1].messageId)
  {
    if auth.Failure? {
      return Failure(UnAuthErr);
    }
    if listed.Failure? {
      return Failure(ConversationGetErr);
    }
    var msgs := listed.value.items;
    var regen := RegenGroup(msgs);
    var messageList := FrontList(msgs, toFront);
    var cursor := None;
    if |messageList| > 0 {
      cursor := Some(msgs[|msgs| - 1].messageId);
    }
    r := Success(GetResp(messageList, FrontList(regen, toFront), listed.value.hasMore, cursor));
  }

  /** The message list conversion: one converted element per message, in order. */
  function FrontList<F>(msgs: seq<StoredMessage>, toFront: StoredMessage -> F): (r: seq<F>)
    ensures |r| == |msgs|
    ensures forall i :: 0 <= i < |msgs| ==> r[i] == toFront(msgs[i])
  {
    seq(|msgs|, i requires 0 <= i < |msgs| => toFront(msgs[i]))
  }
}

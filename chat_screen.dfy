/** The assistant chat screen: the conversation loaded twenty messages at a
    time, clearing it, and sending a message with the user's latest emotions
    as context. The user lookup, the queries, the saves and the chat model's
    reply are inputs here; the date format is a parameter. */
module ChatScreen {
  import opened Wrappers
  import opened Strings

  const PageSize := 20
  const InitialMessage := "Привет! Я ваш эмоциональный ассистент. Давайте обсудим ваше эмоциональное состояние."
  const ContextHeader := "Учитывай мои последние эмоции:\n"
  const MessageHeader := "\n\nСообщение: "
  const NoReply := "Не удалось получить ответ"
  const LoadFailed := "Ошибка загрузки данных"
  const LoadMoreFailed := "Ошибка загрузки истории"
  const ClearFailed := "Ошибка очистки истории"
  const SendFailed := "Ошибка отправки сообщения"
  const ContextSize := 5

  datatype Role = UserRole | AssistantRole

  datatype Message = Message(id: string, text: string, createdAt: string, role: Role)

  /** One of the user's emotion rows, newest first. */
  datatype Emotion = Emotion(emotion: string, createdAt: string)

  /** `getUser`: it threw, or it answered with the signed-in user's id, if
      any. */
  datatype UserLookup = LookupThrew | LookedUp(userId: Option<string>)

  /** The greeting shown for an empty conversation. */
  function Welcome(now: string): (m: Message)
    ensures m.role == AssistantRole && m.text == InitialMessage && m.id == "welcome"
  {
    Message("welcome", InitialMessage, now, AssistantRole)
  }

  /** `data` of a query whose error the screen does not look at: a failed
      query has none. */
  function DataOf<T>(q: QueryResult<T>): (rows: seq<T>)
    ensures q.QueryFailed? ==> rows == []
    ensures q.QueryOk? && q.data.Some? ==> rows == q.data.value
  {
    if q.QueryOk? then RowsOrEmpty(q.data) else []
  }

  function CountOf<T>(q: QueryResult<T>): (n: int)
    ensures q.QueryFailed? ==> n == 0
  {
    if q.QueryOk? then CountOrZero(q.count) else 0
  }

  // ---------------------------------------------------------------------------
  // The context of a sent message

  /** `${format(created_at)}: ${emotion}` */
  function EmotionLine(e: Emotion, format: string -> string): string
  {
    format(e.createdAt) + (": " + e.emotion)
  }

  function EmotionLines(emotions: seq<Emotion>, format: string -> string): (lines: seq<string>)
    ensures |lines| == |emotions|
    ensures forall i :: 0 <= i < |emotions| ==> lines[i] == EmotionLine(emotions[i], format)
  {
    if emotions == [] then [] else [EmotionLine(emotions[0], format)] + EmotionLines(emotions[1..], format)
  }

  /** The latest emotions the context uses, at most five. */
  function Recent(emotions: seq<Emotion>): (recent: seq<Emotion>)
    ensures |recent| <= ContextSize && |recent| <= |emotions| && recent == emotions[..|recent|]
    ensures |recent| == if |emotions| < ContextSize then |emotions| else ContextSize
  {
    if |emotions| <= ContextSize then emotions else emotions[..ContextSize]
  }

  /** The text sent to the chat model: the input alone when there are no
      emotions, otherwise the input after a header and the latest emotions. */
  function ContextMessage(emotions: seq<Emotion>, input: string, format: string -> string): (text: string)
  {
    if |emotions| > 0 then
      ContextHeader + (Join(EmotionLines(Recent(emotions), format), "\n") + (MessageHeader + input))
    else input
  }

  /** Without emotions the input is sent unchanged; with them it is sent
      after the header and the joined lines of the latest five. */
  lemma ContextShape(emotions: seq<Emotion>, input: string, format: string -> string)
    ensures emotions == [] ==> ContextMessage(emotions, input, format) == input
    ensures emotions != [] ==>
      var text := ContextMessage(emotions, input, format);
      var lines := Join(EmotionLines(Recent(emotions), format), "\n");
      && StartsWith(text, ContextHeader)
      && text[|ContextHeader|..] == lines + MessageHeader + input
      && |EmotionLines(Recent(emotions), format)| == if |emotions| < ContextSize then |emotions| else ContextSize
  {
    if emotions != [] {
      var lines := Join(EmotionLines(Recent(emotions), format), "\n");
      assert lines + (MessageHeader + input) == lines + MessageHeader + input;
    }
  }

  /** Only the five latest emotions matter: two lists that agree on those
      give the same context. */
  lemma ContextUsesLatestFive(a: seq<Emotion>, b: seq<Emotion>, input: string, format: string -> string)
    requires |a| >= ContextSize && |b| >= ContextSize && a[..ContextSize] == b[..ContextSize]
    ensures ContextMessage(a, input, format) == ContextMessage(b, input, format)
  {
  }

  // ---------------------------------------------------------------------------
  // Paging through the conversation

  /** The conversation state that paging changes. */
  datatype Paging = Paging(messages: seq<Message>, page: nat, hasMore: bool)

  /** The state after the initial load and `k` load-mores, each triggered
      while `hasMore` held, against a stored conversation. */
  function Walk(table: seq<Message>, k: nat, now: string): (p: Paging)
    ensures p.page == k + 1
    ensures p.hasMore <==> |table| > PageSize * (k + 1)
    ensures |p.messages| <= PageSize * (k + 1)
  {
    if k == 0 then
      var first := Window(table, 0, PageSize);
      Paging(if |first| > 0 then first else [Welcome(now)], 1, |table| > PageSize)
    else
      var p := Walk(table, k - 1, now);
      Paging(p.messages + Window(table, p.page * PageSize, PageSize), p.page + 1, |table| > (p.page + 1) * PageSize)
  }

  /** Every load-more continues where the last page ended: a non-empty
      conversation is shown as its first `20(k+1)` messages, each once and
      in order, and more are offered exactly while messages remain. */
  lemma {:induction false} WalkShowsPrefix(table: seq<Message>, k: nat, now: string)
    requires table != []
    requires k == 0 || |table| > PageSize * k
    ensures Walk(table, k, now) == Paging(table[..Min(PageSize * (k + 1), |table|)], k + 1, |table| > PageSize * (k + 1))
  {
    if k > 0 {
      WalkShowsPrefix(table, k - 1, now);
      var hi := Min(PageSize * (k + 1), |table|);
      assert table[..PageSize * k] + table[PageSize * k..hi] == table[..hi];
    }
  }

  // ---------------------------------------------------------------------------
  // The screen

  /** How the chat model's request ended: it threw, or it answered with
      `data.result` (absent when missing). */
  datatype Reply = ReplyThrew | Replied(result: Option<string>)

  /** `response.data?.result || 'Не удалось получить ответ'` */
  function ReplyText(result: Option<string>): (text: string)
    ensures result.Some? && result.value != "" ==> text == result.value
    ensures result.None? || result.value == "" ==> text == NoReply
  {
    if result.Some? && result.value != "" then result.value else NoReply
  }

  /** `!inputText.trim()` */
  predicate Blank(input: string)
  {
    Trim(input) == ""
  }

  /** The messages a send adds to the list: each one only when its save
      returned a record, the user's before the assistant's, and the
      assistant's only when the model answered. */
  function Shown(savedUser: Option<Message>, reply: Reply, savedAssistant: Option<Message>): (added: seq<Message>)
    ensures |added| <= 2
    ensures forall i :: 0 <= i < |added| ==>
      (savedUser.Some? && added[i] == savedUser.value) || (savedAssistant.Some? && added[i] == savedAssistant.value)
    ensures savedUser.Some? ==> added != [] && added[0] == savedUser.value
    ensures reply.Replied? && savedAssistant.Some? ==> added != [] && added[|added| - 1] == savedAssistant.value
    ensures reply.ReplyThrew? || savedAssistant.None? ==> |added| <= 1
  {
    (if savedUser.Some? then [savedUser.value] else [])
    + (if reply.Replied? && savedAssistant.Some? then [savedAssistant.value] else [])
  }

  datatype Range = Range(first: nat, last: nat)

  datatype Effect =
    | Toast(message: string)
    | FetchMessages(range: Range)
    | DeleteChats(userId: string)
    | SaveMessage(text: string, role: Role)
    | AskAssistant(content: string)

  /** The calls and the toast of a send: the user's message is saved, the
      context is sent to the model, and then either the failure toast or
      the save of the reply (or of the fallback text) follows. */
  function SendEffects(input: string, context: string, reply: Reply): (e: seq<Effect>)
    ensures |e| == 3 && e[0] == SaveMessage(input, UserRole) && e[1] == AskAssistant(context)
    ensures reply.ReplyThrew? <==> e[2] == Toast(SendFailed)
    ensures reply.Replied? ==> e[2] == SaveMessage(ReplyText(reply.result), AssistantRole)
  {
    [SaveMessage(input, UserRole), AskAssistant(context),
     if reply.ReplyThrew? then Toast(SendFailed) else SaveMessage(ReplyText(reply.result), AssistantRole)]
  }

  /** What a memoised `loadMoreMessages` sees: the page, the `hasMore` and
      the `isHistoryLoading` of the render that built it. */
  datatype Closure = Closure(page: nat, hasMore: bool, historyLoading: bool)

  /** The handler after a render: `useCallback(…, [page, hasMore])` builds a
      new one only when the page or `hasMore` differs from the values the
      current one was built with. */
  function Rendered(c: Closure, page: nat, hasMore: bool, historyLoading: bool): (r: Closure)
    ensures r.page == page && r.hasMore == hasMore
    ensures c.page == page && c.hasMore == hasMore ==> r == c
  {
    if c.page != page || c.hasMore != hasMore then Closure(page, hasMore, historyLoading) else c
  }

  class ChatScreenState {
    var messages: seq<Message>
    var inputText: string
    var isLoading: bool
    var isHistoryLoading: bool
    var page: nat
    var hasMore: bool
    var emotions: seq<Emotion>
    var effects: seq<Effect>
    /** The `loadMoreMessages` the list's end-reached event calls. */
    var loadMore: Closure

    constructor ()
      ensures messages == [] && inputText == "" && !isLoading && isHistoryLoading
      ensures page == 1 && hasMore && emotions == [] && effects == []
      ensures loadMore == Closure(1, true, true) && LoadMoreStuck()
    {
      messages, inputText := [], "";
      isLoading, isHistoryLoading := false, true;
      page, hasMore := 1, true;
      emotions, effects := [], [];
      loadMore := Closure(1, true, true);
    }

    /** The memoised handler is current for the page and `hasMore`, and its
      own guard stops it: it saw no more messages, or it saw a load
      running. */
    predicate LoadMoreStuck()
      reads this
    {
      loadMore.page == page && loadMore.hasMore == hasMore && (!loadMore.hasMore || loadMore.historyLoading)
    }

    /** The render that follows a handler's state updates. */
    method Rerender()
      modifies this`loadMore
      ensures loadMore == Rendered(old(loadMore), page, hasMore, isHistoryLoading)
    {
      loadMore := Rendered(loadMore, page, hasMore, isHistoryLoading);
    }

    function PagingOf(): Paging
      reads this
    {
      Paging(messages, page, hasMore)
    }

    /** `loadInitialData`: the emotions and the first twenty messages; an
      empty conversation becomes the greeting alone. */
    method LoadInitialData(user: UserLookup, emotionRows: QueryResult<Emotion>, first: QueryResult<Message>, now: string)
      modifies this
      ensures !isHistoryLoading
      ensures inputText == old(inputText) && isLoading == old(isLoading) && page == old(page)
      ensures user == LookupThrew ==>
        messages == old(messages) && hasMore == old(hasMore) && emotions == old(emotions)
        && effects == old(effects) + [Toast(LoadFailed)]
      ensures user == LookedUp(None) ==>
        messages == old(messages) && hasMore == old(hasMore) && emotions == old(emotions) && effects == old(effects)
      ensures user.LookedUp? && user.userId.Some? ==>
        && effects == old(effects) + [FetchMessages(Range(0, PageSize - 1))]
        && emotions == DataOf(emotionRows)
        && hasMore == (CountOf(first) > PageSize)
        && messages == (if |DataOf(first)| > 0 then DataOf(first) else [Welcome(now)])
      ensures loadMore == Rendered(old(loadMore), page, hasMore, isHistoryLoading)
      ensures old(LoadMoreStuck()) && old(hasMore) ==> LoadMoreStuck()
    {
      match user {
        case LookupThrew =>
          effects := effects + [Toast(LoadFailed)];
        case LookedUp(None) =>
        case LookedUp(Some(id)) =>
          effects := effects + [FetchMessages(Range(0, PageSize - 1))];
          emotions := DataOf(emotionRows);
          hasMore := CountOf(first) > PageSize;
          var rows := DataOf(first);
          messages := if |rows| > 0 then rows else [Welcome(now)];
      }
      isHistoryLoading := false;
      Rerender();
    }

    /** `loadMoreMessages` as intended, reading the current `hasMore`, page
      and `isHistoryLoading`: nothing while a load runs or when no more
      messages exist; otherwise the next twenty are appended. */
    method LoadMoreMessages(user: UserLookup, next: QueryResult<Message>)
      modifies this
      ensures loadMore == old(loadMore)
      ensures !old(hasMore) || old(isHistoryLoading) ==>
        && PagingOf() == old(PagingOf()) && effects == old(effects)
        && isHistoryLoading == old(isHistoryLoading)
      ensures old(hasMore) && !old(isHistoryLoading) ==> !isHistoryLoading
      ensures old(hasMore) && !old(isHistoryLoading) && user == LookupThrew ==>
        PagingOf() == old(PagingOf()) && effects == old(effects) + [Toast(LoadMoreFailed)]
      ensures old(hasMore) && !old(isHistoryLoading) && user == LookedUp(None) ==>
        PagingOf() == old(PagingOf()) && effects == old(effects)
      ensures old(hasMore) && !old(isHistoryLoading) && user.LookedUp? && user.userId.Some? ==>
        && effects == old(effects) + [FetchMessages(Range(old(page) * PageSize, (old(page) + 1) * PageSize - 1))]
        && hasMore == (CountOf(next) > (old(page) + 1) * PageSize)
        && messages == old(messages) + DataOf(next)
        && page == old(page) + 1
      ensures inputText == old(inputText) && isLoading == old(isLoading) && emotions == old(emotions)
    {
      if !hasMore || isHistoryLoading {
        return;
      }
      isHistoryLoading := true;
      match user {
        case LookupThrew =>
          effects := effects + [Toast(LoadMoreFailed)];
        case LookedUp(None) =>
        case LookedUp(Some(id)) =>
          effects := effects + [FetchMessages(Range(page * PageSize, (page + 1) * PageSize - 1))];
          hasMore := CountOf(next) > (page + 1) * PageSize;
          messages := messages + DataOf(next);
          page := page + 1;
      }
      isHistoryLoading := false;
    }

    /** `loadMoreMessages` as written: the handler memoised on the page and
      `hasMore` alone, so its guard reads the `isHistoryLoading` of the
      render that built it. The page it asks for is the one it saw; the
      page counter itself is bumped from the current value. */
    method LoadMoreMessagesAsWritten(user: UserLookup, next: QueryResult<Message>)
      modifies this
      ensures !old(loadMore.hasMore) || old(loadMore.historyLoading) ==>
        && PagingOf() == old(PagingOf()) && effects == old(effects)
        && isHistoryLoading == old(isHistoryLoading) && loadMore == old(loadMore)
      ensures old(loadMore.hasMore) && !old(loadMore.historyLoading) ==>
        !isHistoryLoading && loadMore == Rendered(old(loadMore), page, hasMore, isHistoryLoading)
      ensures old(loadMore.hasMore) && !old(loadMore.historyLoading) && user == LookupThrew ==>
        PagingOf() == old(PagingOf()) && effects == old(effects) + [Toast(LoadMoreFailed)]
      ensures old(loadMore.hasMore) && !old(loadMore.historyLoading) && user == LookedUp(None) ==>
        PagingOf() == old(PagingOf()) && effects == old(effects)
      ensures old(loadMore.hasMore) && !old(loadMore.historyLoading) && user.LookedUp? && user.userId.Some? ==>
        && effects == old(effects) + [FetchMessages(Range(old(loadMore.page) * PageSize, (old(loadMore.page) + 1) * PageSize - 1))]
        && hasMore == (CountOf(next) > (old(loadMore.page) + 1) * PageSize)
        && messages == old(messages) + DataOf(next)
        && page == old(page) + 1
        && loadMore == Rendered(old(loadMore), page, hasMore, isHistoryLoading)
      ensures old(LoadMoreStuck()) ==> LoadMoreStuck()
      ensures inputText == old(inputText) && isLoading == old(isLoading) && emotions == old(emotions)
    {
      var seen := loadMore;
      if !seen.hasMore || seen.historyLoading {
        return;
      }
      isHistoryLoading := true;
      match user {
        case LookupThrew =>
          effects := effects + [Toast(LoadMoreFailed)];
        case LookedUp(None) =>
        case LookedUp(Some(id)) =>
          effects := effects + [FetchMessages(Range(seen.page * PageSize, (seen.page + 1) * PageSize - 1))];
          hasMore := CountOf(next) > (seen.page + 1) * PageSize;
          messages := messages + DataOf(next);
          page := page + 1;
      }
      isHistoryLoading := false;
      Rerender();
    }

    /** The 'Удалить' button of `clearHistory`: the delete is issued and,
      whatever it answers, the conversation is reset to the greeting. */
    method ClearHistory(user: UserLookup, now: string)
      modifies this
      ensures user == LookupThrew ==> PagingOf() == old(PagingOf()) && effects == old(effects) + [Toast(ClearFailed)]
      ensures user == LookedUp(None) ==> PagingOf() == old(PagingOf()) && effects == old(effects)
      ensures user.LookedUp? && user.userId.Some? ==>
        && effects == old(effects) + [DeleteChats(user.userId.value)]
        && PagingOf() == Paging([Welcome(now)], 1, false)
      ensures inputText == old(inputText) && isLoading == old(isLoading)
      ensures isHistoryLoading == old(isHistoryLoading) && emotions == old(emotions)
      ensures loadMore == Rendered(old(loadMore), page, hasMore, isHistoryLoading)
      ensures old(LoadMoreStuck()) ==> LoadMoreStuck()
    {
      match user {
        case LookupThrew =>
          effects := effects + [Toast(ClearFailed)];
        case LookedUp(None) =>
        case LookedUp(Some(id)) =>
          effects := effects + [DeleteChats(id)];
          messages, page, hasMore := [Welcome(now)], 1, false;
      }
      Rerender();
    }

    /** `handleSend`, with the record each save returned (if any) and the
      model's reply. Blank input, or a send already running, changes
      nothing, not even the input. Otherwise each message is shown only
      when its save returned a record, and the input ends empty. */
    method HandleSend(format: string -> string, savedUser: Option<Message>, reply: Reply, savedAssistant: Option<Message>)
      modifies this
      ensures Blank(old(inputText)) || old(isLoading) ==>
        && messages == old(messages) && inputText == old(inputText)
        && isLoading == old(isLoading) && effects == old(effects)
      ensures !Blank(old(inputText)) && !old(isLoading) ==>
        && inputText == "" && !isLoading
        && messages == old(messages) + Shown(savedUser, reply, savedAssistant)
        && effects == old(effects) + SendEffects(old(inputText), ContextMessage(emotions, old(inputText), format), reply)
      ensures emotions == old(emotions) && page == old(page) && hasMore == old(hasMore)
      ensures isHistoryLoading == old(isHistoryLoading) && loadMore == old(loadMore)
    {
      if Blank(inputText) || isLoading {
        return;
      }
      Send(format, savedUser, reply, savedAssistant);
    }

    /** The part of `handleSend` after its guard. */
    method Send(format: string -> string, savedUser: Option<Message>, reply: Reply, savedAssistant: Option<Message>)
      modifies this
      ensures inputText == "" && !isLoading
      ensures messages == old(messages) + Shown(savedUser, reply, savedAssistant)
      ensures effects == old(effects) + SendEffects(old(inputText), ContextMessage(emotions, old(inputText), format), reply)
      ensures emotions == old(emotions) && page == old(page) && hasMore == old(hasMore)
      ensures isHistoryLoading == old(isHistoryLoading) && loadMore == old(loadMore)
    {
      var input := inputText;
      isLoading := true;
      messages := messages + Shown(savedUser, reply, savedAssistant);
      effects := effects + SendEffects(input, ContextMessage(emotions, input, format), reply);
      inputText := "";
      isLoading := false;
    }
  }

  /** As written: on a fresh screen, after the initial load, reaching the
      end of the list fetches nothing, however many messages are stored,
      because the memoised handler still sees the first render's
      `isHistoryLoading`. */
  method InitialLoadThenLoadMoreAsWritten(id: string, emotionRows: QueryResult<Emotion>, first: QueryResult<Message>,
                                          next: QueryResult<Message>, now: string)
    returns (added: seq<Effect>)
    ensures added == []
  {
    var screen := new ChatScreenState();
    screen.LoadInitialData(LookedUp(Some(id)), emotionRows, first, now);
    var before := screen.effects;
    screen.LoadMoreMessagesAsWritten(LookedUp(Some(id)), next);
    added := screen.effects[|before|..];
  }

  /** As intended: the same steps fetch the second page exactly when the
      stored conversation has more than one page. */
  method InitialLoadThenLoadMore(id: string, emotionRows: QueryResult<Emotion>, first: QueryResult<Message>,
                                 next: QueryResult<Message>, now: string)
    returns (added: seq<Effect>)
    ensures CountOf(first) > PageSize ==> added == [FetchMessages(Range(PageSize, 2 * PageSize - 1))]
    ensures CountOf(first) <= PageSize ==> added == []
  {
    var screen := new ChatScreenState();
    screen.LoadInitialData(LookedUp(Some(id)), emotionRows, first, now);
    var before := screen.effects;
    screen.LoadMoreMessages(LookedUp(Some(id)), next);
    added := screen.effects[|before|..];
  }
}

/**
 * The request handlers of server/routes.ts that work on the store of
 * server/storage.ts: create-or-get a conversation, take one chat turn, and
 * fetch a shloka with its chapter. The language-model call is a function
 * parameter: it receives the role-mapped history and returns either the
 * parsed reply or a failure.
 */
module Routes {
  import opened Wrappers
  import opened Text
  import opened Seqs
  import opened Schema
  import opened Storage

  /** The two roles the model API knows; the assistant's turns are sent as `model`. */
  datatype ModelRole = UserTurn | ModelTurn

  /** One entry of the `contents` sent to the model: a role and the text of its single part. */
  datatype Content = Content(role: ModelRole, text: Option<string>)

  /**
   * The object `JSON.parse` gives for the model's answer. Every key may be
   * missing: an empty answer is parsed as `{}`.
   */
  datatype AiReply = AiReply(
    message: Option<string>, options: Option<seq<string>>, progressPercentage: Option<int>,
    shouldShowShloka: Option<bool>, shlokaQuery: Option<string>)

  /** The model call either returns a parsed reply or throws (network failure, or a reply that is not JSON). */
  datatype ModelOutcome = Reply(reply: AiReply) | CallFailed

  /** The `aiResponse` object of the turn's answer. */
  datatype ReplyBody = ReplyBody(message: Option<string>, options: seq<string>, shouldShowShloka: bool)

  /** The answers of `POST /api/conversations/:sessionId/messages`. */
  datatype TurnResponse =
    | MessageRequired       // 400 "Message is required"
    | ConversationNotFound  // 404 "Conversation not found"
    | ProcessingFailed      // 500 "Failed to process message"
    | Replied(conversation: Conversation, aiResponse: ReplyBody, relevantShloka: Option<Shloka>)

  /** What one turn answers and the conversations it leaves in the store. */
  datatype TurnResult = TurnResult(response: TurnResponse, conversations: map<string, Conversation>)

  /** The answers of `GET /api/shlokas/:id`. */
  datatype ShlokaResponse =
    | ShlokaNotFound        // 404 "Shloka not found"
    | ShlokaFound(shloka: Shloka, chapter: Option<Chapter>)

  /** `m.role === 'user' ? 'user' : 'model'`. */
  function ModelRoleOf(role: Role): ModelRole {
    if role == User then UserTurn else ModelTurn
  }

  /** `messages.map(m => ({ role: ..., parts: [{ text: m.content }] }))`. */
  function ModelContents(messages: seq<Message>): (r: seq<Content>)
    ensures |r| == |messages|
    ensures forall i :: 0 <= i < |messages| ==>
              r[i].text == messages[i].content && (r[i].role == UserTurn <==> messages[i].role == User)
    decreases |messages|
  {
    if messages == [] then []
    else [Content(ModelRoleOf(messages[0].role), messages[0].content)] + ModelContents(messages[1..])
  }

  /** Mapping a history with a message appended appends that message's content. */
  lemma {:induction false} ModelContentsAppend(messages: seq<Message>, m: Message)
    ensures ModelContents(messages + [m]) == ModelContents(messages) + [Content(ModelRoleOf(m.role), m.content)]
    decreases |messages|
  {
    if messages == [] {
      assert messages + [m] == [m];
    } else {
      assert (messages + [m])[1..] == messages[1..] + [m];
      ModelContentsAppend(messages[1..], m);
    }
  }

  /** A falsy `message` (missing, `null` or empty) is rejected. */
  predicate MessageGiven(message: Option<string>) {
    message.Some? && message.value != ""
  }

  /**
   * `aiResponse.progressPercentage || Math.min(100, previous + 20)`: a non-zero
   * value from the model is taken as it is, unclamped; otherwise progress
   * advances by 20 up to 100.
   */
  function NextProgress(previous: int, reported: Option<int>): (p: int)
    ensures reported.Some? && reported.value != 0 ==> p == reported.value
    ensures reported.None? || reported.value == 0 ==>
              p <= 100 && (p == 100 || p == previous + 20) && (previous + 20 <= 100 ==> p == previous + 20)
  {
    if reported.Some? && reported.value != 0 then reported.value
    else if previous + 20 < 100 then previous + 20 else 100
  }

  /** The model's figure is not clamped to the range 0 to 100. */
  lemma NextProgressUnclamped()
    ensures NextProgress(50, Some(250)) == 250 && NextProgress(50, Some(-5)) == -5
  {
  }

  /** Progress after `k` turns in which the model reports nothing (or zero). */
  function ProgressWithoutReports(previous: int, k: nat): int
    decreases k
  {
    if k == 0 then previous else ProgressWithoutReports(NextProgress(previous, None), k - 1)
  }

  /** Without reports from the model, `k >= 1` turns give `min(100, previous + 20 * k)`. */
  lemma {:induction false} ProgressWithoutReportsIs(previous: int, k: nat)
    requires k >= 1
    ensures ProgressWithoutReports(previous, k) == if previous + 20 * k < 100 then previous + 20 * k else 100
    decreases k
  {
    var next := NextProgress(previous, None);
    if k > 1 {
      ProgressWithoutReportsIs(next, k - 1);
    }
  }

  /** Five silent turns take a fresh conversation from 0 to 100. */
  lemma FiveTurnsComplete()
    ensures ProgressWithoutReports(0, 5) == 100
  {
    ProgressWithoutReportsIs(0, 5);
  }

  /** `aiResponse.shouldShowShloka && aiResponse.shlokaQuery`: a verse is wanted and a non-empty query given. */
  predicate WantsShloka(ai: AiReply) {
    ai.shouldShowShloka == Some(true) && ai.shlokaQuery.Some? && ai.shlokaQuery.value != ""
  }

  /** The verse a turn shows: the first search hit for the model's query, if it wants one and there is one. */
  function Resolve(all: seq<Shloka>, ai: AiReply): (r: Option<Shloka>)
    ensures r.Some? <==> WantsShloka(ai) && Search(all, ai.shlokaQuery.value) != []
    ensures r.Some? ==> r.value in all && MatchesTerm(r.value, Lower(ai.shlokaQuery.value))
  {
    if WantsShloka(ai) && |Search(all, ai.shlokaQuery.value)| > 0 then Some(Search(all, ai.shlokaQuery.value)[0])
    else None
  }

  /** The resolved verse is the first one in store order that matches the query. */
  lemma ResolveIsFirstMatch(all: seq<Shloka>, ai: AiReply)
    requires Resolve(all, ai).Some?
    ensures exists i :: 0 <= i < |all| && all[i] == Resolve(all, ai).value
                        && (forall j :: 0 <= j < i ==> !MatchesTerm(all[j], Lower(ai.shlokaQuery.value)))
  {
    var q := ai.shlokaQuery.value;
    var p := (s: Shloka) => MatchesTerm(s, Lower(q));
    assert Search(all, q) == Filter(all, p);
    FilterHead(all, p);
  }

  /** The first write of a turn: the two new messages, the next step and the new progress. */
  function TurnUpdate(c: Conversation, history: seq<Message>, ai: AiReply, assistantTime: string): ConversationUpdate {
    ConversationUpdate(
      id := None, sessionId := None,
      messages := Some(history + [Message(Assistant, ai.message, assistantTime)]),
      currentStep := Some(c.currentStep + 1),
      progressPercentage := Some(NextProgress(c.progressPercentage, ai.progressPercentage)),
      selectedShlokaId := None, createdAt := None)
  }

  /** The second write of a turn: only the selected verse. */
  function SelectShloka(id: int): ConversationUpdate {
    ConversationUpdate(None, None, None, None, None, Some(Some(id)), None)
  }

  /** `{ message, options: options || [], shouldShowShloka: shouldShowShloka || false }`. */
  function Body(ai: AiReply): (b: ReplyBody)
    ensures b.message == ai.message
    ensures ai.options.Some? ==> b.options == ai.options.value
    ensures ai.options.None? ==> b.options == []
    ensures b.shouldShowShloka <==> ai.shouldShowShloka == Some(true)
  {
    ReplyBody(ai.message, ai.options.GetOr([]), ai.shouldShowShloka == Some(true))
  }

  /**
   * The whole message turn on the store's conversations: the reference
   * definition `PostMessage` is proved against.
   */
  function Turn(convs: map<string, Conversation>, shlokas: seq<Shloka>, sessionId: string,
                message: Option<string>, userTime: string, assistantTime: string,
                responder: seq<Content> -> ModelOutcome): TurnResult
  {
    if !MessageGiven(message) then TurnResult(MessageRequired, convs)
    else if sessionId !in convs then TurnResult(ConversationNotFound, convs)
    else
      var c := convs[sessionId];
      var history := c.messages + [Message(User, message, userTime)];
      match responder(ModelContents(history))
      case CallFailed => TurnResult(ProcessingFailed, convs)
      case Reply(ai) =>
        var snapshot := Merge(c, TurnUpdate(c, history, ai, assistantTime));
        var relevant := Resolve(shlokas, ai);
        var stored := if relevant.Some? then Merge(snapshot, SelectShloka(relevant.value.id)) else snapshot;
        TurnResult(Replied(snapshot, Body(ai), relevant), convs[sessionId := stored])
  }

  /** Every failure is decided before the first write: a failed turn stores nothing, not even the user's message. */
  lemma TurnFailureWritesNothing(convs: map<string, Conversation>, shlokas: seq<Shloka>, sessionId: string,
                                 message: Option<string>, userTime: string, assistantTime: string,
                                 responder: seq<Content> -> ModelOutcome)
    ensures var out := Turn(convs, shlokas, sessionId, message, userTime, assistantTime, responder);
            && (out.response.MessageRequired? <==> !MessageGiven(message))
            && (out.response.ConversationNotFound? <==> MessageGiven(message) && sessionId !in convs)
            && (!out.response.Replied? ==> out.conversations == convs)
  {
  }

  /** The model sees the stored history followed by the new user message, roles mapped, in order. */
  lemma TurnModelInput(c: Conversation, text: string, userTime: string)
    ensures var contents := ModelContents(c.messages + [Message(User, Some(text), userTime)]);
            && |contents| == |c.messages| + 1
            && contents[..|c.messages|] == ModelContents(c.messages)
            && contents[|c.messages|] == Content(UserTurn, Some(text))
  {
    ModelContentsAppend(c.messages, Message(User, Some(text), userTime));
  }

  /**
   * A successful turn appends exactly the user's message and the assistant's
   * reply, advances the step by one, takes the progress the reply reports (or
   * adds 20) and keeps the record's other fields; the answer shows this first
   * write, with the verse selection as it was before, and the reply's body.
   */
  lemma TurnSuccessAppendsTwo(convs: map<string, Conversation>, shlokas: seq<Shloka>, sessionId: string,
                              message: Option<string>, userTime: string, assistantTime: string,
                              responder: seq<Content> -> ModelOutcome)
    requires Turn(convs, shlokas, sessionId, message, userTime, assistantTime, responder).response.Replied?
    ensures sessionId in convs && message.Some?
    ensures responder(ModelContents(convs[sessionId].messages + [Message(User, message, userTime)])).Reply?
    ensures var c := convs[sessionId];
            var ai := responder(ModelContents(c.messages + [Message(User, message, userTime)])).reply;
            var r := Turn(convs, shlokas, sessionId, message, userTime, assistantTime, responder).response;
            var snapshot := r.conversation;
            && snapshot.messages == c.messages + [Message(User, message, userTime), Message(Assistant, ai.message, assistantTime)]
            && snapshot.currentStep == c.currentStep + 1
            && snapshot.progressPercentage == NextProgress(c.progressPercentage, ai.progressPercentage)
            && snapshot.selectedShlokaId == c.selectedShlokaId
            && snapshot.id == c.id && snapshot.sessionId == c.sessionId && snapshot.createdAt == c.createdAt
            && r.aiResponse == Body(ai)
  {
  }

  /**
   * After a successful turn only the turn's session has changed. It holds the
   * answer's record, with the verse selection replaced by the resolved verse
   * when there is one.
   */
  lemma TurnStoresSnapshotAndVerse(convs: map<string, Conversation>, shlokas: seq<Shloka>, sessionId: string,
                                   message: Option<string>, userTime: string, assistantTime: string,
                                   responder: seq<Content> -> ModelOutcome)
    requires Turn(convs, shlokas, sessionId, message, userTime, assistantTime, responder).response.Replied?
    ensures var out := Turn(convs, shlokas, sessionId, message, userTime, assistantTime, responder);
            var snapshot := out.response.conversation;
            var relevant := out.response.relevantShloka;
            && out.conversations.Keys == convs.Keys
            && (forall other :: other in convs && other != sessionId ==> out.conversations[other] == convs[other])
            && (relevant.None? ==> out.conversations[sessionId] == snapshot)
            && (relevant.Some? ==>
                  out.conversations[sessionId] == snapshot.(selectedShlokaId := Some(relevant.value.id)))
  {
  }

  /**
   * The answer's verse is the one the reply resolves to: there is one exactly
   * when the model asked for a verse with a non-empty query and the search
   * finds something, and it is then shown only because the model asked for it.
   */
  lemma TurnVerseNeedsRequest(convs: map<string, Conversation>, shlokas: seq<Shloka>, sessionId: string,
                              message: Option<string>, userTime: string, assistantTime: string,
                              responder: seq<Content> -> ModelOutcome)
    requires Turn(convs, shlokas, sessionId, message, userTime, assistantTime, responder).response.Replied?
    ensures sessionId in convs
    ensures var ai := responder(ModelContents(convs[sessionId].messages + [Message(User, message, userTime)])).reply;
            var r := Turn(convs, shlokas, sessionId, message, userTime, assistantTime, responder).response;
            && r.relevantShloka == Resolve(shlokas, ai)
            && (r.relevantShloka.Some? <==> WantsShloka(ai) && Search(shlokas, ai.shlokaQuery.value) != [])
            && (r.relevantShloka.Some? ==> r.aiResponse.shouldShowShloka && r.relevantShloka.value in shlokas)
  {
  }

  /**
   * `POST /api/conversations`: returns the stored conversation of the session,
   * or creates an empty one (step 0, progress 0, no verse) stamped `now`.
   */
  method CreateOrGetConversation(store: MemStorage, sessionId: string, now: string) returns (c: Conversation)
    requires store.Valid()
    modifies store`conversations, store`currentConversationId
    ensures store.Valid()
    ensures sessionId in old(store.conversations) ==>
              && c == old(store.conversations)[sessionId]
              && store.conversations == old(store.conversations)
              && store.currentConversationId == old(store.currentConversationId)
    ensures sessionId !in old(store.conversations) ==>
              && c == Conversation(old(store.currentConversationId), sessionId, [], 0, 0, None, now)
              && store.conversations == old(store.conversations)[sessionId := c]
              && store.currentConversationId == old(store.currentConversationId) + 1
  {
    var conversation := store.GetConversation(sessionId);
    if conversation.None? {
      c := store.CreateConversation(InsertConversation(sessionId, [], Some(0), Some(0), None, now));
    } else {
      c := conversation.value;
    }
  }

  /** Create-or-get is idempotent: a second call returns the first call's record and writes nothing. */
  method CreateOrGetTwice(store: MemStorage, sessionId: string, now1: string, now2: string)
    returns (first: Conversation, second: Conversation)
    requires store.Valid()
    modifies store`conversations, store`currentConversationId
    ensures store.Valid()
    ensures second == first && sessionId in store.conversations && store.conversations[sessionId] == first
    ensures sessionId in old(store.conversations) ==> store.conversations == old(store.conversations)
  {
    first := CreateOrGetConversation(store, sessionId, now1);
    second := CreateOrGetConversation(store, sessionId, now2);
  }

  /**
   * `POST /api/conversations/:sessionId/messages`. `userTime` and
   * `assistantTime` are the two timestamps the handler takes, `responder` the
   * model call.
   */
  method PostMessage(store: MemStorage, sessionId: string, message: Option<string>,
                     userTime: string, assistantTime: string, responder: seq<Content> -> ModelOutcome)
    returns (r: TurnResponse)
    requires store.Valid()
    modifies store`conversations
    ensures store.Valid()
    ensures TurnResult(r, store.conversations)
            == Turn(old(store.conversations), store.ShlokaList(), sessionId, message, userTime, assistantTime, responder)
  {
    if message.None? || message.value == "" {
      return MessageRequired;
    }
    var conversation := store.GetConversation(sessionId);
    if conversation.None? {
      return ConversationNotFound;
    }
    var c := conversation.value;
    var userMessage := Message(User, message, userTime);
    var updatedMessages := c.messages + [userMessage];
    var outcome := responder(ModelContents(updatedMessages));
    if outcome.CallFailed? {
      return ProcessingFailed;
    }
    var ai := outcome.reply;
    var updated := store.UpdateConversation(sessionId, TurnUpdate(c, updatedMessages, ai, assistantTime));
    var updatedConversation := updated.value;

    var relevantShloka := ShowRelevantShloka(store, sessionId, ai);
    r := Replied(updatedConversation, Body(ai), relevantShloka);
    assert store.ShlokaList() == old(store.ShlokaList());
  }

  /**
   * The verse step of a turn: when the model asks for a verse with a
   * non-empty query, the first search hit is the answer's verse and becomes
   * the session's selected verse; otherwise nothing is written.
   */
  method ShowRelevantShloka(store: MemStorage, sessionId: string, ai: AiReply) returns (relevant: Option<Shloka>)
    requires store.Valid() && sessionId in store.conversations
    modifies store`conversations
    ensures store.Valid()
    ensures relevant == Resolve(store.ShlokaList(), ai)
    ensures relevant.None? ==> store.conversations == old(store.conversations)
    ensures relevant.Some? ==>
              store.conversations == old(store.conversations)[sessionId :=
                Merge(old(store.conversations)[sessionId], SelectShloka(relevant.value.id))]
  {
    relevant := None;
    if ai.shouldShowShloka == Some(true) && ai.shlokaQuery.Some? && ai.shlokaQuery.value != "" {
      var shlokas := store.SearchShlokas(ai.shlokaQuery.value);
      if |shlokas| > 0 {
        relevant := Some(shlokas[0]);
        var selected := store.UpdateConversation(sessionId, SelectShloka(shlokas[0].id));
      }
    }
  }

  /**
   * `GET /api/shlokas/:id`; `id` is the result of `parseInt`, `None` when it
   * is not a number. A found shloka comes with the chapter its chapter id names.
   */
  method GetShlokaWithChapter(store: MemStorage, id: Option<int>) returns (r: ShlokaResponse)
    requires store.Valid()
    ensures id.None? || id.value !in store.shlokas ==> r == ShlokaNotFound
    ensures id.Some? && id.value in store.shlokas ==>
              r == ShlokaFound(store.shlokas[id.value], store.GetChapter(store.shlokas[id.value].chapterId))
    ensures r.ShlokaFound? <==> id.Some? && 1 <= id.value <= 2
    ensures r.ShlokaFound? ==> r.shloka.id == id.value && r.chapter.Some? && r.chapter.value.chapterNumber == 2
  {
    if id.None? {
      return ShlokaNotFound;
    }
    var shloka := store.GetShloka(id.value);
    if shloka.None? {
      return ShlokaNotFound;
    }
    var chapter := store.GetChapter(shloka.value.chapterId);
    r := ShlokaFound(shloka.value, chapter);
  }
}

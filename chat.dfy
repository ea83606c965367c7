/**
 * The chat screen (components/ChatInterface.tsx): the session that
 * restores or greets, sends a turn to the assistant and shows the reply or
 * a connection error, retries the last question, and records feedback;
 * and the three interactive widgets a reply can carry (the checklist, the
 * quiz and the media carousel).
 *
 * Each React component is a class whose fields are its `useState`
 * variables; a handler is a method.  The clock readings are parameters:
 * `now` is Date.now() when the handler starts and `later` when the
 * assistant's answer arrives.  A send awaits Gemini.RagEngine.SendMessage,
 * which is given what the outside world answers it (the history probe, the
 * model's reply, the clock during the tool calls); a storage write that
 * fails is a `writeFails` flag.
 */
module Chat {
  import opened Types
  import opened Text
  import Gemini

  // ---------------------------------------------------------------------
  // Messages
  // ---------------------------------------------------------------------

  const WelcomeText: string :=
    "Cześć! Jestem Twoim Asystentem Szkoleniowym DELOS. Działam w trybie ZAMKNIĘTYM (Closed System) - korzystam wyłącznie z wewnętrznej bazy wiedzy. W czym mogę pomóc?"

  const ErrorText: string := "Przepraszam, chwilowy problem z połączeniem. Spróbujmy jeszcze raz."

  /** The window of the repeat check, in milliseconds. */
  const RepeatWindow: int := 5000

  /** WELCOME_MESSAGE; `loadedAt` is the clock when the module was loaded. */
  function WelcomeMessage(loadedAt: int): Message {
    Message("welcome", Model, WelcomeText, loadedAt, "", None, None, None, None, [], false, false)
  }

  function UserMessage(text: string, image: string, now: nat): Message {
    Message(Decimal(now), User, text, now, image, None, None, None, None, [], false, false)
  }

  /** The reply, with an id one millisecond past the clock. */
  function BotMessage(result: Gemini.ChatResult, later: nat): Message {
    Message(Decimal(later + 1), Model, result.text, later, "", result.createdTicket, result.media, result.widget,
            None, result.sources, false, result.isClarification)
  }

  function ErrorMessage(later: nat): Message {
    Message(Decimal(later), System, ErrorText, later, "", None, None, None, None, [], true, false)
  }

  /** What is handed to the assistant: the text and the image's base64 payload ("" for none). */
  datatype Request = Request(query: string, image: string)

  /** A data URL loses its `data:...;base64,` header; any other value is passed as it is. */
  function ImagePayload(image: string): string {
    if image != "" && ',' in image then
      SplitPieces(image, ',');
      CountCharPresent(image, ',');
      Split(image, ',')[1]
    else image
  }

  /** The payload of a data URL holds no comma and follows the first comma of the URL. */
  lemma ImagePayloadAfterHeader(header: string, payload: string)
    requires ',' !in header && ',' !in payload
    ensures ImagePayload(header + "," + payload) == payload
  {
    SplitAround(header, ',', payload);
    SplitSingle(header, ',');
    SplitSingle(payload, ',');
    assert header + "," + payload == header + [','] + payload;
  }

  lemma {:induction false} SplitSingle(s: string, sep: char)
    requires sep !in s
    ensures Split(s, sep) == [s]
  {
    if s != [] {
      SplitSingle(s[1..], sep);
      assert [s[0]] + s[1..] == s;
    }
  }

  /** A handler sends only when there is text that is not blank or an image. */
  predicate Sends(text: string, image: string) {
    Trim(text) != "" || image != ""
  }

  /** The repeat check: a message with the same text in the last five seconds. */
  predicate IsRecentRepeat(messages: seq<Message>, text: string, now: int) {
    exists k | 0 <= k < |messages| :: messages[k].text == text && messages[k].timestamp > now - RepeatWindow
  }

  /** The list after the user's turn: unchanged for a repeat, otherwise one user message more. */
  function WithUserTurn(messages: seq<Message>, text: string, image: string, now: nat): seq<Message> {
    if IsRecentRepeat(messages, text, now) then messages else messages + [UserMessage(text, image, now)]
  }

  /** The list once the answer or the error has arrived. */
  function AfterSend(messages: seq<Message>, text: string, image: string, now: nat, later: nat,
                     outcome: Gemini.Outcome): seq<Message> {
    var history := WithUserTurn(messages, text, image, now);
    match outcome
    case Answered(result) => history + [BotMessage(result, later)]
    case Threw => history + [ErrorMessage(later)]
  }

  /** What the chat store holds after a send: the user's turn, then the answered list; an error is not written. */
  function StoreAfterSend(store: Gemini.ChatStore, messages: seq<Message>, text: string, image: string,
                          now: nat, later: nat, outcome: Gemini.Outcome, firstWriteFails: bool,
                          secondWriteFails: bool): Gemini.ChatStore {
    var afterTurn :=
      if IsRecentRepeat(messages, text, now) || firstWriteFails then store
      else Gemini.SavedChat(WithUserTurn(messages, text, image, now));
    if outcome.Answered? && !secondWriteFails then Gemini.SavedChat(AfterSend(messages, text, image, now, later, outcome))
    else afterTurn
  }

  /** The user's turn followed by the reply gives the list and the store a send leaves. */
  lemma SendSteps(messages: seq<Message>, store: Gemini.ChatStore, text: string, image: string, now: nat, later: nat,
                  outcome: Gemini.Outcome, firstWriteFails: bool, secondWriteFails: bool,
                  newHistory: seq<Message>, store1: Gemini.ChatStore, final: seq<Message>, store2: Gemini.ChatStore)
    requires newHistory == WithUserTurn(messages, text, image, now)
    requires store1 == if IsRecentRepeat(messages, text, now) || firstWriteFails then store
                       else Gemini.SavedChat(newHistory)
    requires outcome.Answered? ==> final == newHistory + [BotMessage(outcome.result, later)]
    requires outcome.Threw? ==> final == newHistory + [ErrorMessage(later)]
    requires store2 == if outcome.Answered? && !secondWriteFails then Gemini.SavedChat(final) else store1
    ensures final == AfterSend(messages, text, image, now, later, outcome)
    ensures store2 == StoreAfterSend(store, messages, text, image, now, later, outcome, firstWriteFails, secondWriteFails)
  {
  }

  /** A send keeps the list and adds the user's turn, unless it repeats, and one reply. */
  lemma SendExtendsList(messages: seq<Message>, text: string, image: string, now: nat, later: nat, outcome: Gemini.Outcome)
    ensures var r := AfterSend(messages, text, image, now, later, outcome);
            r[..|messages|] == messages
            && |r| == |messages| + (if IsRecentRepeat(messages, text, now) then 1 else 2)
            && (!IsRecentRepeat(messages, text, now) ==> r[|messages|] == UserMessage(text, image, now))
            && r[|r| - 1] == (if outcome.Answered? then BotMessage(outcome.result, later) else ErrorMessage(later))
  {
  }

  /** The last message is an error exactly when the call threw. */
  lemma ErrorShownOnlyOnFailure(messages: seq<Message>, text: string, image: string, now: nat, later: nat,
                                outcome: Gemini.Outcome)
    ensures var r := AfterSend(messages, text, image, now, later, outcome);
            r[|r| - 1].isError <==> outcome.Threw?
  {
  }

  /** A successful answer is shown and stored alike. */
  lemma AnsweredListIsStored(store: Gemini.ChatStore, messages: seq<Message>, text: string, image: string,
                             now: nat, later: nat, result: Gemini.ChatResult, firstWriteFails: bool)
    ensures StoreAfterSend(store, messages, text, image, now, later, Gemini.Answered(result), firstWriteFails, false)
            == Gemini.SavedChat(AfterSend(messages, text, image, now, later, Gemini.Answered(result)))
  {
  }

  /** After a failure the store holds the list without the error message: it is shown but not written. */
  lemma ErrorIsNotStored(store: Gemini.ChatStore, messages: seq<Message>, text: string, image: string,
                         now: nat, later: nat, firstWriteFails: bool, secondWriteFails: bool)
    requires !IsRecentRepeat(messages, text, now) && !firstWriteFails
    ensures var r := AfterSend(messages, text, image, now, later, Gemini.Threw);
            StoreAfterSend(store, messages, text, image, now, later, Gemini.Threw, firstWriteFails, secondWriteFails)
            == Gemini.SavedChat(r[..|r| - 1])
  {
    var r := AfterSend(messages, text, image, now, later, Gemini.Threw);
    assert r[..|r| - 1] == WithUserTurn(messages, text, image, now);
  }

  /** When the answer comes no earlier than the question, the reply's id differs from the question's. */
  lemma ReplyIdDiffersFromTurnId(text: string, image: string, now: nat, later: nat, result: Gemini.ChatResult)
    requires now <= later
    ensures BotMessage(result, later).id != UserMessage(text, image, now).id
  {
    if Decimal(later + 1) == Decimal(now) {
      DecimalInjective(later + 1, now);
    }
  }

  /** The most recent user message: `[...messages].reverse().find(...)`. */
  function LastUser(messages: seq<Message>): (r: Option<Message>)
    ensures r.Some? <==> exists k :: 0 <= k < |messages| && messages[k].role == User
    ensures r.Some? ==> r.value.role == User && r.value in messages
  {
    if messages == [] then None
    else if messages[|messages| - 1].role == User then Some(messages[|messages| - 1])
    else
      var r := LastUser(messages[..|messages| - 1]);
      assert forall k :: 0 <= k < |messages| - 1 ==> messages[..|messages| - 1][k] == messages[k];
      r
  }

  /** `messages.filter(m => !m.isError)` */
  function WithoutErrors(messages: seq<Message>): (r: seq<Message>)
    ensures |r| <= |messages|
    ensures forall m :: m in r <==> m in messages && !m.isError
  {
    if messages == [] then []
    else (if messages[0].isError then [] else [messages[0]]) + WithoutErrors(messages[1..])
  }

  /** handleRetry: the last user turn is resent on the list with the error messages removed. */
  function Retried(messages: seq<Message>, now: nat, later: nat, outcome: Gemini.Outcome): seq<Message> {
    match LastUser(messages)
    case None => messages
    case Some(last) =>
      var filtered := WithoutErrors(messages);
      if !Sends(last.text, last.visualAttachment) then filtered
      else AfterSend(filtered, last.text, last.visualAttachment, now, later, outcome)
  }

  /** A retry removes every earlier error message: the list ends with at most the new error. */
  lemma RetryClearsOldErrors(messages: seq<Message>, now: nat, later: nat, outcome: Gemini.Outcome)
    ensures var r := Retried(messages, now, later, outcome);
            LastUser(messages).Some? ==> forall k :: 0 <= k < |r| - 1 ==> !r[k].isError
  {
    var r := Retried(messages, now, later, outcome);
    match LastUser(messages)
    case None =>
    case Some(last) =>
      var filtered := WithoutErrors(messages);
      forall k | 0 <= k < |filtered| ensures !filtered[k].isError {
        assert filtered[k] in filtered;
      }
      if Sends(last.text, last.visualAttachment) {
        var u := UserMessage(last.text, last.visualAttachment, now);
        assert !u.isError;
        SendExtendsList(filtered, last.text, last.visualAttachment, now, later, outcome);
        forall k | 0 <= k < |r| - 1 ensures !r[k].isError {
          if k < |filtered| {
            assert r[k] == r[..|filtered|][k] == filtered[k];
          }
        }
      }
  }

  /** `messages.map(m => m.id === msgId ? { ...m, feedback } : m)` */
  function WithFeedback(messages: seq<Message>, msgId: string, isPositive: bool): (r: seq<Message>)
    ensures |r| == |messages|
  {
    seq(|messages|, k requires 0 <= k < |messages| =>
      if messages[k].id == msgId then messages[k].(feedback := Some(if isPositive then Positive else Negative))
      else messages[k])
  }

  /** Feedback changes the feedback of the messages with that id and nothing else. */
  lemma FeedbackTouchesOnlyItsMessage(messages: seq<Message>, msgId: string, isPositive: bool, k: int)
    requires 0 <= k < |messages|
    ensures var r := WithFeedback(messages, msgId, isPositive);
            (messages[k].id != msgId ==> r[k] == messages[k])
            && (messages[k].id == msgId ==>
                  r[k].feedback == Some(if isPositive then Positive else Negative)
                  && r[k].(feedback := messages[k].feedback) == messages[k])
  {
  }

  /** Giving the same feedback twice is giving it once; the later of two verdicts wins. */
  lemma FeedbackLastWins(messages: seq<Message>, msgId: string, first: bool, second: bool)
    ensures WithFeedback(WithFeedback(messages, msgId, first), msgId, second) == WithFeedback(messages, msgId, second)
  {
  }

  // ---------------------------------------------------------------------
  // The session
  // ---------------------------------------------------------------------

  class ChatSession {
    const engine: Gemini.RagEngine
    var messages: seq<Message>
    var input: string
    var selectedImage: string
    var isThinking: bool

    /** The first render, before the mount effect ran. */
    constructor (engine: Gemini.RagEngine)
      ensures this.engine == engine && messages == [] && input == "" && selectedImage == "" && !isThinking
    {
      this.engine := engine;
      messages := [];
      input := "";
      selectedImage := "";
      isThinking := false;
    }

    /**
     * The mount effect: a saved, non-empty chat is restored and opens the
     * assistant's session with its history; otherwise the chat starts with
     * the welcome message and the session with no history.
     */
    method Initialize(loadedAt: int)
      modifies this, engine
      ensures old(engine.chatStore.SavedChat? && engine.chatStore.messages != []) ==>
                messages == old(engine.chatStore.messages) && engine.sessionHistory == Gemini.ModelHistory(messages)
      ensures !old(engine.chatStore.SavedChat? && engine.chatStore.messages != []) ==>
                messages == [WelcomeMessage(loadedAt)] && engine.sessionHistory == []
      ensures engine.sessionOpen && !isThinking
      ensures engine.knowledgeBase == old(engine.knowledgeBase) && engine.tickets == old(engine.tickets)
      ensures engine.chatStore == old(engine.chatStore) && input == old(input) && selectedImage == old(selectedImage)
    {
      isThinking := true;
      var savedHistory := engine.LoadChatHistory();
      if |savedHistory| > 0 {
        messages := savedHistory;
        engine.InitChat(savedHistory);
      } else {
        messages := [WelcomeMessage(loadedAt)];
        engine.InitChat([]);
      }
      isThinking := false;
    }

    /**
     * handleSendMessageInternal.  A blank text without an image does
     * nothing.  Otherwise the user's turn is shown and stored unless it
     * repeats a message of the last five seconds, the input is cleared,
     * `request` is handed to the assistant, and its answer is shown and
     * stored, or the error message is shown when the call throws.
     */
    method HandleSendMessageInternal(text: string, image: string, now: nat, later: nat, probe: Gemini.HistoryProbe,
                                     reply: Gemini.ModelReply, clock: nat -> Gemini.Reading,
                                     firstWriteFails: bool, secondWriteFails: bool)
      returns (request: Option<Request>)
      modifies this, engine, engine.audit
      ensures !Sends(text, image) ==>
                request.None? && messages == old(messages) && input == old(input)
                && selectedImage == old(selectedImage) && engine.chatStore == old(engine.chatStore)
                && engine.tickets == old(engine.tickets) && engine.sessionOpen == old(engine.sessionOpen)
                && engine.sessionHistory == old(engine.sessionHistory)
                && engine.audit.slot == old(engine.audit.slot) && engine.audit.drawn == old(engine.audit.drawn)
                && isThinking == old(isThinking)
      ensures Sends(text, image) ==>
                var s := Gemini.Send(old(engine.knowledgeBase), text, ImagePayload(image), probe, reply, clock,
                                     engine.email, engine.phone);
                request == Some(Request(text, ImagePayload(image)))
                && messages == AfterSend(old(messages), text, image, now, later, s.outcome)
                && engine.chatStore == StoreAfterSend(old(engine.chatStore), old(messages), text, image, now, later,
                                                      s.outcome, firstWriteFails, secondWriteFails)
                && engine.tickets == s.created + old(engine.tickets)
                && engine.Logged(old(engine.audit.slot), old(engine.audit.drawn), s.lines)
                && (engine.sessionOpen, engine.sessionHistory)
                   == Gemini.SessionAfterSend(old(engine.sessionOpen), old(engine.sessionHistory), text)
                && input == "" && selectedImage == "" && !isThinking
      ensures engine.knowledgeBase == old(engine.knowledgeBase)
    {
      if Trim(text) == "" && image == "" {
        return None;
      }
      var sent := SendTurn(text, image, now, later, probe, reply, clock, firstWriteFails, secondWriteFails);
      request := Some(sent);
    }

    /** handleSendMessageInternal past its blank-input guard. */
    method SendTurn(text: string, image: string, now: nat, later: nat, probe: Gemini.HistoryProbe,
                    reply: Gemini.ModelReply, clock: nat -> Gemini.Reading, firstWriteFails: bool, secondWriteFails: bool)
      returns (request: Request)
      modifies this, engine, engine.audit
      ensures var s := Gemini.Send(old(engine.knowledgeBase), text, ImagePayload(image), probe, reply, clock,
                                   engine.email, engine.phone);
              request == Request(text, ImagePayload(image))
              && messages == AfterSend(old(messages), text, image, now, later, s.outcome)
              && engine.chatStore == StoreAfterSend(old(engine.chatStore), old(messages), text, image, now, later,
                                                    s.outcome, firstWriteFails, secondWriteFails)
              && engine.tickets == s.created + old(engine.tickets)
              && engine.Logged(old(engine.audit.slot), old(engine.audit.drawn), s.lines)
              && (engine.sessionOpen, engine.sessionHistory)
                 == Gemini.SessionAfterSend(old(engine.sessionOpen), old(engine.sessionHistory), text)
              && input == "" && selectedImage == "" && !isThinking
      ensures engine.knowledgeBase == old(engine.knowledgeBase)
    {
      ghost var messages0, store0 := messages, engine.chatStore;
      var newHistory := RecordTurn(text, image, now, firstWriteFails);
      ghost var store1 := engine.chatStore;
      input := "";
      selectedImage := "";
      isThinking := true;
      request := Request(text, ImagePayload(image));
      var outcome := engine.SendMessage(request.query, request.image, probe, reply, clock);
      ReceiveReply(newHistory, later, outcome, secondWriteFails);
      isThinking := false;
      SendSteps(messages0, store0, text, image, now, later, outcome, firstWriteFails, secondWriteFails,
                newHistory, store1, messages, engine.chatStore);
    }

    /** The user's turn: shown and stored, unless it repeats a recent message. */
    method RecordTurn(text: string, image: string, now: nat, writeFails: bool) returns (newHistory: seq<Message>)
      modifies this, engine
      ensures newHistory == WithUserTurn(old(messages), text, image, now)
      ensures messages == newHistory
      ensures engine.chatStore == if IsRecentRepeat(old(messages), text, now) || writeFails then old(engine.chatStore)
                                  else Gemini.SavedChat(newHistory)
      ensures engine.knowledgeBase == old(engine.knowledgeBase) && engine.tickets == old(engine.tickets)
      ensures engine.sessionOpen == old(engine.sessionOpen) && engine.sessionHistory == old(engine.sessionHistory)
      ensures input == old(input) && selectedImage == old(selectedImage) && isThinking == old(isThinking)
    {
      newHistory := messages;
      if !IsRecentRepeat(messages, text, now) {
        var userMsg := UserMessage(text, image, now);
        newHistory := messages + [userMsg];
        messages := newHistory;
        engine.SaveChatHistory(newHistory, writeFails);
      }
    }

    /**
     * The end of the send: the answer extends the history the handler
     * holds and is stored; an error extends the list as it is and is not.
     */
    method ReceiveReply(newHistory: seq<Message>, later: nat, outcome: Gemini.Outcome, writeFails: bool)
      modifies this, engine
      ensures outcome.Answered? ==> messages == newHistory + [BotMessage(outcome.result, later)]
      ensures outcome.Threw? ==> messages == old(messages) + [ErrorMessage(later)]
      ensures engine.chatStore == if outcome.Answered? && !writeFails then Gemini.SavedChat(messages)
                                  else old(engine.chatStore)
      ensures engine.knowledgeBase == old(engine.knowledgeBase) && engine.tickets == old(engine.tickets)
      ensures engine.sessionOpen == old(engine.sessionOpen) && engine.sessionHistory == old(engine.sessionHistory)
      ensures input == old(input) && selectedImage == old(selectedImage) && isThinking == old(isThinking)
    {
      match outcome {
        case Answered(result) =>
          var updatedHistory := newHistory + [BotMessage(result, later)];
          messages := updatedHistory;
          engine.SaveChatHistory(updatedHistory, writeFails);
        case Threw =>
          messages := messages + [ErrorMessage(later)];
      }
    }

    /** handleSendMessage: the input field and the selected image are sent. */
    method HandleSendMessage(now: nat, later: nat, probe: Gemini.HistoryProbe, reply: Gemini.ModelReply,
                             clock: nat -> Gemini.Reading, firstWriteFails: bool, secondWriteFails: bool)
      returns (request: Option<Request>)
      modifies this, engine, engine.audit
      ensures !Sends(old(input), old(selectedImage)) ==>
                request.None? && messages == old(messages) && input == old(input)
                && selectedImage == old(selectedImage) && engine.chatStore == old(engine.chatStore)
                && engine.tickets == old(engine.tickets) && engine.sessionOpen == old(engine.sessionOpen)
                && engine.sessionHistory == old(engine.sessionHistory)
                && engine.audit.slot == old(engine.audit.slot) && engine.audit.drawn == old(engine.audit.drawn)
                && isThinking == old(isThinking)
      ensures Sends(old(input), old(selectedImage)) ==>
                var s := Gemini.Send(old(engine.knowledgeBase), old(input), ImagePayload(old(selectedImage)), probe, reply,
                                     clock, engine.email, engine.phone);
                request == Some(Request(old(input), ImagePayload(old(selectedImage))))
                && messages == AfterSend(old(messages), old(input), old(selectedImage), now, later, s.outcome)
                && engine.chatStore == StoreAfterSend(old(engine.chatStore), old(messages), old(input), old(selectedImage),
                                                      now, later, s.outcome, firstWriteFails, secondWriteFails)
                && engine.tickets == s.created + old(engine.tickets)
                && engine.Logged(old(engine.audit.slot), old(engine.audit.drawn), s.lines)
                && (engine.sessionOpen, engine.sessionHistory)
                   == Gemini.SessionAfterSend(old(engine.sessionOpen), old(engine.sessionHistory), old(input))
                && input == "" && selectedImage == "" && !isThinking
      ensures engine.knowledgeBase == old(engine.knowledgeBase)
    {
      request := HandleSendMessageInternal(input, selectedImage, now, later, probe, reply, clock,
                                           firstWriteFails, secondWriteFails);
    }

    /** handleRetry: the last question is sent again on the list without its error messages. */
    method HandleRetry(now: nat, later: nat, probe: Gemini.HistoryProbe, reply: Gemini.ModelReply,
                       clock: nat -> Gemini.Reading, firstWriteFails: bool, secondWriteFails: bool)
      returns (request: Option<Request>)
      modifies this, engine, engine.audit
      ensures LastUser(old(messages)).None? ==>
                request.None? && messages == old(messages) && input == old(input)
                && selectedImage == old(selectedImage) && engine.chatStore == old(engine.chatStore)
                && engine.tickets == old(engine.tickets) && engine.sessionOpen == old(engine.sessionOpen)
                && engine.sessionHistory == old(engine.sessionHistory)
                && engine.audit.slot == old(engine.audit.slot) && engine.audit.drawn == old(engine.audit.drawn)
                && isThinking == old(isThinking)
      ensures var last := LastUser(old(messages));
              last.Some? && !Sends(last.value.text, last.value.visualAttachment) ==>
                request.None? && messages == WithoutErrors(old(messages))
                && input == old(input) && selectedImage == old(selectedImage) && engine.chatStore == old(engine.chatStore)
                && engine.tickets == old(engine.tickets) && engine.sessionOpen == old(engine.sessionOpen)
                && engine.sessionHistory == old(engine.sessionHistory)
                && engine.audit.slot == old(engine.audit.slot) && engine.audit.drawn == old(engine.audit.drawn)
                && isThinking == old(isThinking)
      ensures var last := LastUser(old(messages));
              last.Some? && Sends(last.value.text, last.value.visualAttachment) ==>
                var s := Gemini.Send(old(engine.knowledgeBase), last.value.text, ImagePayload(last.value.visualAttachment),
                                     probe, reply, clock, engine.email, engine.phone);
                request == Some(Request(last.value.text, ImagePayload(last.value.visualAttachment)))
                && messages == Retried(old(messages), now, later, s.outcome)
                && engine.chatStore == StoreAfterSend(old(engine.chatStore), WithoutErrors(old(messages)), last.value.text,
                                                      last.value.visualAttachment, now, later, s.outcome,
                                                      firstWriteFails, secondWriteFails)
                && engine.tickets == s.created + old(engine.tickets)
                && engine.Logged(old(engine.audit.slot), old(engine.audit.drawn), s.lines)
                && (engine.sessionOpen, engine.sessionHistory)
                   == Gemini.SessionAfterSend(old(engine.sessionOpen), old(engine.sessionHistory), last.value.text)
                && input == "" && selectedImage == "" && !isThinking
      ensures engine.knowledgeBase == old(engine.knowledgeBase)
    {
      var lastUserMsg := LastUser(messages);
      if lastUserMsg.None? {
        return None;
      }
      messages := WithoutErrors(messages);
      request := HandleSendMessageInternal(lastUserMsg.value.text, lastUserMsg.value.visualAttachment, now, later,
                                           probe, reply, clock, firstWriteFails, secondWriteFails);
    }

    /** handleFeedback: the message is marked and the verdict goes to the audit trail. */
    method HandleFeedback(msgId: string, isPositive: bool)
      modifies this, engine.audit
      ensures messages == WithFeedback(old(messages), msgId, isPositive)
      ensures engine.Logged(old(engine.audit.slot), old(engine.audit.drawn), [Gemini.FeedbackLine(msgId, isPositive)])
      ensures input == old(input) && selectedImage == old(selectedImage) && isThinking == old(isThinking)
    {
      messages := WithFeedback(messages, msgId, isPositive);
      engine.SubmitMessageFeedback(msgId, isPositive);
    }
  }
  // ---------------------------------------------------------------------
  // The checklist widget
  // ---------------------------------------------------------------------

  function CountChecked(s: seq<bool>): (n: nat)
    ensures n <= |s|
  {
    if s == [] then 0 else (if s[0] then 1 else 0) + CountChecked(s[1..])
  }

  lemma {:induction false} CountCheckedFlip(s: seq<bool>, i: int)
    requires 0 <= i < |s|
    ensures CountChecked(s[i := !s[i]]) == if s[i] then CountChecked(s) - 1 else CountChecked(s) + 1
  {
    if i > 0 {
      CountCheckedFlip(s[1..], i - 1);
      assert s[i := !s[i]][1..] == s[1..][i - 1 := !s[i]];
    }
  }

  lemma {:induction false} CountCheckedAll(n: nat, b: bool)
    ensures CountChecked(seq(n, k => b)) == if b then n else 0
  {
    if n > 0 {
      CountCheckedAll(n - 1, b);
      assert seq(n, k => b)[1..] == seq(n - 1, k => b);
    }
  }

  /**
   * `Math.round(checked / steps * 100)`, with the ratio computed exactly:
   * round half up of 100 * checked / steps.  With no steps the TypeScript code
   * divides by zero and shows NaN, here `None`.
   */
  function ProgressPercent(checked: nat, steps: nat): (p: Option<nat>)
    ensures steps == 0 <==> p.None?
  {
    if steps == 0 then None else Some((200 * checked + steps) / (2 * steps))
  }

  lemma {:induction false} MulMonotone(k: nat, x: nat, y: nat)
    requires x <= y
    ensures k * x <= k * y
  {
    if k > 0 {
      MulMonotone(k - 1, x, y);
      assert k * x == (k - 1) * x + x;
      assert k * y == (k - 1) * y + y;
    }
  }

  lemma DivBelow(x: nat, d: nat, m: nat)
    requires d > 0 && x < d * m
    ensures x / d < m
  {
    var q := x / d;
    assert x == d * q + x % d;
    if q >= m {
      MulMonotone(d, m, q);
    }
  }

  lemma DivAtLeast(x: nat, d: nat, m: nat)
    requires d > 0 && d * m <= x
    ensures m <= x / d
  {
    var q := x / d;
    assert x == d * q + x % d;
    if q < m {
      MulMonotone(d, q + 1, m);
    }
  }

  /** The percentage lies between 0 and 100, is 0 with nothing checked and 100 with everything. */
  lemma ProgressBounds(checked: nat, steps: nat)
    requires 0 < steps && checked <= steps
    ensures 0 <= ProgressPercent(checked, steps).value <= 100
    ensures checked == 0 ==> ProgressPercent(checked, steps).value == 0
    ensures checked == steps ==> ProgressPercent(checked, steps).value == 100
  {
    var d := 2 * steps;
    var x := 200 * checked + steps;
    assert d * 101 == 202 * steps;
    DivBelow(x, d, 101);
    if checked == 0 {
      assert d * 1 == d;
      DivBelow(x, d, 1);
    }
    if checked == steps {
      assert d * 100 == 200 * steps;
      DivAtLeast(x, d, 100);
    }
  }

  /** The percentage is the nearest whole percent: within half a percent of the exact ratio. */
  lemma ProgressIsNearest(checked: nat, steps: nat)
    requires 0 < steps
    ensures var p := ProgressPercent(checked, steps).value;
            2 * steps * p <= 200 * checked + steps < 2 * steps * (p + 1)
  {
    var d := 2 * steps;
    var x := 200 * checked + steps;
    var p := x / d;
    assert x == d * p + x % d;
    assert d * (p + 1) == d * p + d;
  }

  /** Checking one more step never lowers the percentage. */
  lemma ProgressMonotone(checked: nat, steps: nat)
    requires 0 < steps
    ensures ProgressPercent(checked, steps).value <= ProgressPercent(checked + 1, steps).value
  {
    var d := 2 * steps;
    var x := 200 * checked + steps;
    var p := x / d;
    assert x == d * p + x % d;
    DivAtLeast(x + 200, d, p);
  }

  class ChecklistWidget {
    const steps: seq<string>
    var checkedItems: seq<bool>

    ghost predicate Valid()
      reads this
    {
      |checkedItems| == |steps|
    }

    /** Nothing is checked at first. */
    constructor (steps: seq<string>)
      ensures this.steps == steps && checkedItems == seq(|steps|, k => false) && Valid()
      ensures Progress() == ProgressPercent(0, |steps|)
    {
      this.steps := steps;
      checkedItems := seq(|steps|, k => false);
      new;
      CountCheckedAll(|steps|, false);
    }

    /** The percentage shown in the header. */
    function Progress(): Option<nat>
      reads this
    {
      ProgressPercent(CountChecked(checkedItems), |steps|)
    }

    /** toggleItem: the one step flips, the count moves by one. */
    method Toggle(index: int)
      requires Valid() && 0 <= index < |steps|
      modifies this
      ensures Valid() && checkedItems == old(checkedItems)[index := !old(checkedItems)[index]]
      ensures CountChecked(checkedItems) == if old(checkedItems)[index] then CountChecked(old(checkedItems)) - 1
                                           else CountChecked(old(checkedItems)) + 1
    {
      CountCheckedFlip(checkedItems, index);
      checkedItems := checkedItems[index := !checkedItems[index]];
    }
  }

  /** Toggling a step twice leaves the list as it was. */
  lemma ToggleTwiceRestores(s: seq<bool>, i: int)
    requires 0 <= i < |s|
    ensures s[i := !s[i]][i := !s[i := !s[i]][i]] == s
  {
  }

  // ---------------------------------------------------------------------
  // The quiz widget
  // ---------------------------------------------------------------------

  /** `options.find(o => o.id === id)` */
  function FindOption(options: seq<QuizOption>, id: string): (r: Option<QuizOption>)
    ensures r.Some? <==> exists k :: 0 <= k < |options| && options[k].id == id
    ensures r.Some? ==> r.value.id == id
                        && (exists k :: 0 <= k < |options| && options[k] == r.value
                                        && forall j :: 0 <= j < k ==> options[j].id != id)
  {
    if options == [] then None
    else if options[0].id == id then Some(options[0])
    else
      var r := FindOption(options[1..], id);
      if r.Some? then
        var k :| 0 <= k < |options[1..]| && options[1..][k] == r.value && forall j :: 0 <= j < k ==> options[1..][j].id != id;
        assert options[k + 1] == r.value;
        assert forall j :: 0 <= j < k + 1 ==> options[j].id != id by {
          forall j | 0 <= j < k + 1 ensures options[j].id != id {
            if j > 0 { assert options[j] == options[1..][j - 1]; }
          }
        }
        r
      else r
  }

  /** The verdict: the chosen option's flag; no choice, and a choice of none of the options, is wrong. */
  function IsCorrectChoice(quiz: QuizData, selected: string): bool {
    if selected == "" then false
    else
      var found := FindOption(quiz.options, selected);
      found.Some? && found.value.isCorrect
  }

  /** The verdict is the flag of the first option carrying the chosen id. */
  lemma ChoiceIsSelectedFlag(quiz: QuizData, selected: string)
    ensures IsCorrectChoice(quiz, selected) <==>
              selected != "" && (exists k :: 0 <= k < |quiz.options| && quiz.options[k].id == selected
                                   && quiz.options[k].isCorrect && forall j :: 0 <= j < k ==> quiz.options[j].id != selected)
  {
    var opts := quiz.options;
    if selected != "" {
      var found := FindOption(opts, selected);
      if found.Some? {
        var k :| 0 <= k < |opts| && opts[k] == found.value && forall j :: 0 <= j < k ==> opts[j].id != selected;
        forall k2 | 0 <= k2 < |opts| && opts[k2].id == selected && forall j :: 0 <= j < k2 ==> opts[j].id != selected
          ensures opts[k2] == found.value
        {
          assert !(k2 < k) && !(k < k2);
        }
      }
    }
  }

  /** For the quiz the assistant generates, exactly option "a" is right. */
  lemma GeneratedQuizAnswer(topic: string, docs: seq<KnowledgeDoc>, selected: string)
    ensures var w := Gemini.QuizWidget(topic, docs);
            w.payload.Quiz? && (IsCorrectChoice(w.payload.quiz, selected) <==> selected == "a")
  {
    var opts := Gemini.QuizOptions();
    assert opts[0].id == "a" && opts[1].id == "b" && opts[2].id == "c";
    if selected != "" && selected != "a" {
      var found := FindOption(opts, selected);
      if found.Some? {
        var k :| 0 <= k < |opts| && opts[k].id == selected;
        assert k != 0;
      }
    }
  }

  class QuizWidget {
    const quiz: QuizData
    /** The chosen option's id; "" is no choice. */
    var selectedOption: string
    var isSubmitted: bool

    constructor (quiz: QuizData)
      ensures this.quiz == quiz && selectedOption == "" && !isSubmitted
    {
      this.quiz := quiz;
      selectedOption := "";
      isSubmitted := false;
    }

    function IsCorrect(): bool
      reads this
    {
      IsCorrectChoice(quiz, selectedOption)
    }

    /** handleSelect: a choice counts only before the answer is submitted. */
    method Select(id: string)
      modifies this
      ensures isSubmitted == old(isSubmitted)
      ensures selectedOption == if old(isSubmitted) then old(selectedOption) else id
    {
      if isSubmitted {
        return;
      }
      selectedOption := id;
    }

    /**
     * handleSubmit: from now on the verdict cannot change.  The button is
     * disabled while no option is chosen, so the screen only calls this
     * with `selectedOption != ""`; the handler itself does not check it.
     */
    method Submit()
      modifies this
      ensures isSubmitted && selectedOption == old(selectedOption) && IsCorrect() == old(IsCorrect())
    {
      isSubmitted := true;
    }
  }

  // ---------------------------------------------------------------------
  // The media carousel
  // ---------------------------------------------------------------------

  /** `(i + 1) % n` */
  function NextSlide(i: int, n: int): int
    requires n > 0
  {
    (i + 1) % n
  }

  /** `(i - 1 + n) % n` */
  function PrevSlide(i: int, n: int): int
    requires n > 0
  {
    (i - 1 + n) % n
  }

  lemma ModSmall(x: int, n: int)
    requires 0 <= x < n
    ensures x % n == x
  {
    assert n * 1 == n;
    DivBelow(x, n, 1);
  }

  lemma ModShift(x: int, n: int)
    requires n > 0 && n <= x < 2 * n
    ensures x % n == x - n
  {
    assert n * 1 == n && n * 2 == 2 * n;
    DivBelow(x, n, 2);
    DivAtLeast(x, n, 1);
    assert x == n * (x / n) + x % n;
  }

  /** Both buttons keep the index on a slide and undo each other. */
  lemma SlidesWrapAround(i: int, n: int)
    requires 0 <= i < n
    ensures 0 <= NextSlide(i, n) < n && 0 <= PrevSlide(i, n) < n
    ensures PrevSlide(NextSlide(i, n), n) == i && NextSlide(PrevSlide(i, n), n) == i
    ensures NextSlide(n - 1, n) == 0 && PrevSlide(0, n) == n - 1
  {
    ModShift(n, n);
    ModSmall(n - 1, n);
    if i + 1 < n {
      ModSmall(i + 1, n);
      ModShift(i + n, n);
    } else {
      assert NextSlide(i, n) == 0;
    }
    if i > 0 {
      ModShift(i - 1 + n, n);
      ModSmall(i, n);
    }
  }

  class MediaCarousel {
    const urls: seq<string>
    var currentIndex: int

    ghost predicate Valid()
      reads this
    {
      0 <= currentIndex < |urls|
    }

    /** The carousel renders, and its buttons exist, only with at least one URL. */
    constructor (urls: seq<string>)
      requires |urls| > 0
      ensures this.urls == urls && currentIndex == 0 && Valid()
    {
      this.urls := urls;
      currentIndex := 0;
    }

    /** The slide shown. */
    function Current(): string
      reads this
      requires Valid()
    {
      urls[currentIndex]
    }

    method NextSlideClick()
      requires Valid()
      modifies this
      ensures Valid() && currentIndex == NextSlide(old(currentIndex), |urls|)
    {
      SlidesWrapAround(currentIndex, |urls|);
      currentIndex := (currentIndex + 1) % |urls|;
    }

    method PrevSlideClick()
      requires Valid()
      modifies this
      ensures Valid() && currentIndex == PrevSlide(old(currentIndex), |urls|)
    {
      SlidesWrapAround(currentIndex, |urls|);
      currentIndex := (currentIndex - 1 + |urls|) % |urls|;
    }
  }
}

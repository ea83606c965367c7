/**
 * The orchestration of services/geminiService.ts around the language
 * model: the conversion of a saved chat into the model's history, the
 * closed-system gate, the tool calls the model may ask for, the
 * post-processing of its answer, and the module-level document, ticket
 * and session state.
 *
 * The model itself is an oracle: its answer to the prompt is the
 * `ModelReply` the caller passes in.
 */
module Gemini {
  import opened Types
  import opened Text
  import opened Security
  import opened Ranking

  // ---------------------------------------------------------------------
  // History conversion (initChat)
  // ---------------------------------------------------------------------

  datatype TurnRole = UserTurn | ModelTurn

  /** One `Content` entry of the model's history: a role and the text part. */
  datatype Turn = Turn(role: TurnRole, text: string)

  /** `history.filter(m => m.role !== MessageRole.SYSTEM)` */
  function NonSystem(h: seq<Message>): (r: seq<Message>)
    ensures |r| <= |h|
  {
    if h == [] then []
    else (if h[0].role != System then [h[0]] else []) + NonSystem(h[1..])
  }

  /** The filter keeps exactly the messages that are not system messages. */
  lemma {:induction false} NonSystemMembers(h: seq<Message>, m: Message)
    ensures m in NonSystem(h) <==> m in h && m.role != System
  {
    if h != [] {
      NonSystemMembers(h[1..], m);
      assert m in h <==> m == h[0] || m in h[1..];
    }
  }

  /** `chat.findIndex(m => m.role === MessageRole.USER)` */
  function FirstUser(chat: seq<Message>): (r: int)
    ensures -1 <= r < |chat|
    ensures r == -1 <==> forall k :: 0 <= k < |chat| ==> chat[k].role != User
    ensures r >= 0 ==> chat[r].role == User && forall k :: 0 <= k < r ==> chat[k].role != User
  {
    if chat == [] then -1
    else if chat[0].role == User then 0
    else
      var r := FirstUser(chat[1..]);
      if r == -1 then -1 else r + 1
  }

  function ToTurn(m: Message): Turn {
    Turn(if m.role == User then UserTurn else ModelTurn, m.text)
  }

  function ToTurns(ms: seq<Message>): (r: seq<Turn>)
    ensures |r| == |ms|
    ensures forall k :: 0 <= k < |ms| ==> r[k] == ToTurn(ms[k])
  {
    seq(|ms|, k requires 0 <= k < |ms| => ToTurn(ms[k]))
  }

  /** The history initChat hands to the model: no system messages, nothing before the first user message. */
  function ModelHistory(history: seq<Message>): seq<Turn> {
    var chat := NonSystem(history);
    var first := FirstUser(chat);
    if first == -1 then [] else ToTurns(chat[first..])
  }

  /** The history is empty exactly when the chat holds no user message, and otherwise opens with one. */
  lemma ModelHistoryShape(history: seq<Message>)
    ensures ModelHistory(history) == [] <==> forall k :: 0 <= k < |history| ==> history[k].role != User
    ensures ModelHistory(history) != [] ==> ModelHistory(history)[0].role == UserTurn
  {
    var chat := NonSystem(history);
    if exists k :: 0 <= k < |history| && history[k].role == User {
      var k :| 0 <= k < |history| && history[k].role == User;
      NonSystemMembers(history, history[k]);
    } else {
      forall j | 0 <= j < |chat| ensures chat[j].role != User {
        NonSystemMembers(history, chat[j]);
      }
    }
  }

  /** Every turn is a converted user or model message of the chat; a model turn comes from a model message. */
  lemma ModelHistoryTurns(history: seq<Message>, k: int)
    requires 0 <= k < |ModelHistory(history)|
    ensures exists m :: m in history && m.role != System && ToTurn(m) == ModelHistory(history)[k]
    ensures ModelHistory(history)[k].role == ModelTurn ==> exists m :: m in history && m.role == Model && ToTurn(m) == ModelHistory(history)[k]
  {
    var chat := NonSystem(history);
    var first := FirstUser(chat);
    var m := chat[first + k];
    NonSystemMembers(history, m);
    assert ToTurn(m) == ModelHistory(history)[k];
  }

  lemma {:induction false} NonSystemAppend(h: seq<Message>, m: Message)
    ensures NonSystem(h + [m]) == NonSystem(h) + (if m.role != System then [m] else [])
  {
    var tail := if m.role != System then [m] else [];
    if h == [] {
      assert h + [m] == [m];
      assert [m][1..] == [];
      assert NonSystem([m]) == tail + NonSystem([]);
      assert NonSystem(h) + tail == tail;
    } else {
      var hm := h + [m];
      assert hm[0] == h[0];
      assert hm[1..] == h[1..] + [m];
      NonSystemAppend(h[1..], m);
      var head := if h[0].role != System then [h[0]] else [];
      assert NonSystem(hm) == head + NonSystem(h[1..] + [m]);
      assert NonSystem(h) == head + NonSystem(h[1..]);
    }
  }

  lemma {:induction false} FirstUserAppend(chat: seq<Message>, m: Message)
    requires FirstUser(chat) != -1
    ensures FirstUser(chat + [m]) == FirstUser(chat)
  {
    if chat[0].role != User {
      FirstUserAppend(chat[1..], m);
      assert (chat + [m])[1..] == chat[1..] + [m];
    }
  }

  /**
   * Once a user message is in the chat, each later user or model message
   * adds exactly its own turn at the end, and a system message adds none.
   */
  lemma ModelHistoryExtends(history: seq<Message>, m: Message)
    requires exists k :: 0 <= k < |history| && history[k].role == User
    ensures m.role != System ==> ModelHistory(history + [m]) == ModelHistory(history) + [ToTurn(m)]
    ensures m.role == System ==> ModelHistory(history + [m]) == ModelHistory(history)
  {
    var chat := NonSystem(history);
    NonSystemAppend(history, m);
    var k :| 0 <= k < |history| && history[k].role == User;
    NonSystemMembers(history, history[k]);
    var j :| 0 <= j < |chat| && chat[j] == history[k];
    var first := FirstUser(chat);
    assert first != -1;
    if m.role != System {
      HistoryOfExtendedChat(history, chat, m, first);
    } else {
      assert NonSystem(history + [m]) == chat + [];
      assert chat + [] == chat;
    }
  }

  lemma HistoryOfExtendedChat(history: seq<Message>, chat: seq<Message>, m: Message, first: int)
    requires chat == NonSystem(history) && m.role != System
    requires NonSystem(history + [m]) == chat + [m]
    requires first == FirstUser(chat) && first != -1
    ensures ModelHistory(history + [m]) == ModelHistory(history) + [ToTurn(m)]
  {
    FirstUserAppend(chat, m);
    var extended := chat + [m];
    assert FirstUser(extended) == first;
    var suffix := chat[first..];
    SliceOfAppend(chat, m, first);
    ToTurnsAppend(suffix, m);
    assert ModelHistory(history) == ToTurns(suffix);
    assert ModelHistory(history + [m]) == ToTurns(extended[first..]);
  }

  lemma ToTurnsAppend(ms: seq<Message>, m: Message)
    ensures ToTurns(ms + [m]) == ToTurns(ms) + [ToTurn(m)]
  {
    var a := ToTurns(ms + [m]);
    var b := ToTurns(ms) + [ToTurn(m)];
    assert |a| == |b|;
    forall k | 0 <= k < |a| ensures a[k] == b[k] {
      if k < |ms| {
        assert (ms + [m])[k] == ms[k];
      }
    }
  }

  // ---------------------------------------------------------------------
  // The closed-system gate
  // ---------------------------------------------------------------------

  const MetaKeywords: seq<string> := [
    "hej", "cześć", "dzień dobry", "witaj", "pomoc", "menu", "start", "kim jesteś",
    "co potrafisz", "co robisz", "funkcje", "możliwości", "w czym pomagasz",
    "dlaczego tu jesteś", "cel"
  ]

  /** The `/^(hej|cześć|...)/i` test on the trimmed query: a greeting or a question about the assistant. */
  predicate IsMetaQuery(cleanText: string) {
    exists k | 0 <= k < |MetaKeywords| :: StartsWith(Lower(Trim(cleanText)), MetaKeywords[k])
  }

  /**
   * The documents retrieved for the cleaned query; queries of at most two
   * UTF-16 code units skip retrieval.
   */
  function RetrievedFor(store: seq<KnowledgeDoc>, cleanText: string): seq<KnowledgeDoc> {
    if Utf16Length(cleanText) > 2 then DocsOf(RankedItems(store, cleanText)) else []
  }

  /** The four conditions under which the assistant refuses without asking the model. */
  predicate Refuses(docs: seq<KnowledgeDoc>, cleanText: string, image: string, hasHistory: bool) {
    docs == [] && !IsMetaQuery(cleanText) && image == "" && !hasHistory
  }

  // ---------------------------------------------------------------------
  // Sources and media of the retrieved documents
  // ---------------------------------------------------------------------

  function Titles(docs: seq<KnowledgeDoc>): (r: seq<string>)
    ensures |r| == |docs|
    ensures forall k :: 0 <= k < |docs| ==> r[k] == docs[k].title
  {
    seq(|docs|, k requires 0 <= k < |docs| => docs[k].title)
  }

  /** `[...new Set(xs)]`: the first occurrence of each element, in order. */
  function Dedup(xs: seq<string>): (r: seq<string>)
    ensures forall x :: x in r <==> x in xs
    ensures forall j, k :: 0 <= j < k < |r| ==> r[j] != r[k]
  {
    if xs == [] then []
    else
      var d := Dedup(xs[..|xs| - 1]);
      if xs[|xs| - 1] in d then d else d + [xs[|xs| - 1]]
  }

  /** The position of the first occurrence of `x`, or `|xs|` when there is none. */
  function FirstIndex(xs: seq<string>, x: string): (r: nat)
    ensures r <= |xs|
    ensures r < |xs| <==> x in xs
    ensures r < |xs| ==> xs[r] == x
    ensures forall j :: 0 <= j < r ==> xs[j] != x
  {
    if xs == [] then 0
    else if xs[0] == x then 0
    else
      var r := FirstIndex(xs[1..], x);
      assert forall j :: 1 <= j < |xs| ==> xs[j] == xs[1..][j - 1];
      1 + r
  }

  lemma FirstIndexAppend(xs: seq<string>, y: string, x: string)
    requires x in xs
    ensures FirstIndex(xs + [y], x) == FirstIndex(xs, x)
  {
    var r := FirstIndex(xs, x);
    var r' := FirstIndex(xs + [y], x);
    assert (xs + [y])[r] == x;
    if r' < r {
      assert xs[r'] == (xs + [y])[r'];
    }
  }

  /** The elements come in the order of their first occurrences. */
  lemma {:induction false} DedupKeepsFirstOrder(xs: seq<string>)
    ensures var r := Dedup(xs);
            forall j, k :: 0 <= j < k < |r| ==> FirstIndex(xs, r[j]) < FirstIndex(xs, r[k])
  {
    if xs != [] {
      var init := xs[..|xs| - 1];
      assert init + [xs[|xs| - 1]] == xs;
      DedupKeepsFirstOrder(init);
      DedupOrderStep(init, xs[|xs| - 1]);
    }
  }

  /** Appending one element keeps the deduplicated list in first-occurrence order. */
  lemma DedupOrderStep(init: seq<string>, last: string)
    requires forall j, k :: 0 <= j < k < |Dedup(init)| ==> FirstIndex(init, Dedup(init)[j]) < FirstIndex(init, Dedup(init)[k])
    ensures var r := Dedup(init + [last]);
            forall j, k :: 0 <= j < k < |r| ==> FirstIndex(init + [last], r[j]) < FirstIndex(init + [last], r[k])
  {
    var xs := init + [last];
    assert xs[..|xs| - 1] == init;
    var d := Dedup(init);
    var r := Dedup(xs);
    assert r == if last in d then d else d + [last];
    forall j, k | 0 <= j < k < |r| ensures FirstIndex(xs, r[j]) < FirstIndex(xs, r[k]) {
      assert r[j] == d[j] && d[j] in d && d[j] in init;
      FirstIndexAppend(init, last, d[j]);
      assert FirstIndex(xs, r[j]) == FirstIndex(init, d[j]) < |init|;
      if k < |d| {
        assert r[k] == d[k] && d[k] in d && d[k] in init;
        FirstIndexAppend(init, last, d[k]);
        assert FirstIndex(init, d[j]) < FirstIndex(init, d[k]);
      } else {
        assert r[k] == last && last !in init;
        assert xs[|init|] == last;
        assert forall n :: 0 <= n < |init| ==> xs[n] == init[n];
      }
    }
  }

  /** A list without repetitions passes through unchanged. */
  lemma {:induction false} DedupDistinct(xs: seq<string>)
    requires forall j, k :: 0 <= j < k < |xs| ==> xs[j] != xs[k]
    ensures Dedup(xs) == xs
  {
    if xs != [] {
      var init := xs[..|xs| - 1];
      DedupDistinct(init);
      assert xs[|xs| - 1] !in init;
      assert init + [xs[|xs| - 1]] == xs;
    }
  }

  predicate HasMedia(doc: KnowledgeDoc) {
    doc.mediaUrl != "" || |doc.attachedImages| > 0
  }

  /** The attached images, then the primary media. */
  function MediaUrls(doc: KnowledgeDoc): seq<string> {
    doc.attachedImages + (if doc.mediaUrl != "" then [doc.mediaUrl] else [])
  }

  function MediaKindOf(doc: KnowledgeDoc): MediaKind {
    if doc.mediaType.Some? then doc.mediaType.value else Image
  }

  /** The media of the first retrieved document that has any. */
  function MediaFor(docs: seq<KnowledgeDoc>): (r: Option<MediaPayload>)
    ensures r.None? <==> forall k :: 0 <= k < |docs| ==> !HasMedia(docs[k])
    ensures r.Some? ==> |r.value.urls| > 0
    ensures r.Some? ==> exists k :: (0 <= k < |docs| && HasMedia(docs[k])
              && (forall j :: 0 <= j < k ==> !HasMedia(docs[j]))
              && r.value == MediaPayload(MediaUrls(docs[k]), MediaKindOf(docs[k])))
  {
    if docs == [] then None
    else if HasMedia(docs[0]) then
      Some(MediaPayload(MediaUrls(docs[0]), MediaKindOf(docs[0])))
    else
      var r := MediaFor(docs[1..]);
      assert forall k :: 1 <= k < |docs| ==> docs[k] == docs[1..][k - 1];
      r
  }

  // ---------------------------------------------------------------------
  // Tools the model may call
  // ---------------------------------------------------------------------

  /** A function call of the reply; arguments the model left out are "". */
  datatype FunctionCall = FunctionCall(name: string, location: string, description: string, priority: Priority, topic: string)

  /** `REQ-${Date.now().toString().slice(-6)}` */
  function TicketId(now: nat): string {
    "REQ-" + LastChars(Decimal(now), 6)
  }

  /** The id is "REQ-" and at most six digits, exactly six once the clock is past 10^5 ms. */
  lemma TicketIdShape(now: nat)
    ensures StartsWith(TicketId(now), "REQ-")
    ensures |TicketId(now)| <= 10
    ensures forall k :: 4 <= k < |TicketId(now)| ==> IsDigit(TicketId(now)[k])
    ensures now >= 100000 ==> |TicketId(now)| == 10
  {
    var decimal := Decimal(now);
    var digits := LastChars(decimal, 6);
    var id := "REQ-" + digits;
    assert id == TicketId(now);
    assert id[..4] == "REQ-";
    forall k | 4 <= k < |id| ensures IsDigit(id[k]) {
      assert id[k] == digits[k - 4];
      assert digits[k - 4] == decimal[|decimal| - |digits| + k - 4];
    }
    if now >= 100000 {
      assert Pow10(5) == 100000;
      DecimalLength(now, 5);
    }
  }

  /**
   * The two clock readings a create_ticket call takes: Date.now() for the id
   * and `new Date().toISOString()` for the timestamp.
   */
  datatype Reading = Reading(now: nat, iso: string)

  function NewTicket(call: FunctionCall, reading: Reading): Ticket {
    Ticket(TicketId(reading.now), if call.location == "" then "System" else call.location,
           call.description, call.priority, Open, reading.iso)
  }

  const DefaultTopic := "Wiedza Ogólna"

  function QuizOptions(): seq<QuizOption> {
    [ QuizOption("a", "Zgodność z procedurą (Odpowiedź Prawidłowa)", true),
      QuizOption("b", "Szybkość działania", false),
      QuizOption("c", "Improwizacja", false) ]
  }

  /** The fixed quiz template generate_quiz fills with the topic and the first retrieved document. */
  function QuizWidget(topic: string, docs: seq<KnowledgeDoc>): Widget {
    var t := if topic == "" then DefaultTopic else topic;
    var source := if docs != [] && docs[0].id != "" then docs[0].id else "Baza Wiedzy";
    Widget("QUIZ WIEDZY: " + Upper(t),
           Quiz(QuizData("Pytanie kontrolne dotyczące: " + t + ". Co jest najważniejsze?",
                         QuizOptions(),
                         "Opiera się na dokumencie: " + source)))
  }

  /** Three options a, b, c; exactly option a is correct. */
  lemma QuizWidgetShape(topic: string, docs: seq<KnowledgeDoc>)
    ensures QuizWidget(topic, docs).payload.Quiz?
    ensures var opts := QuizWidget(topic, docs).payload.quiz.options;
            |opts| == 3 && opts[0].id == "a" && opts[1].id == "b" && opts[2].id == "c"
            && forall k :: 0 <= k < 3 ==> (opts[k].isCorrect <==> opts[k].id == "a")
  {
  }

  /** What the tool loop has produced so far; `created` is newest first, as unshift leaves it. */
  datatype ToolState = ToolState(ticket: Option<Ticket>, widget: Option<Widget>, created: seq<Ticket>, lines: seq<LogLine>)

  function ToolLine(call: FunctionCall): LogLine {
    LogLine(ActorSystem, ToolExecution, "Tool Call: " + call.name, Success)
  }

  function ToolStep(st: ToolState, call: FunctionCall, docs: seq<KnowledgeDoc>, reading: Reading): ToolState {
    var afterTicket :=
      if call.name == "create_ticket" then
        var t := NewTicket(call, reading);
        st.(ticket := Some(t), created := [t] + st.created)
      else st;
    var afterQuiz :=
      if call.name == "generate_quiz" then afterTicket.(widget := Some(QuizWidget(call.topic, docs)))
      else afterTicket;
    afterQuiz.(lines := st.lines + [ToolLine(call)])
  }

  /**
   * The `for (const call of functionCalls)` loop as a value; `clock(k)` is
   * what the clock reads while the call at index k runs.
   */
  function Dispatch(calls: seq<FunctionCall>, docs: seq<KnowledgeDoc>, clock: nat -> Reading): ToolState {
    if calls == [] then ToolState(None, None, [], [])
    else ToolStep(Dispatch(calls[..|calls| - 1], docs, clock), calls[|calls| - 1], docs, clock(|calls| - 1))
  }

  lemma DispatchPrefix(calls: seq<FunctionCall>, i: nat, docs: seq<KnowledgeDoc>, clock: nat -> Reading)
    requires i < |calls|
    ensures Dispatch(calls[..i + 1], docs, clock) == ToolStep(Dispatch(calls[..i], docs, clock), calls[i], docs, clock(i))
  {
    assert calls[..i + 1][..i] == calls[..i];
  }

  predicate TicketCall(c: FunctionCall) {
    c.name == "create_ticket"
  }

  /** A generate_quiz call sets the quiz and logs its line. */
  lemma ToolStepQuiz(st: ToolState, call: FunctionCall, docs: seq<KnowledgeDoc>, reading: Reading)
    requires call.name == "generate_quiz"
    ensures ToolStep(st, call, docs, reading) == st.(widget := Some(QuizWidget(call.topic, docs)), lines := st.lines + [ToolLine(call)])
  {
    assert call.name != "create_ticket" by {
      assert call.name[0] == 'g';
    }
  }

  /** A create_ticket call reports and prepends its ticket and logs its line. */
  lemma ToolStepTicket(st: ToolState, call: FunctionCall, docs: seq<KnowledgeDoc>, reading: Reading)
    requires TicketCall(call)
    ensures var t := NewTicket(call, reading);
            ToolStep(st, call, docs, reading) == st.(ticket := Some(t), created := [t] + st.created, lines := st.lines + [ToolLine(call)])
  {
    assert call.name != "generate_quiz" by {
      assert call.name[0] == 'c';
    }
  }

  /** The loop logs one line per call, in call order. */
  lemma {:induction false} DispatchLogsEachCall(calls: seq<FunctionCall>, docs: seq<KnowledgeDoc>, clock: nat -> Reading)
    ensures var st := Dispatch(calls, docs, clock);
            |st.lines| == |calls| && forall k :: 0 <= k < |calls| ==> st.lines[k] == ToolLine(calls[k])
  {
    if calls != [] {
      var init := calls[..|calls| - 1];
      DispatchLogsEachCall(init, docs, clock);
      assert forall k :: 0 <= k < |init| ==> init[k] == calls[k];
    }
  }

  /** One ticket is created per create_ticket call. */
  lemma {:induction false} DispatchCountsTickets(calls: seq<FunctionCall>, docs: seq<KnowledgeDoc>, clock: nat -> Reading)
    ensures |Dispatch(calls, docs, clock).created| == |TicketCalls(calls)|
  {
    if calls != [] {
      var init := calls[..|calls| - 1];
      DispatchCountsTickets(init, docs, clock);
    }
  }

  /** The ticket a create_ticket call at index k makes, field by field. */
  predicate MadeBy(t: Ticket, call: FunctionCall, reading: Reading) {
    TicketCall(call) && t.status == Open && t.id == TicketId(reading.now) && t.timestamp == reading.iso
    && t.location == (if call.location == "" then "System" else call.location)
    && t.description == call.description && t.priority == call.priority
  }

  /**
   * Each created ticket is open and made by one create_ticket call: the id
   * and the timestamp come from that call's own clock readings, the location
   * falls back to "System", description and priority are the call's.
   */
  lemma {:induction false} DispatchCreatesTickets(calls: seq<FunctionCall>, docs: seq<KnowledgeDoc>, clock: nat -> Reading)
    ensures forall t :: t in Dispatch(calls, docs, clock).created ==>
              exists k :: 0 <= k < |calls| && MadeBy(t, calls[k], clock(k))
  {
    if calls != [] {
      var init := calls[..|calls| - 1];
      var last := calls[|calls| - 1];
      DispatchCreatesTickets(init, docs, clock);
      var prev := Dispatch(init, docs, clock);
      var st := Dispatch(calls, docs, clock);
      assert forall k :: 0 <= k < |init| ==> init[k] == calls[k];
      if TicketCall(last) {
        var t0 := NewTicket(last, clock(|calls| - 1));
        assert st.created == [t0] + prev.created;
        forall t | t in st.created ensures exists k :: 0 <= k < |calls| && MadeBy(t, calls[k], clock(k)) {
          if t == t0 {
            assert MadeBy(t, calls[|calls| - 1], clock(|calls| - 1));
          }
        }
      } else {
        assert st.created == prev.created;
      }
    }
  }

  /** The create_ticket calls of a reply, in order. */
  function TicketCalls(calls: seq<FunctionCall>): seq<FunctionCall> {
    if calls == [] then []
    else TicketCalls(calls[..|calls| - 1]) + (if TicketCall(calls[|calls| - 1]) then [calls[|calls| - 1]] else [])
  }

  /** A ticket is reported exactly when some call created one, and it is the newest. */
  lemma {:induction false} DispatchReportsLastTicket(calls: seq<FunctionCall>, docs: seq<KnowledgeDoc>, clock: nat -> Reading)
    ensures var st := Dispatch(calls, docs, clock);
            (st.ticket.Some? <==> exists k :: 0 <= k < |calls| && TicketCall(calls[k]))
            && (st.ticket.Some? ==> st.created != [] && st.ticket.value == st.created[0])
  {
    if calls != [] {
      var init := calls[..|calls| - 1];
      DispatchReportsLastTicket(init, docs, clock);
      assert forall k :: 0 <= k < |init| ==> init[k] == calls[k];
      if TicketCall(calls[|calls| - 1]) {
        assert TicketCall(calls[|calls| - 1]);
      }
    }
  }

  /** A widget comes only from a generate_quiz call, and it is a quiz. */
  lemma {:induction false} DispatchWidgetIsQuiz(calls: seq<FunctionCall>, docs: seq<KnowledgeDoc>, clock: nat -> Reading)
    ensures var st := Dispatch(calls, docs, clock);
            st.widget.Some? ==> st.widget.value.payload.Quiz? && exists k :: 0 <= k < |calls| && calls[k].name == "generate_quiz"
  {
    if calls != [] {
      var init := calls[..|calls| - 1];
      DispatchWidgetIsQuiz(init, docs, clock);
      assert forall k :: 0 <= k < |init| ==> init[k] == calls[k];
      if calls[|calls| - 1].name == "generate_quiz" {
        assert calls[|calls| - 1].name == "generate_quiz";
      }
    }
  }

  // ---------------------------------------------------------------------
  // Post-processing of the answer
  // ---------------------------------------------------------------------

  const ClarificationMarker := "[PYTANIE_DOPRECYZOWUJĄCE]"

  datatype Clarified = Clarified(text: string, isClarification: bool)

  /** Remove the first clarification marker and trim; without a marker the text is kept as it is. */
  function StripClarification(text: string): (r: Clarified)
    ensures r.isClarification <==> Contains(text, ClarificationMarker)
    ensures !r.isClarification ==> r.text == text
  {
    if Contains(text, ClarificationMarker) then Clarified(Trim(ReplaceFirst(text, ClarificationMarker, "")), true)
    else Clarified(text, false)
  }

  /** Only the first marker goes: a second one survives into the displayed text. */
  lemma SecondMarkerSurvives(text: string, j: int)
    requires Contains(text, ClarificationMarker)
    requires OccursAt(text, ClarificationMarker, j)
    requires j >= IndexOf(text, ClarificationMarker) + |ClarificationMarker|
    ensures Contains(StripClarification(text).text, ClarificationMarker)
  {
    ReplaceFirstKeepsLaterOccurrences(text, ClarificationMarker, "", j);
    TrimKeepsOccurrence(ReplaceFirst(text, ClarificationMarker, ""), ClarificationMarker, j - |ClarificationMarker|);
  }

  const ChecklistTitle := "LISTA KROKÓW (SOP)"

  /** The answer looks like a procedure: numbered "1. " and "2. ", or the word "krok". */
  predicate ChecklistTrigger(text: string) {
    (Contains(text, "1. ") && Contains(text, "2. ")) || Contains(Lower(text), "krok")
  }

  /** `/^\d+\./`: one or more digits, then a dot. */
  predicate IsStepLine(line: string) {
    var n := DigitRun(line);
    0 < n < |line| && line[n] == '.'
  }

  /**
   * `line.replace(/^\d+\.\s*\/, '').trim()`, applied to the line as it
   * stands: the number is only stripped when the untrimmed line starts with it.
   */
  function StepText(line: string): string {
    if IsStepLine(line) then Trim(line[DigitRun(line) + 1..]) else Trim(line)
  }

  /** The step a single line contributes, if it is numbered. */
  function StepOf(line: string): seq<string> {
    if IsStepLine(Trim(line)) then [StepText(line)] else []
  }

  /** `lines.filter(...).map(...)` as one pass: each numbered line gives its step. */
  function StepsOf(lines: seq<string>): seq<string> {
    FlatMap(lines, StepOf)
  }

  /** The steps of a text: its numbered lines, in order. */
  function Steps(text: string): seq<string> {
    StepsOf(Split(text, '\n'))
  }

  /** Steps keep line order: the steps of two texts joined by a newline are the steps of each. */
  lemma StepsKeepLineOrder(a: string, b: string)
    ensures Steps(a + "\n" + b) == Steps(a) + Steps(b)
  {
    SplitAround(a, '\n', b);
    FlatMapAppend(Split(a, '\n'), Split(b, '\n'), StepOf);
  }

  /** Every step is the text of a numbered line, and every numbered line gives one. */
  lemma StepsOfLines(lines: seq<string>, step: string)
    ensures step in StepsOf(lines) <==> exists j :: 0 <= j < |lines| && IsStepLine(Trim(lines[j])) && step == StepText(lines[j])
  {
    FlatMapMembers(lines, StepOf, step);
  }

  /**
   * On an indented line the number survives: the filter looks at the
   * trimmed line, but the number is stripped from the line as it stands.
   */
  lemma IndentedStepKeepsNumber(line: string)
    requires line != [] && IsWhitespace(line[0])
    ensures StepText(line) == Trim(line)
  {
    assert !IsDigit(line[0]);
  }

  /** The widget after post-processing: a tool widget wins; otherwise a checklist of at least two steps. */
  function ChecklistFor(text: string, widget: Option<Widget>): (r: Option<Widget>)
    ensures widget.Some? ==> r == widget
    ensures widget.None? ==> (r.Some? <==> ChecklistTrigger(text) && |Steps(text)| >= 2)
    ensures widget.None? && r.Some? ==> r.value == Widget(ChecklistTitle, Checklist(Steps(text)))
  {
    if widget.None? && ChecklistTrigger(text) && |Steps(text)| >= 2 then
      Some(Widget(ChecklistTitle, Checklist(Steps(text))))
    else widget
  }

  // ---------------------------------------------------------------------
  // sendMessageToGemini as a value
  // ---------------------------------------------------------------------

  datatype ChatResult = ChatResult(
    text: string,
    sources: seq<string>,
    createdTicket: Option<Ticket>,
    media: Option<MediaPayload>,
    widget: Option<Widget>,
    isClarification: bool)

  /**
   * The acknowledgement sent back to the model for the call at index `at`
   * rejects with an error whose message is `message`.
   */
  datatype AckFailure = AckFailure(at: nat, message: string)

  /**
   * The model's answer to the prompt: its text (possibly "") and function
   * calls, and whether one of the acknowledgements sent back for them
   * rejects; or an error thrown by the first sendMessage.
   */
  datatype ModelReply = Reply(text: string, calls: seq<FunctionCall>, ackFailure: Option<AckFailure>) | Failure(message: string)

  /** create_ticket and generate_quiz send a function response back to the model; other calls do not. */
  predicate Acknowledged(call: FunctionCall) {
    call.name == "create_ticket" || call.name == "generate_quiz"
  }

  /** The acknowledgement failure takes effect: it names a call that sends an acknowledgement. */
  predicate AckRejects(calls: seq<FunctionCall>, ack: Option<AckFailure>) {
    ack.Some? && ack.value.at < |calls| && Acknowledged(calls[ack.value.at])
  }

  /** How many calls the loop runs: up to the one whose acknowledgement rejects, or all of them. */
  function CallsRun(calls: seq<FunctionCall>, ack: Option<AckFailure>): (n: nat)
    ensures n <= |calls|
    ensures n < |calls| ==> AckRejects(calls, ack)
  {
    if AckRejects(calls, ack) then ack.value.at + 1 else |calls|
  }

  const InjectionReply := "⚠️ NARUSZENIE PROTOKOŁU: Wykryto próbę manipulacji systemem. Incydent został zalogowany."
  const RefusalReply := "⚠️ ODMOWA DOSTĘPU: Brak informacji w Bazie Wiedzy (MEMORY CORE) na ten temat. Moje protokoły zabraniają korzystania z wiedzy zewnętrznej lub spekulowania."
  const FailureReply := "⚠️ Przepraszam, wystąpił problem techniczny. Proszę spróbować ponownie."

  const InjectionLine := LogLine(ActorGuardrail, SecurityBlock, "Prompt Injection Detected", Blocked)
  const ResponseLine := LogLine(ActorSystem, Response, "Response generated from Memory Core", Success)

  function QueryLine(redacted: bool): LogLine {
    if redacted then LogLine(ActorGuardrail, Query, "PII Data Redacted from User Query", Warning)
    else LogLine(ActorUser, Query, "User Input Received", Success)
  }

  function GapLine(cleanText: string): LogLine {
    LogLine(ActorSystem, KnowledgeGap, "No internal data for: " + cleanText, Blocked)
  }

  function FailureLine(message: string): LogLine {
    LogLine(ActorSystem, Response, "API Error: " + message, Blocked)
  }

  /** The line submitMessageFeedback logs. */
  function FeedbackLine(messageId: string, isPositive: bool): LogLine {
    LogLine(ActorUser, UserFeedback, "Feedback for message " + messageId + ": " + (if isPositive then "POSITIVE" else "NEGATIVE"), Success)
  }

  /** Everything one call of sendMessageToGemini produces; `consulted` says whether the model's reply was used. */
  datatype Exchange = Exchange(result: ChatResult, created: seq<Ticket>, lines: seq<LogLine>, consulted: bool)

  /** The catch block's result: the apology, the sources as retrieved, the media; nothing else. */
  function FailureResult(docs: seq<KnowledgeDoc>): ChatResult {
    ChatResult(FailureReply, Titles(docs), None, MediaFor(docs), None, false)
  }

  function Answer(docs: seq<KnowledgeDoc>, reply: ModelReply, clock: nat -> Reading): (ChatResult, seq<Ticket>, seq<LogLine>) {
    match reply
    case Failure(message) =>
      (FailureResult(docs), [], [FailureLine(message)])
    case Reply(text, calls, ack) =>
      var tools := Dispatch(calls[..CallsRun(calls, ack)], docs, clock);
      if AckRejects(calls, ack) then
        (FailureResult(docs), tools.created, tools.lines + [FailureLine(ack.value.message)])
      else
        var clarified := StripClarification(text);
        (ChatResult(clarified.text, Dedup(Titles(docs)), tools.ticket, MediaFor(docs),
                    ChecklistFor(clarified.text, tools.widget), clarified.isClarification),
         tools.created, tools.lines + [ResponseLine])
  }

  function Respond(store: seq<KnowledgeDoc>, userQuery: string, image: string, hasHistory: bool,
                   reply: ModelReply, clock: nat -> Reading, email: Matcher, phone: Matcher): Exchange
  {
    if DetectPromptInjection(userQuery) then
      Exchange(ChatResult(InjectionReply, [], None, None, None, false), [], [InjectionLine], false)
    else
      var cleanText := Scrubbed(userQuery, email, phone);
      var queryLine := QueryLine(AnyPassMatched(userQuery, email, phone));
      var docs := RetrievedFor(store, cleanText);
      if Refuses(docs, cleanText, image, hasHistory) then
        Exchange(ChatResult(RefusalReply, [], None, None, None, false), [], [queryLine, GapLine(cleanText)], false)
      else
        var (result, created, lines) := Answer(docs, reply, clock);
        Exchange(result, created, [queryLine] + lines, true)
  }

  /**
   * An injection attempt is refused first: fixed text, no sources, one
   * security-block audit line, and neither the store nor the model is
   * looked at.
   */
  lemma InjectionRefusedFirst(store: seq<KnowledgeDoc>, userQuery: string, image: string, hasHistory: bool,
                              reply: ModelReply, clock: nat -> Reading, email: Matcher, phone: Matcher,
                              otherStore: seq<KnowledgeDoc>, otherReply: ModelReply)
    requires DetectPromptInjection(userQuery)
    ensures var ex := Respond(store, userQuery, image, hasHistory, reply, clock, email, phone);
            ex.result.text == InjectionReply && ex.result.sources == [] && !ex.consulted
            && ex.lines == [InjectionLine] && ex.created == []
            && ex == Respond(otherStore, userQuery, image, hasHistory, otherReply, clock, email, phone)
  {
  }

  /**
   * Past the injection check, the model is consulted unless all four refusal
   * conditions hold; a refusal has the fixed text and no sources, logs a
   * knowledge gap and does not depend on the model's reply.
   */
  lemma ClosedSystemGate(store: seq<KnowledgeDoc>, userQuery: string, image: string, hasHistory: bool,
                         reply: ModelReply, clock: nat -> Reading, email: Matcher, phone: Matcher, otherReply: ModelReply)
    requires !DetectPromptInjection(userQuery)
    ensures var cleanText := Scrubbed(userQuery, email, phone);
            var ex := Respond(store, userQuery, image, hasHistory, reply, clock, email, phone);
            (!ex.consulted <==> RetrievedFor(store, cleanText) == [] && !IsMetaQuery(cleanText) && image == "" && !hasHistory)
            && (!ex.consulted ==> ex.result.text == RefusalReply && ex.result.sources == [] && ex.created == []
                                  && ex.lines[|ex.lines| - 1] == GapLine(cleanText)
                                  && ex == Respond(store, userQuery, image, hasHistory, otherReply, clock, email, phone))
            && ex.lines[0] == QueryLine(AnyPassMatched(userQuery, email, phone))
  {
  }

  /**
   * A cleaned query of at most two UTF-16 code units retrieves nothing: no
   * sources, no media.
   */
  lemma ShortQuerySkipsRetrieval(store: seq<KnowledgeDoc>, userQuery: string, image: string, hasHistory: bool,
                                 reply: ModelReply, clock: nat -> Reading, email: Matcher, phone: Matcher)
    requires Utf16Length(Scrubbed(userQuery, email, phone)) <= 2
    ensures var ex := Respond(store, userQuery, image, hasHistory, reply, clock, email, phone);
            ex.result.sources == [] && ex.result.media.None?
  {
  }

  lemma TitleMembers(docs: seq<KnowledgeDoc>, t: string)
    ensures t in Titles(docs) <==> exists d :: d in docs && d.title == t
  {
    if t in Titles(docs) {
      var k :| 0 <= k < |docs| && Titles(docs)[k] == t;
      assert docs[k] in docs;
    }
    if exists d :: d in docs && d.title == t {
      var d :| d in docs && d.title == t;
      var k :| 0 <= k < |docs| && docs[k] == d;
      assert Titles(docs)[k] == t;
    }
  }

  /** Every retrieved document is in the store and scored above the threshold. */
  lemma RetrievedAreRelevant(store: seq<KnowledgeDoc>, cleanText: string, d: KnowledgeDoc)
    requires d in RetrievedFor(store, cleanText)
    ensures d in store && Score(d, cleanText, Tokenize(cleanText)) > 1
  {
    RankedItemsSpec(store, cleanText);
    var items := RankedItems(store, cleanText);
    var k :| 0 <= k < |items| && DocsOf(items)[k] == d;
    assert items[k] in items;
  }

  lemma RepliedSources(store: seq<KnowledgeDoc>, userQuery: string, image: string, hasHistory: bool,
                       reply: ModelReply, clock: nat -> Reading, email: Matcher, phone: Matcher)
    requires !DetectPromptInjection(userQuery) && reply.Reply? && !AckRejects(reply.calls, reply.ackFailure)
    ensures var ex := Respond(store, userQuery, image, hasHistory, reply, clock, email, phone);
            ex.consulted ==> ex.result.sources == Dedup(Titles(RetrievedFor(store, Scrubbed(userQuery, email, phone))))
  {
  }

  /**
   * On a successful reply the sources are the titles of the retrieved
   * documents, each once, and every retrieved document is a stored document
   * that scored above 1.
   */
  lemma AnsweredSources(store: seq<KnowledgeDoc>, userQuery: string, image: string, hasHistory: bool,
                        reply: ModelReply, clock: nat -> Reading, email: Matcher, phone: Matcher, ex: Exchange)
    requires !DetectPromptInjection(userQuery) && reply.Reply? && !AckRejects(reply.calls, reply.ackFailure)
    requires ex == Respond(store, userQuery, image, hasHistory, reply, clock, email, phone) && ex.consulted
    ensures var docs := RetrievedFor(store, Scrubbed(userQuery, email, phone));
            (forall t :: t in ex.result.sources <==> exists d :: d in docs && d.title == t)
            && (forall j, k :: 0 <= j < k < |ex.result.sources| ==> ex.result.sources[j] != ex.result.sources[k])
            && (forall d :: d in docs ==>
                  d in store && Score(d, Scrubbed(userQuery, email, phone), Tokenize(Scrubbed(userQuery, email, phone))) > 1)
  {
    var cleanText := Scrubbed(userQuery, email, phone);
    var docs := RetrievedFor(store, cleanText);
    RepliedSources(store, userQuery, image, hasHistory, reply, clock, email, phone);
    forall t ensures t in ex.result.sources <==> exists d :: d in docs && d.title == t {
      TitleMembers(docs, t);
    }
    forall d | d in docs ensures d in store && Score(d, cleanText, Tokenize(cleanText)) > 1 {
      RetrievedAreRelevant(store, cleanText, d);
    }
  }

  /**
   * When the first sendMessage throws, the text is the fixed apology, the
   * sources are not deduplicated, nothing is created, and the error is the
   * one line logged after the query line.
   */
  lemma FailedReply(store: seq<KnowledgeDoc>, userQuery: string, image: string, hasHistory: bool,
                    message: string, clock: nat -> Reading, email: Matcher, phone: Matcher)
    requires !DetectPromptInjection(userQuery)
    ensures var cleanText := Scrubbed(userQuery, email, phone);
            var ex := Respond(store, userQuery, image, hasHistory, Failure(message), clock, email, phone);
            ex.consulted ==>
              ex.result == FailureResult(RetrievedFor(store, cleanText))
              && ex.result.text == FailureReply && ex.result.sources == Titles(RetrievedFor(store, cleanText))
              && ex.result.createdTicket.None? && ex.result.widget.None? && !ex.result.isClarification
              && ex.created == [] && ex.lines == [QueryLine(AnyPassMatched(userQuery, email, phone)), FailureLine(message)]
  {
    var cleanText := Scrubbed(userQuery, email, phone);
    if Refuses(RetrievedFor(store, cleanText), cleanText, image, hasHistory) {
      RespondRefusal(store, userQuery, image, hasHistory, Failure(message), clock, email, phone);
    } else {
      RespondConsults(store, userQuery, image, hasHistory, Failure(message), clock, email, phone);
      assert [QueryLine(AnyPassMatched(userQuery, email, phone))] + [FailureLine(message)]
             == [QueryLine(AnyPassMatched(userQuery, email, phone)), FailureLine(message)];
    }
  }

  /**
   * When the acknowledgement of call `at` rejects, the loop stops after that
   * call and the catch block answers: the apology with the sources as
   * retrieved and no ticket or widget, although the tickets of the calls up
   * to `at` stay created (a ticket call's own ticket included) and their
   * tool lines stay logged, followed by the error line instead of the
   * response line.
   */
  lemma AckRejectedReply(store: seq<KnowledgeDoc>, userQuery: string, image: string, hasHistory: bool,
                         text: string, calls: seq<FunctionCall>, at: nat, message: string,
                         clock: nat -> Reading, email: Matcher, phone: Matcher)
    requires !DetectPromptInjection(userQuery)
    requires at < |calls| && Acknowledged(calls[at])
    ensures var cleanText := Scrubbed(userQuery, email, phone);
            var ex := Respond(store, userQuery, image, hasHistory, Reply(text, calls, Some(AckFailure(at, message))), clock, email, phone);
            var tools := Dispatch(calls[..at + 1], RetrievedFor(store, cleanText), clock);
            ex.consulted ==>
              ex.result == FailureResult(RetrievedFor(store, cleanText))
              && ex.result.createdTicket.None? && ex.result.widget.None?
              && ex.created == tools.created
              && |ex.lines| == at + 3 && ex.lines[|ex.lines| - 1] == FailureLine(message)
              && (forall k :: 0 <= k <= at ==> ex.lines[k + 1] == ToolLine(calls[k]))
              && (TicketCall(calls[at]) ==> ex.created != [] && ex.created[0] == NewTicket(calls[at], clock(at)))
  {
    var cleanText := Scrubbed(userQuery, email, phone);
    var docs := RetrievedFor(store, cleanText);
    if Refuses(docs, cleanText, image, hasHistory) {
      RespondRefusal(store, userQuery, image, hasHistory, Reply(text, calls, Some(AckFailure(at, message))), clock, email, phone);
    } else {
      var reply := Reply(text, calls, Some(AckFailure(at, message)));
      var tools := Dispatch(calls[..at + 1], docs, clock);
      var q := QueryLine(AnyPassMatched(userQuery, email, phone));
      RespondConsults(store, userQuery, image, hasHistory, reply, clock, email, phone);
      AckRejectedAnswer(docs, text, calls, at, message, clock);
      assert Respond(store, userQuery, image, hasHistory, reply, clock, email, phone)
             == Exchange(FailureResult(docs), tools.created, [q] + (tools.lines + [FailureLine(message)]), true);
      AckRejectedTools(docs, calls, at, clock);
      FramedLines(q, tools.lines, FailureLine(message), calls, at);
    }
  }

  /** The tool lines of the calls up to `at`, between the query line and the error line. */
  lemma FramedLines(q: LogLine, lines: seq<LogLine>, last: LogLine, calls: seq<FunctionCall>, at: nat)
    requires at < |calls| && |lines| == at + 1
    requires forall k :: 0 <= k <= at ==> lines[k] == ToolLine(calls[k])
    ensures var all := [q] + (lines + [last]);
            |all| == at + 3 && all[|all| - 1] == last && forall k :: 0 <= k <= at ==> all[k + 1] == ToolLine(calls[k])
  {
  }

  /** Answer for a reply whose acknowledgement of call `at` rejects. */
  lemma AckRejectedAnswer(docs: seq<KnowledgeDoc>, text: string, calls: seq<FunctionCall>, at: nat, message: string,
                          clock: nat -> Reading)
    requires at < |calls| && Acknowledged(calls[at])
    ensures var tools := Dispatch(calls[..at + 1], docs, clock);
            Answer(docs, Reply(text, calls, Some(AckFailure(at, message))), clock)
            == (FailureResult(docs), tools.created, tools.lines + [FailureLine(message)])
  {
  }

  /** The tool lines and the newest ticket of the calls up to `at`. */
  lemma AckRejectedTools(docs: seq<KnowledgeDoc>, calls: seq<FunctionCall>, at: nat, clock: nat -> Reading)
    requires at < |calls|
    ensures var tools := Dispatch(calls[..at + 1], docs, clock);
            |tools.lines| == at + 1 && (forall k :: 0 <= k <= at ==> tools.lines[k] == ToolLine(calls[k]))
            && (TicketCall(calls[at]) ==> tools.created != [] && tools.created[0] == NewTicket(calls[at], clock(at)))
  {
    var done := calls[..at + 1];
    DispatchLogsEachCall(done, docs, clock);
    DispatchPrefix(calls, at, docs, clock);
    assert forall k :: 0 <= k <= at ==> done[k] == calls[k];
  }

  /** The refusal branch of Respond. */
  lemma RespondRefusal(store: seq<KnowledgeDoc>, userQuery: string, image: string, hasHistory: bool,
                       reply: ModelReply, clock: nat -> Reading, email: Matcher, phone: Matcher)
    requires !DetectPromptInjection(userQuery)
    requires Refuses(RetrievedFor(store, Scrubbed(userQuery, email, phone)), Scrubbed(userQuery, email, phone), image, hasHistory)
    ensures Respond(store, userQuery, image, hasHistory, reply, clock, email, phone)
            == Exchange(ChatResult(RefusalReply, [], None, None, None, false), [],
                        [QueryLine(AnyPassMatched(userQuery, email, phone)), GapLine(Scrubbed(userQuery, email, phone))], false)
  {
  }

  /** The branch of Respond that consults the model. */
  lemma RespondConsults(store: seq<KnowledgeDoc>, userQuery: string, image: string, hasHistory: bool,
                        reply: ModelReply, clock: nat -> Reading, email: Matcher, phone: Matcher)
    requires !DetectPromptInjection(userQuery)
    requires !Refuses(RetrievedFor(store, Scrubbed(userQuery, email, phone)), Scrubbed(userQuery, email, phone), image, hasHistory)
    ensures var a := Answer(RetrievedFor(store, Scrubbed(userQuery, email, phone)), reply, clock);
            Respond(store, userQuery, image, hasHistory, reply, clock, email, phone)
            == Exchange(a.0, a.1, [QueryLine(AnyPassMatched(userQuery, email, phone))] + a.2, true)
  {
  }

  /** A reply whose acknowledgements all go through: every call runs, then the response line. */
  lemma AnswerToReply(docs: seq<KnowledgeDoc>, text: string, calls: seq<FunctionCall>, ack: Option<AckFailure>,
                      clock: nat -> Reading)
    requires !AckRejects(calls, ack)
    ensures var tools := Dispatch(calls, docs, clock);
            var clarified := StripClarification(text);
            Answer(docs, Reply(text, calls, ack), clock)
            == (ChatResult(clarified.text, Dedup(Titles(docs)), tools.ticket, MediaFor(docs),
                           ChecklistFor(clarified.text, tools.widget), clarified.isClarification),
                tools.created, tools.lines + [ResponseLine])
  {
    assert calls[..|calls|] == calls;
  }

  /**
   * The tool loop's variables, the ticket list and the audit trail (`slot`,
   * `drawn`) agree with the tool state `st` on top of the state before the
   * loop (`tickets0`, `slot0`, `drawn0`).
   */
  ghost predicate Agrees(st: ToolState, ticket: Option<Ticket>, widget: Option<Widget>, tickets: seq<Ticket>,
                         slot: Slot, drawn: nat, draws: nat -> Draw, slot0: Slot, drawn0: nat, tickets0: seq<Ticket>)
  {
    ticket == st.ticket && widget == st.widget && tickets == st.created + tickets0
    && slot == Recorded(slot0, draws, drawn0, st.lines) && drawn == drawn0 + |st.lines|
  }

  /** The agreement with `Dispatch(done, ...)`. */
  ghost predicate ToolsAgree(done: seq<FunctionCall>, docs: seq<KnowledgeDoc>, clock: nat -> Reading,
                             ticket: Option<Ticket>, widget: Option<Widget>, tickets: seq<Ticket>,
                             slot: Slot, drawn: nat, draws: nat -> Draw, slot0: Slot, drawn0: nat, tickets0: seq<Ticket>)
  {
    Agrees(Dispatch(done, docs, clock), ticket, widget, tickets, slot, drawn, draws, slot0, drawn0, tickets0)
  }

  /** Logging the tool line of one more step keeps the audit half of the agreement. */
  lemma AgreesLine(st: ToolState, st': ToolState, call: FunctionCall, slot: Slot, drawn: nat, draws: nat -> Draw,
                   slot0: Slot, drawn0: nat)
    requires st'.lines == st.lines + [ToolLine(call)]
    requires slot == Recorded(slot0, draws, drawn0, st.lines) && drawn == drawn0 + |st.lines|
    ensures LogOnce(slot, draws(drawn), ToolLine(call)) == Recorded(slot0, draws, drawn0, st'.lines)
    ensures drawn + 1 == drawn0 + |st'.lines|
  {
    RecordedSnoc(slot0, draws, drawn0, st.lines, ToolLine(call));
  }

  /** A create_ticket turn of the tool loop keeps the agreement. */
  lemma ToolsAgreeTicket(calls: seq<FunctionCall>, i: nat, docs: seq<KnowledgeDoc>, clock: nat -> Reading,
                         ticket: Option<Ticket>, widget: Option<Widget>, tickets: seq<Ticket>,
                         slot: Slot, drawn: nat, draws: nat -> Draw, slot0: Slot, drawn0: nat, tickets0: seq<Ticket>)
    requires i < |calls| && TicketCall(calls[i])
    requires ToolsAgree(calls[..i], docs, clock, ticket, widget, tickets, slot, drawn, draws, slot0, drawn0, tickets0)
    ensures ToolsAgree(calls[..i + 1], docs, clock, Some(NewTicket(calls[i], clock(i))), widget,
                       [NewTicket(calls[i], clock(i))] + tickets,
                       LogOnce(slot, draws(drawn), ToolLine(calls[i])), drawn + 1, draws, slot0, drawn0, tickets0)
  {
    var st := Dispatch(calls[..i], docs, clock);
    var st' := Dispatch(calls[..i + 1], docs, clock);
    var t := NewTicket(calls[i], clock(i));
    DispatchPrefix(calls, i, docs, clock);
    ToolStepTicket(st, calls[i], docs, clock(i));
    AgreesLine(st, st', calls[i], slot, drawn, draws, slot0, drawn0);
    AppendAssociates([t], st.created, tickets0);
  }

  /** A generate_quiz turn of the tool loop keeps the agreement. */
  lemma ToolsAgreeQuiz(calls: seq<FunctionCall>, i: nat, docs: seq<KnowledgeDoc>, clock: nat -> Reading,
                       ticket: Option<Ticket>, widget: Option<Widget>, tickets: seq<Ticket>,
                       slot: Slot, drawn: nat, draws: nat -> Draw, slot0: Slot, drawn0: nat, tickets0: seq<Ticket>)
    requires i < |calls| && calls[i].name == "generate_quiz"
    requires ToolsAgree(calls[..i], docs, clock, ticket, widget, tickets, slot, drawn, draws, slot0, drawn0, tickets0)
    ensures ToolsAgree(calls[..i + 1], docs, clock, ticket, Some(QuizWidget(calls[i].topic, docs)), tickets,
                       LogOnce(slot, draws(drawn), ToolLine(calls[i])), drawn + 1, draws, slot0, drawn0, tickets0)
  {
    var st := Dispatch(calls[..i], docs, clock);
    var st' := Dispatch(calls[..i + 1], docs, clock);
    DispatchPrefix(calls, i, docs, clock);
    ToolStepQuiz(st, calls[i], docs, clock(i));
    AgreesLine(st, st', calls[i], slot, drawn, draws, slot0, drawn0);
  }

  /** Any other call only adds its tool line. */
  lemma ToolsAgreeOther(calls: seq<FunctionCall>, i: nat, docs: seq<KnowledgeDoc>, clock: nat -> Reading,
                        ticket: Option<Ticket>, widget: Option<Widget>, tickets: seq<Ticket>,
                        slot: Slot, drawn: nat, draws: nat -> Draw, slot0: Slot, drawn0: nat, tickets0: seq<Ticket>)
    requires i < |calls| && !Acknowledged(calls[i])
    requires ToolsAgree(calls[..i], docs, clock, ticket, widget, tickets, slot, drawn, draws, slot0, drawn0, tickets0)
    ensures ToolsAgree(calls[..i + 1], docs, clock, ticket, widget, tickets,
                       LogOnce(slot, draws(drawn), ToolLine(calls[i])), drawn + 1, draws, slot0, drawn0, tickets0)
  {
    var st := Dispatch(calls[..i], docs, clock);
    var st' := Dispatch(calls[..i + 1], docs, clock);
    DispatchPrefix(calls, i, docs, clock);
    AgreesLine(st, st', calls[i], slot, drawn, draws, slot0, drawn0);
  }

  // ---------------------------------------------------------------------
  // The call as the chat screen sees it
  // ---------------------------------------------------------------------

  /** What the awaited sendMessageToGemini gives its caller: the result, or an exception. */
  datatype Outcome = Answered(result: ChatResult) | Threw

  /**
   * What `chatSession.getHistory()` gives: whether the session's history has
   * more than one entry, or a rejection, which nothing in the call catches.
   */
  datatype HistoryProbe = Reported(hasHistory: bool) | ProbeFails

  /** One sendMessageToGemini call: its outcome, the tickets it created (newest first) and its audit lines. */
  datatype Sending = Sending(outcome: Outcome, created: seq<Ticket>, lines: seq<LogLine>)

  function Send(store: seq<KnowledgeDoc>, userQuery: string, image: string, probe: HistoryProbe,
                reply: ModelReply, clock: nat -> Reading, email: Matcher, phone: Matcher): Sending
  {
    if !DetectPromptInjection(userQuery) && probe.ProbeFails? then
      Sending(Threw, [], [QueryLine(AnyPassMatched(userQuery, email, phone))])
    else
      var ex := Respond(store, userQuery, image, probe.Reported? && probe.hasHistory, reply, clock, email, phone);
      Sending(Answered(ex.result), ex.created, ex.lines)
  }

  /**
   * The call throws exactly when the history probe rejects after the
   * injection screen; it has then logged the query line and created
   * nothing.  Otherwise it answers with what Respond computes.  Either way
   * the first audit line is the injection line or the query line.
   */
  lemma SendOutcomes(store: seq<KnowledgeDoc>, userQuery: string, image: string, probe: HistoryProbe,
                     reply: ModelReply, clock: nat -> Reading, email: Matcher, phone: Matcher)
    ensures var s := Send(store, userQuery, image, probe, reply, clock, email, phone);
            (s.outcome.Threw? <==> !DetectPromptInjection(userQuery) && probe.ProbeFails?)
            && (s.outcome.Threw? ==> s.created == [] && s.lines == [QueryLine(AnyPassMatched(userQuery, email, phone))])
            && (probe.Reported? ==>
                  var ex := Respond(store, userQuery, image, probe.hasHistory, reply, clock, email, phone);
                  s == Sending(Answered(ex.result), ex.created, ex.lines))
            && s.lines != []
            && s.lines[0] == (if DetectPromptInjection(userQuery) then InjectionLine
                              else QueryLine(AnyPassMatched(userQuery, email, phone)))
  {
  }

  /**
   * Whether a session exists, and the history it was opened with, after a
   * call: initChat([]) runs when there was none and the query passed the
   * injection screen.
   */
  function SessionAfterSend(open: bool, history: seq<Turn>, userQuery: string): (bool, seq<Turn>) {
    if !open && !DetectPromptInjection(userQuery) then (true, []) else (open, history)
  }

  // ---------------------------------------------------------------------
  // The module-level state of the service
  // ---------------------------------------------------------------------

  /** What session storage holds under the chat key. */
  datatype ChatStore = NoChat | CorruptChat | SavedChat(messages: seq<Message>)

  /** `runtimeKnowledgeBase.filter(doc => doc.id !== id)` */
  function WithoutId(docs: seq<KnowledgeDoc>, id: string): (r: seq<KnowledgeDoc>)
    ensures |r| <= |docs|
    ensures forall d :: d in r <==> d in docs && d.id != id
  {
    if docs == [] then []
    else (if docs[0].id != id then [docs[0]] else []) + WithoutId(docs[1..], id)
  }

  /** Removing an id that no document has changes nothing. */
  lemma {:induction false} WithoutAbsentId(docs: seq<KnowledgeDoc>, id: string)
    requires forall k :: 0 <= k < |docs| ==> docs[k].id != id
    ensures WithoutId(docs, id) == docs
  {
    if docs != [] {
      WithoutAbsentId(docs[1..], id);
    }
  }

  /** Removing after adding a document with a fresh id gives back the store minus nothing. */
  lemma AddThenRemove(docs: seq<KnowledgeDoc>, doc: KnowledgeDoc)
    requires forall k :: 0 <= k < |docs| ==> docs[k].id != doc.id
    ensures WithoutId([doc] + docs, doc.id) == docs
  {
    WithoutAbsentId(docs, doc.id);
    assert ([doc] + docs)[1..] == docs;
  }

  /**
   * The service module: the runtime document store, the ticket list, the
   * chat session (whether one exists and the history it was created with),
   * the chat kept in session storage, and the audit trail.
   */
  class RagEngine {
    var knowledgeBase: seq<KnowledgeDoc>
    var tickets: seq<Ticket>
    var sessionOpen: bool
    var sessionHistory: seq<Turn>
    var chatStore: ChatStore
    const audit: AuditTrail
    const email: Matcher
    const phone: Matcher

    constructor (initialDocs: seq<KnowledgeDoc>, audit: AuditTrail, email: Matcher, phone: Matcher, chatStore: ChatStore)
      ensures knowledgeBase == initialDocs && tickets == [] && !sessionOpen && sessionHistory == []
      ensures this.chatStore == chatStore && this.audit == audit && this.email == email && this.phone == phone
    {
      knowledgeBase := initialDocs;
      tickets := [];
      sessionOpen := false;
      sessionHistory := [];
      this.chatStore := chatStore;
      this.audit := audit;
      this.email := email;
      this.phone := phone;
    }

    /** initChat: open a session whose history is the converted chat. */
    method InitChat(history: seq<Message>)
      modifies this
      ensures sessionOpen && sessionHistory == ModelHistory(history)
      ensures knowledgeBase == old(knowledgeBase) && tickets == old(tickets) && chatStore == old(chatStore)
    {
      var chatHistory := NonSystem(history);
      var firstUserIndex := FirstUser(chatHistory);
      var validHistory: seq<Turn> := [];
      if firstUserIndex != -1 {
        validHistory := ToTurns(chatHistory[firstUserIndex..]);
      }
      sessionHistory := validHistory;
      sessionOpen := true;
    }

    /** addDocumentToKnowledgeBase: the new document goes to the head of the store. */
    method AddDocument(doc: KnowledgeDoc)
      modifies this
      ensures knowledgeBase == [doc] + old(knowledgeBase)
      ensures tickets == old(tickets) && sessionOpen == old(sessionOpen)
      ensures sessionHistory == old(sessionHistory) && chatStore == old(chatStore)
    {
      knowledgeBase := [doc] + knowledgeBase;
    }

    /** removeDocumentFromKnowledgeBase */
    method RemoveDocument(id: string)
      modifies this
      ensures knowledgeBase == WithoutId(old(knowledgeBase), id)
      ensures tickets == old(tickets) && sessionOpen == old(sessionOpen)
      ensures sessionHistory == old(sessionHistory) && chatStore == old(chatStore)
    {
      knowledgeBase := WithoutId(knowledgeBase, id);
    }

    /** clearChatHistory: drop the session and the saved chat. */
    method ClearChatHistory()
      modifies this
      ensures !sessionOpen && chatStore == NoChat
      ensures knowledgeBase == old(knowledgeBase) && tickets == old(tickets) && sessionHistory == old(sessionHistory)
    {
      sessionOpen := false;
      chatStore := NoChat;
    }

    /** saveChatHistory; a failing write is swallowed. */
    method SaveChatHistory(messages: seq<Message>, writeFails: bool)
      modifies this
      ensures chatStore == if writeFails then old(chatStore) else SavedChat(messages)
      ensures knowledgeBase == old(knowledgeBase) && tickets == old(tickets)
      ensures sessionOpen == old(sessionOpen) && sessionHistory == old(sessionHistory)
    {
      if !writeFails {
        chatStore := SavedChat(messages);
      }
    }

    /** loadChatHistory: nothing saved, or an unreadable entry, reads as an empty chat. */
    method LoadChatHistory() returns (messages: seq<Message>)
      ensures chatStore.SavedChat? ==> messages == chatStore.messages
      ensures !chatStore.SavedChat? ==> messages == []
    {
      match chatStore
      case SavedChat(saved) => messages := saved;
      case _ => messages := [];
    }

    /**
     * The audit trail holds what logging `lines` on top of `slot0` gives,
     * the calls drawing from number `drawn0` on.
     */
    ghost predicate Logged(slot0: Slot, drawn0: nat, lines: seq<LogLine>)
      reads audit
    {
      audit.slot == Recorded(slot0, audit.draws, drawn0, lines) && audit.drawn == drawn0 + |lines|
    }

    /** One logAudit call. */
    method Log(line: LogLine)
      modifies audit
      ensures audit.slot == LogOnce(old(audit.slot), audit.draws(old(audit.drawn)), line)
      ensures Logged(old(audit.slot), old(audit.drawn), [line])
    {
      audit.LogAudit(line.actor, line.action, line.details, line.status);
      RecordedSnoc(old(audit.slot), audit.draws, old(audit.drawn), [], line);
      assert [] + [line] == [line];
    }

    /** submitMessageFeedback: one user-feedback audit line. */
    method SubmitMessageFeedback(messageId: string, isPositive: bool)
      modifies audit
      ensures Logged(old(audit.slot), old(audit.drawn), [FeedbackLine(messageId, isPositive)])
    {
      Log(LogLine(ActorUser, UserFeedback,
                  "Feedback for message " + messageId + ": " + (if isPositive then "POSITIVE" else "NEGATIVE"),
                  Success));
    }

    /**
     * The tool loop's state after the calls in `done`: the ticket and
     * widget variables, the ticket list and the audit trail are those of
     * `Dispatch(done, ...)` on top of `tickets0` and of the trail before the
     * loop (`slot0`, `drawn0`).
     */
    ghost predicate Tracks(done: seq<FunctionCall>, relevantDocs: seq<KnowledgeDoc>, clock: nat -> Reading,
                           ticket: Option<Ticket>, widget: Option<Widget>, slot0: Slot, drawn0: nat, tickets0: seq<Ticket>)
      reads this, audit
    {
      ToolsAgree(done, relevantDocs, clock, ticket, widget, tickets, audit.slot, audit.drawn, audit.draws, slot0, drawn0, tickets0)
    }

    /**
     * The body of the tool loop for the call at index `i`, up to its
     * acknowledgement; `rejected` says that the acknowledgement rejects.
     */
    method RunTool(calls: seq<FunctionCall>, ack: Option<AckFailure>, i: nat, relevantDocs: seq<KnowledgeDoc>,
                   clock: nat -> Reading, ticketIn: Option<Ticket>, widgetIn: Option<Widget>,
                   ghost slot0: Slot, ghost drawn0: nat, ghost tickets0: seq<Ticket>)
      returns (createdTicket: Option<Ticket>, widget: Option<Widget>, rejected: bool)
      requires i < |calls|
      requires Tracks(calls[..i], relevantDocs, clock, ticketIn, widgetIn, slot0, drawn0, tickets0)
      modifies this, audit
      ensures Tracks(calls[..i + 1], relevantDocs, clock, createdTicket, widget, slot0, drawn0, tickets0)
      ensures rejected <==> ack.Some? && ack.value.at == i && Acknowledged(calls[i])
      ensures knowledgeBase == old(knowledgeBase) && sessionOpen == old(sessionOpen)
      ensures sessionHistory == old(sessionHistory) && chatStore == old(chatStore)
    {
      var call := calls[i];
      // The two tests of the loop body exclude each other, so they form one chain here.
      if call.name == "create_ticket" {
        createdTicket := RunTicket(calls, i, relevantDocs, clock, ticketIn, widgetIn, slot0, drawn0, tickets0);
        widget := widgetIn;
        rejected := ack.Some? && ack.value.at == i;
      } else if call.name == "generate_quiz" {
        widget := RunQuiz(calls, i, relevantDocs, clock, ticketIn, widgetIn, slot0, drawn0, tickets0);
        createdTicket := ticketIn;
        rejected := ack.Some? && ack.value.at == i;
      } else {
        ToolsAgreeOther(calls, i, relevantDocs, clock, ticketIn, widgetIn, tickets, audit.slot, audit.drawn, audit.draws,
                        slot0, drawn0, tickets0);
        Log(ToolLine(call));
        createdTicket, widget, rejected := ticketIn, widgetIn, false;
      }
    }

    /** create_ticket: log the call, unshift the new ticket and report it. */
    method RunTicket(calls: seq<FunctionCall>, i: nat, relevantDocs: seq<KnowledgeDoc>, clock: nat -> Reading,
                     ghost ticketIn: Option<Ticket>, widgetIn: Option<Widget>,
                     ghost slot0: Slot, ghost drawn0: nat, ghost tickets0: seq<Ticket>)
      returns (createdTicket: Option<Ticket>)
      requires i < |calls| && TicketCall(calls[i])
      requires Tracks(calls[..i], relevantDocs, clock, ticketIn, widgetIn, slot0, drawn0, tickets0)
      modifies this, audit
      ensures Tracks(calls[..i + 1], relevantDocs, clock, createdTicket, widgetIn, slot0, drawn0, tickets0)
      ensures knowledgeBase == old(knowledgeBase) && sessionOpen == old(sessionOpen)
      ensures sessionHistory == old(sessionHistory) && chatStore == old(chatStore)
    {
      ToolsAgreeTicket(calls, i, relevantDocs, clock, ticketIn, widgetIn, tickets, audit.slot, audit.drawn, audit.draws,
                       slot0, drawn0, tickets0);
      Log(ToolLine(calls[i]));
      var newTicket := NewTicket(calls[i], clock(i));
      tickets := [newTicket] + tickets;
      createdTicket := Some(newTicket);
    }

    /** generate_quiz: log the call and build the quiz from the retrieved documents. */
    method RunQuiz(calls: seq<FunctionCall>, i: nat, relevantDocs: seq<KnowledgeDoc>, clock: nat -> Reading,
                   ticketIn: Option<Ticket>, ghost widgetIn: Option<Widget>,
                   ghost slot0: Slot, ghost drawn0: nat, ghost tickets0: seq<Ticket>)
      returns (widget: Option<Widget>)
      requires i < |calls| && calls[i].name == "generate_quiz"
      requires Tracks(calls[..i], relevantDocs, clock, ticketIn, widgetIn, slot0, drawn0, tickets0)
      modifies this, audit
      ensures Tracks(calls[..i + 1], relevantDocs, clock, ticketIn, widget, slot0, drawn0, tickets0)
      ensures knowledgeBase == old(knowledgeBase) && sessionOpen == old(sessionOpen)
      ensures sessionHistory == old(sessionHistory) && chatStore == old(chatStore)
    {
      ToolsAgreeQuiz(calls, i, relevantDocs, clock, ticketIn, widgetIn, tickets, audit.slot, audit.drawn, audit.draws,
                     slot0, drawn0, tickets0);
      Log(ToolLine(calls[i]));
      widget := Some(QuizWidget(calls[i].topic, relevantDocs));
    }

    /**
     * The tool loop: log each call, unshift a ticket for create_ticket,
     * build the quiz for generate_quiz; a rejected acknowledgement ends the
     * loop after its call.
     */
    method DispatchTools(functionCalls: seq<FunctionCall>, ack: Option<AckFailure>, relevantDocs: seq<KnowledgeDoc>,
                         clock: nat -> Reading)
      returns (createdTicket: Option<Ticket>, widget: Option<Widget>, rejected: bool)
      modifies this, audit
      ensures rejected == AckRejects(functionCalls, ack)
      ensures var st := Dispatch(functionCalls[..CallsRun(functionCalls, ack)], relevantDocs, clock);
              createdTicket == st.ticket && widget == st.widget && tickets == st.created + old(tickets)
              && Logged(old(audit.slot), old(audit.drawn), st.lines)
      ensures knowledgeBase == old(knowledgeBase) && sessionOpen == old(sessionOpen)
      ensures sessionHistory == old(sessionHistory) && chatStore == old(chatStore)
    {
      createdTicket, widget, rejected := None, None, false;
      assert functionCalls[..0] == [];
      var i := 0;
      while i < |functionCalls| && !rejected
        invariant 0 <= i <= CallsRun(functionCalls, ack)
        invariant rejected <==> AckRejects(functionCalls, ack) && i == CallsRun(functionCalls, ack)
        invariant Tracks(functionCalls[..i], relevantDocs, clock, createdTicket, widget,
                         old(audit.slot), old(audit.drawn), old(tickets))
        invariant knowledgeBase == old(knowledgeBase) && sessionOpen == old(sessionOpen)
        invariant sessionHistory == old(sessionHistory) && chatStore == old(chatStore)
      {
        createdTicket, widget, rejected := RunTool(functionCalls, ack, i, relevantDocs, clock, createdTicket, widget,
                                                   old(audit.slot), old(audit.drawn), old(tickets));
        i := i + 1;
      }
    }

    /**
     * The part of sendMessage after the knowledge-gap gate: the model's
     * reply (or its failure) turned into the chat result, with the tool
     * calls run against this engine.
     */
    method ConsultModel(relevantDocs: seq<KnowledgeDoc>, reply: ModelReply, clock: nat -> Reading)
      returns (result: ChatResult)
      modifies this, audit
      ensures var a := Answer(relevantDocs, reply, clock);
              result == a.0 && tickets == a.1 + old(tickets) && Logged(old(audit.slot), old(audit.drawn), a.2)
      ensures knowledgeBase == old(knowledgeBase) && sessionOpen == old(sessionOpen)
      ensures sessionHistory == old(sessionHistory) && chatStore == old(chatStore)
    {
      match reply
      case Failure(message) =>
        assert Recorded(audit.slot, audit.draws, audit.drawn, []) == audit.slot;
        result := ReportFailure(relevantDocs, message, [], audit.slot, audit.drawn);
        assert [] + [FailureLine(message)] == [FailureLine(message)];
      case Reply(text, functionCalls, ack) =>
        result := ConsultReply(relevantDocs, text, functionCalls, ack, clock);
    }

    /** The try block from the tool loop on, for a reply that arrived. */
    method ConsultReply(relevantDocs: seq<KnowledgeDoc>, text: string, functionCalls: seq<FunctionCall>,
                        ack: Option<AckFailure>, clock: nat -> Reading)
      returns (result: ChatResult)
      modifies this, audit
      ensures var a := Answer(relevantDocs, Reply(text, functionCalls, ack), clock);
              result == a.0 && tickets == a.1 + old(tickets) && Logged(old(audit.slot), old(audit.drawn), a.2)
      ensures knowledgeBase == old(knowledgeBase) && sessionOpen == old(sessionOpen)
      ensures sessionHistory == old(sessionHistory) && chatStore == old(chatStore)
    {
      var createdTicket, widget, rejected := DispatchTools(functionCalls, ack, relevantDocs, clock);
      ghost var toolLines := Dispatch(functionCalls[..CallsRun(functionCalls, ack)], relevantDocs, clock).lines;
      if rejected {
        AckRejectedAnswer(relevantDocs, text, functionCalls, ack.value.at, ack.value.message, clock);
        result := ReportFailure(relevantDocs, ack.value.message, toolLines, old(audit.slot), old(audit.drawn));
      } else {
        assert functionCalls[..CallsRun(functionCalls, ack)] == functionCalls;
        AnswerToReply(relevantDocs, text, functionCalls, ack, clock);
        result := FinishReply(relevantDocs, text, createdTicket, widget, toolLines, old(audit.slot), old(audit.drawn));
      }
    }

    /** The catch block: the error is logged and the apology returned. */
    method ReportFailure(relevantDocs: seq<KnowledgeDoc>, message: string,
                         ghost lines: seq<LogLine>, ghost slot0: Slot, ghost drawn0: nat)
      returns (result: ChatResult)
      requires Logged(slot0, drawn0, lines)
      modifies audit
      ensures result == FailureResult(relevantDocs) && Logged(slot0, drawn0, lines + [FailureLine(message)])
    {
      Log(FailureLine(message));
      RecordedSnoc(slot0, audit.draws, drawn0, lines, FailureLine(message));
      var displaySources := Titles(relevantDocs);
      var attachedMedia := MediaFor(relevantDocs);
      result := ChatResult(FailureReply, displaySources, None, attachedMedia, None, false);
    }

    /**
     * The end of the try block: the clarification marker, the response line,
     * the checklist detection and the deduplicated sources.
     */
    method FinishReply(relevantDocs: seq<KnowledgeDoc>, text: string, createdTicket: Option<Ticket>, widget: Option<Widget>,
                       ghost lines: seq<LogLine>, ghost slot0: Slot, ghost drawn0: nat)
      returns (result: ChatResult)
      requires Logged(slot0, drawn0, lines)
      modifies audit
      ensures var clarified := StripClarification(text);
              result == ChatResult(clarified.text, Dedup(Titles(relevantDocs)), createdTicket, MediaFor(relevantDocs),
                                   ChecklistFor(clarified.text, widget), clarified.isClarification)
              && Logged(slot0, drawn0, lines + [ResponseLine])
    {
      var displaySources := Titles(relevantDocs);
      var attachedMedia := MediaFor(relevantDocs);
      var clarified := StripClarification(text);
      Log(ResponseLine);
      RecordedSnoc(slot0, audit.draws, drawn0, lines, ResponseLine);
      var finalWidget := ChecklistFor(clarified.text, widget);
      result := ChatResult(clarified.text, Dedup(displaySources), createdTicket, attachedMedia,
                           finalWidget, clarified.isClarification);
    }

    /** The query's scrubbing, its audit line, and the session opened when none is. */
    method OpenQuery(userQuery: string) returns (cleanText: string, redacted: bool)
      modifies this, audit
      ensures cleanText == Scrubbed(userQuery, email, phone) && redacted == AnyPassMatched(userQuery, email, phone)
      ensures Logged(old(audit.slot), old(audit.drawn), [QueryLine(redacted)])
      ensures knowledgeBase == old(knowledgeBase) && chatStore == old(chatStore) && tickets == old(tickets)
      ensures sessionOpen && (old(sessionOpen) ==> sessionHistory == old(sessionHistory))
      ensures !old(sessionOpen) ==> sessionHistory == []
    {
      cleanText, redacted := ScrubPII(userQuery, email, phone);
      Log(QueryLine(redacted));
      if !sessionOpen {
        InitChat([]);
      }
    }

    /**
     * sendMessage once the injection screen has passed: scrubbing, the
     * query audit line, the session, retrieval, the history probe and the
     * gate.
     */
    method SendScreened(userQuery: string, imageBase64: string, probe: HistoryProbe, reply: ModelReply,
                        clock: nat -> Reading)
      returns (outcome: Outcome)
      requires !DetectPromptInjection(userQuery)
      modifies this, audit
      ensures probe.ProbeFails? ==>
                outcome == Threw && tickets == old(tickets)
                && Logged(old(audit.slot), old(audit.drawn), [QueryLine(AnyPassMatched(userQuery, email, phone))])
      ensures probe.Reported? ==>
                var ex := Respond(old(knowledgeBase), userQuery, imageBase64, probe.hasHistory, reply, clock, email, phone);
                outcome == Answered(ex.result) && tickets == ex.created + old(tickets)
                && Logged(old(audit.slot), old(audit.drawn), ex.lines)
      ensures knowledgeBase == old(knowledgeBase) && chatStore == old(chatStore) && sessionOpen
      ensures old(sessionOpen) ==> sessionHistory == old(sessionHistory)
      ensures !old(sessionOpen) ==> sessionHistory == []
    {
      var cleanText, redacted := OpenQuery(userQuery);
      var relevantDocs := Retrieve(cleanText);
      match probe
      case ProbeFails =>
        outcome := Threw;
      case Reported(hasHistory) =>
        var result := Screened(userQuery, cleanText, redacted, relevantDocs, imageBase64, hasHistory, reply, clock,
                               old(audit.slot), old(audit.drawn));
        outcome := Answered(result);
    }

    /**
     * The closed-system gate, once the history probe has reported: a
     * refusal with a knowledge-gap line, or the consultation of the model.
     */
    method Screened(ghost userQuery: string, cleanText: string, redacted: bool, relevantDocs: seq<KnowledgeDoc>,
                    imageBase64: string, hasHistory: bool, reply: ModelReply, clock: nat -> Reading,
                    ghost slot0: Slot, ghost drawn0: nat)
      returns (result: ChatResult)
      requires !DetectPromptInjection(userQuery)
      requires cleanText == Scrubbed(userQuery, email, phone) && redacted == AnyPassMatched(userQuery, email, phone)
      requires relevantDocs == RetrievedFor(knowledgeBase, cleanText)
      requires Logged(slot0, drawn0, [QueryLine(redacted)])
      modifies this, audit
      ensures var ex := Respond(knowledgeBase, userQuery, imageBase64, hasHistory, reply, clock, email, phone);
              result == ex.result && tickets == ex.created + old(tickets) && Logged(slot0, drawn0, ex.lines)
      ensures knowledgeBase == old(knowledgeBase) && sessionOpen == old(sessionOpen)
      ensures sessionHistory == old(sessionHistory) && chatStore == old(chatStore)
    {
      var isMetaQuery := IsMetaQuery(cleanText);
      if |relevantDocs| == 0 && !isMetaQuery && imageBase64 == "" && !hasHistory {
        result := Refuse(userQuery, cleanText, redacted, imageBase64, hasHistory, reply, clock, slot0, drawn0);
      } else {
        result := Consult(userQuery, cleanText, redacted, relevantDocs, imageBase64, hasHistory, reply, clock, slot0, drawn0);
      }
    }

    /** The refusal for a query the knowledge base cannot ground. */
    method Refuse(ghost userQuery: string, cleanText: string, redacted: bool, imageBase64: string, hasHistory: bool,
                  ghost reply: ModelReply, ghost clock: nat -> Reading, ghost slot0: Slot, ghost drawn0: nat)
      returns (result: ChatResult)
      requires !DetectPromptInjection(userQuery)
      requires cleanText == Scrubbed(userQuery, email, phone) && redacted == AnyPassMatched(userQuery, email, phone)
      requires Refuses(RetrievedFor(knowledgeBase, cleanText), cleanText, imageBase64, hasHistory)
      requires Logged(slot0, drawn0, [QueryLine(redacted)])
      modifies audit
      ensures var ex := Respond(knowledgeBase, userQuery, imageBase64, hasHistory, reply, clock, email, phone);
              result == ex.result && ex.created == [] && Logged(slot0, drawn0, ex.lines)
    {
      Log(GapLine(cleanText));
      RecordedSnoc(slot0, audit.draws, drawn0, [QueryLine(redacted)], GapLine(cleanText));
      assert [QueryLine(redacted)] + [GapLine(cleanText)] == [QueryLine(redacted), GapLine(cleanText)];
      RespondRefusal(knowledgeBase, userQuery, imageBase64, hasHistory, reply, clock, email, phone);
      result := ChatResult(RefusalReply, [], None, None, None, false);
    }

    /** The consultation of the model for a query that passed the gate. */
    method Consult(ghost userQuery: string, cleanText: string, redacted: bool, relevantDocs: seq<KnowledgeDoc>,
                   imageBase64: string, hasHistory: bool, reply: ModelReply, clock: nat -> Reading,
                   ghost slot0: Slot, ghost drawn0: nat)
      returns (result: ChatResult)
      requires !DetectPromptInjection(userQuery)
      requires cleanText == Scrubbed(userQuery, email, phone) && redacted == AnyPassMatched(userQuery, email, phone)
      requires relevantDocs == RetrievedFor(knowledgeBase, cleanText)
      requires !Refuses(relevantDocs, cleanText, imageBase64, hasHistory)
      requires Logged(slot0, drawn0, [QueryLine(redacted)])
      modifies this, audit
      ensures var ex := Respond(knowledgeBase, userQuery, imageBase64, hasHistory, reply, clock, email, phone);
              result == ex.result && tickets == ex.created + old(tickets) && Logged(slot0, drawn0, ex.lines)
      ensures knowledgeBase == old(knowledgeBase) && sessionOpen == old(sessionOpen)
      ensures sessionHistory == old(sessionHistory) && chatStore == old(chatStore)
    {
      result := ConsultModel(relevantDocs, reply, clock);
      RecordedAppend(slot0, audit.draws, drawn0, [QueryLine(redacted)], Answer(relevantDocs, reply, clock).2);
      RespondConsults(knowledgeBase, userQuery, imageBase64, hasHistory, reply, clock, email, phone);
    }

    /**
     * The retrieval step of sendMessage: the store is searched only for a
     * query longer than two UTF-16 code units.
     */
    method Retrieve(cleanText: string) returns (relevantDocs: seq<KnowledgeDoc>)
      ensures relevantDocs == RetrievedFor(knowledgeBase, cleanText)
    {
      relevantDocs := [];
      if Utf16Length(cleanText) > 2 {
        relevantDocs := FindRelevantDocuments(knowledgeBase, cleanText);
      }
    }

    /**
     * sendMessageToGemini.  `probe` is what the session's getHistory gives,
     * `reply` the model's answer, `clock(k)` the clock while the k-th tool
     * call runs; each audit line draws from `audit.draws` in turn.
     */
    method SendMessage(userQuery: string, imageBase64: string, probe: HistoryProbe, reply: ModelReply,
                       clock: nat -> Reading)
      returns (outcome: Outcome)
      modifies this, audit
      ensures var s := Send(old(knowledgeBase), userQuery, imageBase64, probe, reply, clock, email, phone);
              outcome == s.outcome && tickets == s.created + old(tickets) && Logged(old(audit.slot), old(audit.drawn), s.lines)
      ensures knowledgeBase == old(knowledgeBase) && chatStore == old(chatStore)
      ensures (sessionOpen, sessionHistory) == SessionAfterSend(old(sessionOpen), old(sessionHistory), userQuery)
    {
      var injectionDetected := DetectPromptInjection(userQuery);
      if injectionDetected {
        Log(InjectionLine);
        return Answered(ChatResult(InjectionReply, [], None, None, None, false));
      }
      outcome := SendScreened(userQuery, imageBase64, probe, reply, clock);
    }
  }
}

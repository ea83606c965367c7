# DELOS training assistant — a Dafny model of its decision and list logic

DELOS is a closed-system training assistant. A worker asks a question in the
chat screen. The assistant screens the question (prompt-injection deny-list,
PII scrubbing, audit trail), ranks the internal knowledge base against it,
refuses when nothing internal applies, and otherwise forwards it to a language
model. The model's reply is post-processed (clarification marker, checklist
synthesis, ticket and quiz tools). A second screen maintains the knowledge
base: it filters the document list, ingests uploaded files (PDF, Word,
spreadsheets turned into Markdown tables, images, video, text), guards
against duplicate titles and pages through long documents.

The model has seven modules, one file each:

- `Types` (types.dfy): the records of types.ts: messages and their roles,
  knowledge documents, tickets, audit entries, and the widget payload as a
  tagged union (checklist, telemetry or quiz; the code builds only the
  first and the last).
- `Text` (text.dfy): the JavaScript string built-ins the code relies on:
  `toLowerCase`, `toUpperCase`, `includes`, `indexOf`, `trim`, `split`,
  `replace`, `endsWith`, `startsWith`, decimal rendering, `slice(-n)`, and
  `length` and indexing in UTF-16 code units.
- `Security` (security.dfy): the guardrail and the audit trail of
  services/securityService.ts. `AuditTrail` is a class whose fields are the
  session-storage slot and the number of logAudit calls made; the k-th call
  draws its id, timestamp, hash and write outcome as `draws(k)`.
- `Ranking` (ranking.dfy): the lexical ranker `findRelevantDocumentsLegacy`:
  tokeniser, scorer, threshold, and a stable sort.
- `Gemini` (gemini.dfy): the rest of services/geminiService.ts.
  - `Respond` states one whole `sendMessageToGemini` exchange as a function.
  - `RagEngine` is a class for the module-level state: the document store,
    the tickets, the chat session and the chat store.
  - `Send` adds the history probe, which can reject, to `Respond`.
  - `RagEngine.SendMessage` is proved equal to `Send`, every audit line
    with its own draw and every tool call with its own clock reading.
- `KnowledgeBase` (knowledgebase.dfy): components/KnowledgeBase.tsx. It holds
  - the filter effect;
  - the Excel-to-Markdown builder, with its loops;
  - file routing and `processFile`;
  - duplicate-guarded `handleAddDocument`;
  - attachment removal;
  - the paginated `DocumentViewer`.
- `Chat` (chat.dfy): components/ChatInterface.tsx. It holds
  - the session: restore or greet, send through `RagEngine.SendMessage`
    with the five-second repeat guard, error reply, retry, feedback;
  - the checklist, quiz and carousel widgets as small classes.

The language model, the file-format libraries, the clocks, the random ids
and storage writes that fail are parameters: `ModelReply` (with the
rejection of a tool acknowledgement), `HistoryProbe`, `LibraryResult`,
`Workbook`, `now`, `later`, `clock(k)` for the k-th tool call, `draws(k)` for
the k-th audit call, and `writeFails`. Each React handler is a method of a class whose
fields are the component's state, run as one sequential transition.

## Model

| member | source | states |
|---|---|---|
| Security.DetectionIgnoresCase | services/securityService.ts:37-47 | for the letters Text.Lower and Text.Upper model, the verdict on the upper-cased text equals the verdict on the text: the deny-list is matched on the lower-cased text |
| Security.DetectionMonotone | services/securityService.ts:46 | any text that contains a flagged text is flagged too |
| Security.ReplaceAllWithoutMatch | services/securityService.ts:14-16 | when the pattern matches nowhere, the global replace returns the text unchanged |
| Security.ScrubPII | services/securityService.ts:9-35 | the clean text is the e-mail, phone and 11-digit passes applied in that order; `redacted` holds iff some pass's test matched; an unredacted text comes back unchanged; no standalone run of exactly 11 digits is left |
| Security.NoIdAfterIdPass | services/securityService.ts:27-32 | after the 11-digit pass no run of exactly 11 digits bounded by non-digits remains; a sentinel never forms a new one |
| Security.IdAtMatches | services/securityService.ts:28-29 | a standalone 11-digit run makes the pass's test fire |
| Security.Prepended | services/securityService.ts:68 | the new log has the new entry first, then the old entries in order, at most 50 in all |
| Security.LogEachKeepsNewest | services/securityService.ts:66-69 | logging several entries in turn leaves the newest 50, newest first, ahead of the older log |
| Security.AuditCapKeepsNewestFifty | services/securityService.ts:68 | after 50 or more calls the log holds exactly the 50 newest entries in reverse call order |
| Security.RecordedLog | services/securityService.ts:50-76 | a sequence of logAudit calls, each with its own id, timestamp, hash and write outcome, stores the capped, newest-first list of the entries whose write went through; the slot is stored iff it was or some write went through, and is otherwise untouched |
| Security.RecordedAppend | services/securityService.ts:50-76 | logging one batch of lines and then another, the draws continuing, is logging the two batches joined |
| Security.WrittenAll | services/securityService.ts:65-73 | when every write goes through, the k-th call writes its line with the k-th draw |
| Security.RecordedNewest | services/securityService.ts:66-69 | with every write going through, the slot holds the newest 50 of the new entries and the old log, newest first, each entry with its own draw |
| Security.AuditTrail.GetAuditLog | services/securityService.ts:78-85 | returns the stored list, and the empty list when nothing is stored or the stored value is unreadable |
| Security.AuditTrail.LogAudit | services/securityService.ts:50-76 | the call takes the next draw (its own UUID, timestamp and hash); a successful write stores the new entry ahead of at most 49 earlier ones; a failed write leaves the slot as it was and is not reported to the caller |
| Security.AuditTrail.ClearAuditLog | services/securityService.ts:87-89 | the slot is empty afterwards, so the next read returns the empty list |
| Text.Utf16Length | services/geminiService.ts:32 | `length` counts UTF-16 code units: it lies between the number of characters and twice that, and equals it iff no character is beyond U+FFFF |
| Text.Units | components/KnowledgeBase.tsx:412-416 | a basic-plane character is one code unit; any other is a high and a low surrogate that decode back to it |
| Text.Utf16 | components/KnowledgeBase.tsx:412-416 | the code units of a string number exactly its JavaScript length |
| Ranking.KeepTokens | services/geminiService.ts:32 | every kept token is longer than two UTF-16 code units, is not a stop word and comes from the input; every such input word is kept |
| Ranking.TokenShape | services/geminiService.ts:32 | a token is made of lower-cased query characters that are neither white space nor the stripped punctuation |
| Ranking.WordIsToken | services/geminiService.ts:32 | every long enough non-stop word of the cleaned query is a token |
| Ranking.TokenPointsValues | services/geminiService.ts:43-51 | a token is worth 8 when it is in the title, 3 when it is only in the body, and 0 otherwise (the +2 test at line 49 repeats the one at line 44) |
| Ranking.TokensScoreShape | services/geminiService.ts:43-51 | the token points sum to 0 or to at least 3, and to 0 exactly when no token is in title or body |
| Ranking.ScoreThreshold | services/geminiService.ts:36-56 | a score is 0 or at least 3, so score above 1 is score above 0; it holds iff the category contains the query or some token is found |
| Ranking.ScoreDocument | services/geminiService.ts:36-53 | the `forEach` loop computes the category boost plus the token points |
| Ranking.Relevant | services/geminiService.ts:56 | exactly the scored documents with a score above 1 are kept |
| Ranking.RelevantKeepsOrder | services/geminiService.ts:56 | the threshold filter keeps store order |
| Ranking.SortByScore | services/geminiService.ts:56 | the sort returns a permutation of its input |
| Ranking.SortByScoreRanked | services/geminiService.ts:56 | the result is ordered by descending score, with store order kept on ties (stable sort) |
| Ranking.FindRelevantDocuments | services/geminiService.ts:30-57 | the method returns the documents of the ranked list |
| Ranking.RankedItemsSpec | services/geminiService.ts:30-57 | no tokens gives the empty result; the result holds exactly the store's documents scoring above 1, ranked |
| Ranking.RankedItemsDistinct | services/geminiService.ts:56 | no store position appears twice, so the result is a duplicate-free selection of the store |
| Gemini.NonSystemMembers | services/geminiService.ts:65 | a message survives the filter iff it is in the history and is not a SYSTEM message |
| Gemini.FirstUser | services/geminiService.ts:66 | the index is -1 iff there is no USER message, and otherwise the first USER message |
| Gemini.ModelHistoryShape | services/geminiService.ts:61-74 | the converted history is empty iff there is no USER message, and otherwise starts with a user turn |
| Gemini.ModelHistoryTurns | services/geminiService.ts:64-74 | each turn comes from a non-SYSTEM message of the history; USER maps to user, every other role to model |
| Gemini.ModelHistoryExtends | services/geminiService.ts:64-74 | once a USER message exists, appending a message appends its turn, or nothing for a SYSTEM message |
| Gemini.Dedup | services/geminiService.ts:292 | the sources keep every title, once each |
| Gemini.DedupDistinct | services/geminiService.ts:292 | de-duplicating a list without repeats returns it unchanged |
| Gemini.FirstIndex | services/geminiService.ts:292 | the position of the first occurrence, or the length when there is none |
| Gemini.DedupKeepsFirstOrder | services/geminiService.ts:292 | the de-duplicated sources come in the order of their first occurrences, as a `Set` iterates |
| Gemini.MediaFor | services/geminiService.ts:176-183 | there is no media iff no retrieved document has any; otherwise it is the first such document's images then its primary media, with its type or image |
| Gemini.TicketIdShape | services/geminiService.ts:220 | a ticket id is "REQ-" and at most six digits, exactly six once the clock is past 100000 ms |
| Gemini.QuizWidgetShape | services/geminiService.ts:240-257 | the quiz has options a, b and c, and only option a is correct |
| Gemini.DispatchLogsEachCall | services/geminiService.ts:213-215 | the tool loop logs one audit line per call, in call order |
| Gemini.DispatchCountsTickets | services/geminiService.ts:217-228 | one ticket is created per create_ticket call |
| Gemini.DispatchCreatesTickets | services/geminiService.ts:217-228 | every created ticket is OPEN and made by one create_ticket call: the REQ id and the ISO timestamp come from that call's own clock readings, the location is the call's or "System" when it has none, description and priority are copied |
| Gemini.DispatchReportsLastTicket | services/geminiService.ts:217-228 | a ticket is reported iff some call created one, and the reported one is the newest |
| Gemini.DispatchWidgetIsQuiz | services/geminiService.ts:240-257 | a widget from the tool loop is a quiz, and only a generate_quiz call produces one |
| Gemini.StripClarification | services/geminiService.ts:273-278 | `isClarification` holds iff the reply contains the marker; otherwise the text is unchanged |
| Gemini.SecondMarkerSurvives | services/geminiService.ts:277 | only the first marker is removed: a later one stays in the text |
| Gemini.StepsKeepLineOrder | services/geminiService.ts:286 | the checklist steps of two joined texts are the steps of each, in line order |
| Gemini.StepsOfLines | services/geminiService.ts:286 | a step comes from a line whose trimmed form is digits then a dot, with the number removed |
| Gemini.IndentedStepKeepsNumber | services/geminiService.ts:286 | a line indented before its number keeps the number, because the number is stripped before the trim |
| Gemini.ChecklistFor | services/geminiService.ts:285-288 | a tool widget wins; otherwise a checklist appears iff the trigger holds and there are at least two steps, and it lists those steps |
| Gemini.InjectionRefusedFirst | services/geminiService.ts:121-128 | a flagged query gets the fixed refusal with no sources, one audit line and no tickets, and the store and the model are not consulted |
| Gemini.ClosedSystemGate | services/geminiService.ts:130-163 | the model is not asked iff no document is retrieved, the text is no meta query, there is no image and no history; then the refusal says nothing more and the gap is logged |
| Gemini.ShortQuerySkipsRetrieval | services/geminiService.ts:144-147 | a cleaned query of at most two UTF-16 code units has no sources and no media |
| Gemini.RetrievedAreRelevant | services/geminiService.ts:145-147 | every retrieved document is in the store and scores above 1 |
| Gemini.RepliedSources | services/geminiService.ts:166-167 | a reply whose tool acknowledgements go through has the retrieved titles, de-duplicated, as its sources |
| Gemini.AnsweredSources | services/geminiService.ts:166-173 | a source is a title of a retrieved document, no source repeats, and every retrieved document is relevant |
| Gemini.FailedReply | services/geminiService.ts:299-307 | a model call that throws gives the apology with the retrieved titles as they are, no ticket, no widget, and the query line then the API-error line |
| Gemini.AckRejectedReply | services/geminiService.ts:211-307 | a rejected tool acknowledgement ends the loop after its call and gives the apology with the titles as retrieved; the tickets created so far stay in the list, that call's own ticket included, its tool lines stay logged, and the API-error line replaces the response line |
| Gemini.AnswerToReply | services/geminiService.ts:211-297 | when every acknowledgement goes through, all calls run and the answer is the clarified text, the de-duplicated titles, the newest ticket, the media and the widget, then the response line |
| Gemini.RespondRefusal | services/geminiService.ts:156-163 | the refusal exchange in full: fixed text, nothing else, query line then gap line |
| Gemini.RespondConsults | services/geminiService.ts:185-307 | without a refusal the exchange is the model's answer after the query audit line: a reply, a failure, or a reply whose acknowledgement threw |
| Gemini.SendOutcomes | services/geminiService.ts:118-154 | the call throws exactly when the history probe rejects after the injection screen, having logged only the query line; otherwise it answers as Respond; the first audit line is the injection or the query line |
| Gemini.WithoutId | services/geminiService.ts:313 | removal keeps exactly the documents with another id |
| Gemini.WithoutAbsentId | services/geminiService.ts:313 | removing an id no document has changes nothing |
| Gemini.AddThenRemove | services/geminiService.ts:312-313 | adding a document with a fresh id and then removing that id restores the store |
| Gemini.RagEngine.InitChat | services/geminiService.ts:61-74 | opens a session whose history is the converted message list |
| Gemini.RagEngine.AddDocument | services/geminiService.ts:312 | the document goes to the head of the store; nothing else changes |
| Gemini.RagEngine.RemoveDocument | services/geminiService.ts:313 | the store loses exactly the documents with that id |
| Gemini.RagEngine.ClearChatHistory | services/geminiService.ts:315 | the session is closed and the stored chat is removed; the store, the tickets and the held history are kept |
| Gemini.RagEngine.SaveChatHistory | services/geminiService.ts:316 | the chat store holds the messages, or is unchanged when the write fails |
| Gemini.RagEngine.LoadChatHistory | services/geminiService.ts:317 | returns the saved messages, or the empty list when there are none |
| Gemini.RagEngine.SubmitMessageFeedback | services/geminiService.ts:354-356 | logs one USER_FEEDBACK line naming the message and the verdict, with the next draw |
| Gemini.RagEngine.RunTool | services/geminiService.ts:211-269 | one tool call moves the loop state, the ticket list and the audit trail from the calls before it to the calls up to it, each call with its own clock reading and draw; it reports a rejection exactly when that call's acknowledgement rejects |
| Gemini.RagEngine.RunTicket | services/geminiService.ts:214-229 | a create_ticket call logs its line with the next draw, unshifts a ticket made with its own clock readings, and reports it |
| Gemini.RagEngine.RunQuiz | services/geminiService.ts:214-257 | a generate_quiz call logs its line with the next draw and sets the quiz built from the topic and the retrieved documents |
| Gemini.RagEngine.DispatchTools | services/geminiService.ts:211-269 | the loop runs the calls up to the first rejected acknowledgement, or all of them; its ticket, widget, prepended tickets and audit lines are those of Dispatch over the calls that ran |
| Gemini.RagEngine.ConsultModel | services/geminiService.ts:185-307 | the result, the new tickets and the audit lines of the model's answer, failure or rejected acknowledgement |
| Gemini.RagEngine.ConsultReply | services/geminiService.ts:209-297 | a reply: the tool loop, then the catch on a rejected acknowledgement or the response line and the result |
| Gemini.RagEngine.ReportFailure | services/geminiService.ts:299-307 | the catch block: the API-error line and the apology with the titles as retrieved |
| Gemini.RagEngine.FinishReply | services/geminiService.ts:271-297 | the clarification marker, the response line, the checklist detection and the de-duplicated sources |
| Gemini.RagEngine.Screened | services/geminiService.ts:150-163 | after the history probe has reported, the gate and what follows give what Respond gives |
| Gemini.RagEngine.Refuse | services/geminiService.ts:156-163 | the refusal: the fixed text, nothing else, and the gap line after the query line |
| Gemini.RagEngine.Consult | services/geminiService.ts:165-307 | the consultation of the model after the query line equals Respond's consulting branch |
| Gemini.RagEngine.OpenQuery | services/geminiService.ts:130-137 | the query is scrubbed, its audit line logged, and a session opened with no history when none is open |
| Gemini.RagEngine.SendScreened | services/geminiService.ts:130-163 | past the injection screen: a rejected history probe throws after the query line; otherwise the result, tickets and audit lines are those of Respond |
| Gemini.RagEngine.Retrieve | services/geminiService.ts:144-147 | the store is searched only for a query longer than two UTF-16 code units |
| Gemini.RagEngine.SendMessage | services/geminiService.ts:118-308 | outcome, tickets and audit trail are those of `Send`, every log line and tool call with its own draw and clock reading; the store and chat store are untouched; a session is opened unless the query was flagged |
| KnowledgeBase.StrLessIrreflexive | components/KnowledgeBase.tsx:77-82 | no date string precedes itself |
| KnowledgeBase.StrLessTotal | components/KnowledgeBase.tsx:77-82 | of two different strings one precedes the other |
| KnowledgeBase.StrLessTransitive | components/KnowledgeBase.tsx:77-82 | string order is transitive, so the date comparisons are a strict total order |
| KnowledgeBase.VisibleIsOneFilter | components/KnowledgeBase.tsx:64-84 | the four successive filters are one filter by every criterion that is set |
| KnowledgeBase.VisibleIsSubsequence | components/KnowledgeBase.tsx:64-84 | the filtered list is an order-preserving subsequence of the documents |
| KnowledgeBase.VisibleMembers | components/KnowledgeBase.tsx:64-84 | a document is listed iff it is stored and meets every active criterion (query in title, content or id; category; date range) |
| KnowledgeBase.ResetListsEverything | components/KnowledgeBase.tsx:86-91 | with the reset filters every document is listed |
| KnowledgeBase.InvertedRangeListsNothing | components/KnowledgeBase.tsx:77-82 | an end date before the start date lists nothing |
| KnowledgeBase.ActiveFiltersCount | components/KnowledgeBase.tsx:93 | the count is at most 4, and 0 exactly in the reset state |
| KnowledgeBase.MaxCols | components/KnowledgeBase.tsx:183-186 | the width bounds every row and is reached by one, 0 for no rows |
| KnowledgeBase.ColumnCount | components/KnowledgeBase.tsx:183-186 | the `forEach` loop finds that width |
| KnowledgeBase.DataRowsToMarkdown | components/KnowledgeBase.tsx:200-209 | the data loop emits one line per non-empty row after the header, in order |
| KnowledgeBase.SheetToMarkdown | components/KnowledgeBase.tsx:173-212 | one sheet's heading, then the header, separator and data lines when some row has cells |
| KnowledgeBase.SheetsToMarkdown | components/KnowledgeBase.tsx:173-213 | the sheets' text joined in sheet order |
| KnowledgeBase.SpreadsheetText | components/KnowledgeBase.tsx:165-242 | the file heading, the sheets and the chart warning; the images come only from an .xlsx file |
| KnowledgeBase.TableLineColumns | components/KnowledgeBase.tsx:191-193 | a line of pipe-free cells has one more pipe than cells |
| KnowledgeBase.CellsAreClean | components/KnowledgeBase.tsx:192-206 | header and data cells hold no pipe, and data cells no line break, once escaped |
| KnowledgeBase.TableLinesHaveMaxColsColumns | components/KnowledgeBase.tsx:188-209 | header, separator and every data line have exactly maxCols cells |
| KnowledgeBase.DataLineCount | components/KnowledgeBase.tsx:201-209 | there is one data line per row of non-zero length: empty rows are skipped |
| KnowledgeBase.MswordTakesDocxBranch | components/KnowledgeBase.tsx:275-282 | an `application/msword` file is routed to the DOCX reader, whatever its name |
| KnowledgeBase.LegacyDocOnlyByName | components/KnowledgeBase.tsx:272-283 | the legacy .doc reader is reached iff the name ends in .doc and no earlier branch applies |
| KnowledgeBase.Extract | components/KnowledgeBase.tsx:266-320 | the routed branch's text, images, media and error, or the error it throws |
| KnowledgeBase.ReadErrorIsUnknownFormat | components/KnowledgeBase.tsx:309-319 | only the text reader sets the error flag without throwing, and then with the unknown-format text |
| KnowledgeBase.UploadWithoutErrorHasText | components/KnowledgeBase.tsx:321-332 | an upload without the error flag has content that is not blank |
| KnowledgeBase.BlankExtractionIsError | components/KnowledgeBase.tsx:322-325 | a blank extraction sets the error flag and the empty-file text |
| KnowledgeBase.LargeVideoRefused | components/KnowledgeBase.tsx:298-299 | a video over 25 MB is an error, with no media kept |
| KnowledgeBase.SpreadsheetUploadIsMarkdown | components/KnowledgeBase.tsx:283-287 | a readable spreadsheet uploads as its Markdown text without error |
| KnowledgeBase.AddingFreshTitleKeepsDistinct | components/KnowledgeBase.tsx:377-391 | storing a trimmed title that no document has, up to trim and case, keeps titles distinct |
| KnowledgeBase.KnowledgeBaseView.ResetFilters | components/KnowledgeBase.tsx:86-91 | all four filters are cleared, no filter is counted and every document is listed; the form and the stored list are kept |
| KnowledgeBase.KnowledgeBaseView.HandleTitleChange | components/KnowledgeBase.tsx:95-98 | the title takes the value and the duplicate warning goes away; every other form field, the filters and the list are kept |
| KnowledgeBase.KnowledgeBaseView.ProcessFile | components/KnowledgeBase.tsx:245-337 | the form holds the upload's title, content, images, error and duplicate flags, media and file name; the category, the open flag, the filters and the list are kept |
| KnowledgeBase.KnowledgeBaseView.BeginUpload | components/KnowledgeBase.tsx:246-260 | the title is the name before its first dot, and the duplicate flag is a case-insensitive title match; the file name is set, the error, media and images cleared, and the content, category and open flag kept |
| KnowledgeBase.KnowledgeBaseView.SettleUpload | components/KnowledgeBase.tsx:321-332 | a thrown error, an empty text or the extracted text ends up in the form, with the media; the file name, category and open flag are kept |
| KnowledgeBase.KnowledgeBaseView.RemoveAttachedImage | components/KnowledgeBase.tsx:352 | exactly the image at the index is removed; every other form field, the filters and the list are kept |
| KnowledgeBase.KnowledgeBaseView.HandleAddDocument | components/KnowledgeBase.tsx:375-396 | an empty title or content or an extraction error changes nothing; a taken title changes only the duplicate flag; otherwise the new document heads the store, every form field is emptied and the form closed (the category kept), distinct titles stay distinct, and the filters, tickets, chat store and session are kept |
| KnowledgeBase.KnowledgeBaseView.HandleDeleteDocument | components/KnowledgeBase.tsx:398-402 | the store loses the documents with that id and the list is refreshed; the form, the filters, tickets, chat store and session are kept |
| KnowledgeBase.DocId | components/KnowledgeBase.tsx:382 | the id is "doc-" and at most four digits that end the clock's decimal, exactly four once the clock reaches 1000 |
| KnowledgeBase.NewDocument | components/KnowledgeBase.tsx:381-390 | the id is DocId of the clock, the title is trimmed, content, category, media and images are copied, the date is the ISO date part |
| KnowledgeBase.RemoveIndex | components/KnowledgeBase.tsx:352 | the element at a valid index is removed and the rest keep their order; any other index changes nothing |
| KnowledgeBase.TotalPages | components/KnowledgeBase.tsx:412 | the page count is the least number of 3000-unit pages that hold the length |
| KnowledgeBase.PageSlice | components/KnowledgeBase.tsx:415-416 | a page holds at most 3000 UTF-16 code units |
| KnowledgeBase.PagesCoverContent | components/KnowledgeBase.tsx:411-416 | the pages from the first to the last concatenate to the content's code units |
| KnowledgeBase.PagesAreFilled | components/KnowledgeBase.tsx:411-416 | a page is non-empty iff it is at most the page count |
| KnowledgeBase.PageButtonsStayInRange | components/KnowledgeBase.tsx:465-475 | PREV and NEXT keep the page between 1 and the last page, and undo each other away from the ends |
| KnowledgeBase.DocumentViewer.constructor | components/KnowledgeBase.tsx:410 | the viewer opens on page 1 |
| KnowledgeBase.DocumentViewer.Prev | components/KnowledgeBase.tsx:465 | PREV moves to the previous page, never below 1 |
| KnowledgeBase.DocumentViewer.Next | components/KnowledgeBase.tsx:475 | NEXT moves to the next page, never past the last |
| Chat.ImagePayloadAfterHeader | components/ChatInterface.tsx:389 | a data URL hands over the part after its first comma |
| Chat.SendExtendsList | components/ChatInterface.tsx:363-421 | a send keeps the list, adds the user's message unless it repeats a recent one, and ends with the answer or the error |
| Chat.ErrorShownOnlyOnFailure | components/ChatInterface.tsx:392-417 | the last message is an error exactly when the call threw |
| Chat.AnsweredListIsStored | components/ChatInterface.tsx:404-406 | after an answer the stored chat is the list on screen |
| Chat.ErrorIsNotStored | components/ChatInterface.tsx:408-417 | after a failure the stored chat lacks the error message on screen |
| Chat.ReplyIdDiffersFromTurnId | components/ChatInterface.tsx:371-393 | the reply's id differs from the user message's id |
| Chat.LastUser | components/ChatInterface.tsx:350 | finds a USER message iff there is one |
| Chat.WithoutErrors | components/ChatInterface.tsx:353 | keeps exactly the messages that are not errors |
| Chat.RetryClearsOldErrors | components/ChatInterface.tsx:349-357 | after a retry no message but the last is an error |
| Chat.FeedbackTouchesOnlyItsMessage | components/ChatInterface.tsx:424 | only the message with the id changes, and only its feedback field |
| Chat.FeedbackLastWins | components/ChatInterface.tsx:423-427 | a second verdict on a message replaces the first |
| Chat.ChatSession.Initialize | components/ChatInterface.tsx:322-336 | a saved non-empty chat is restored and converted for the model; otherwise the welcome message and an empty history |
| Chat.ChatSession.HandleSendMessageInternal | components/ChatInterface.tsx:363-421 | nothing happens for a blank text without an image; otherwise the query and the image payload go to the assistant's SendMessage, and the list, store, tickets, audit trail and session are those of that send |
| Chat.ChatSession.SendTurn | components/ChatInterface.tsx:366-421 | past the blank guard: the cleared input and image, the assistant called with the text and payload, and the list, store, tickets, audit lines and session that send leaves |
| Chat.SendSteps | components/ChatInterface.tsx:369-421 | storing the user's turn and then the answered list gives the store and list of a send |
| Chat.ChatSession.RecordTurn | components/ChatInterface.tsx:366-381 | the user's turn is appended and saved unless it repeats a message of the last five seconds |
| Chat.ChatSession.ReceiveReply | components/ChatInterface.tsx:388-420 | the answer is appended and saved, or the error appended and not saved |
| Chat.ChatSession.HandleSendMessage | components/ChatInterface.tsx:359-361 | a blank input without an image changes nothing at all; otherwise the input and the selected image are sent as by HandleSendMessageInternal: the list, store, tickets, audit trail and session after that send, both fields cleared and the thinking flag down |
| Chat.ChatSession.HandleRetry | components/ChatInterface.tsx:349-357 | without a USER message nothing changes; otherwise the errors are removed and the last USER message is sent again on that list: the list, store, tickets, audit trail and session after that send, the input and image cleared; a blank last message only loses the errors |
| Chat.ChatSession.HandleFeedback | components/ChatInterface.tsx:423-427 | marks the message and logs the feedback line with the next draw; input, image and the thinking flag are kept |
| Chat.CountCheckedFlip | components/ChatInterface.tsx:20-25 | one toggle changes the checked count by exactly one |
| Chat.CountCheckedAll | components/ChatInterface.tsx:19 | a fresh checklist has nothing checked |
| Chat.ProgressPercent | components/ChatInterface.tsx:25 | progress exists iff the checklist has steps |
| Chat.ProgressBounds | components/ChatInterface.tsx:25 | progress lies in 0..100, 0 with nothing checked and 100 with everything checked |
| Chat.ProgressIsNearest | components/ChatInterface.tsx:25 | progress is 100·checked/steps rounded to the nearest integer, halves up |
| Chat.ProgressMonotone | components/ChatInterface.tsx:25 | checking one more item never lowers the progress |
| Chat.ChecklistWidget.constructor | components/ChatInterface.tsx:18-19 | a checklist starts with nothing checked |
| Chat.ChecklistWidget.Toggle | components/ChatInterface.tsx:20-24 | exactly the index is flipped, and the count moves by one |
| Chat.ToggleTwiceRestores | components/ChatInterface.tsx:20-24 | toggling the same item twice restores the state |
| Chat.FindOption | components/ChatInterface.tsx:61 | finds an option iff one has the id, and then the first one |
| Chat.ChoiceIsSelectedFlag | components/ChatInterface.tsx:61 | the verdict is the `isCorrect` flag of the selected option, and false with no choice |
| Chat.GeneratedQuizAnswer | components/ChatInterface.tsx:61 | on the generated quiz, a choice is correct iff it is option a |
| Chat.QuizWidget.Select | components/ChatInterface.tsx:52-55 | a choice is taken only before submission |
| Chat.QuizWidget.Submit | components/ChatInterface.tsx:57-59 | submission freezes the choice and the verdict |
| Chat.SlidesWrapAround | components/ChatInterface.tsx:157-164 | next and prev stay in range, undo each other, and wrap at both ends |
| Chat.MediaCarousel.NextSlideClick | components/ChatInterface.tsx:157-160 | advances the slide, wrapping at the end |
| Chat.MediaCarousel.PrevSlideClick | components/ChatInterface.tsx:161-164 | goes back a slide, wrapping at the start |

## Left out

- The language model and its SDK (`ai.chats.create`, `sendMessage`, `getHistory`, `generateContent`, speech, `analyzeMediaContent`) are foreign network calls. The model's reply is the parameter `ModelReply`: its text and function calls, or the error it throws, and the first tool acknowledgement that throws. What the acknowledgements return is not used by the code and is not modelled.
- Gemini.RagEngine.SendMessage: the session's history is what `getHistory` reports (`HistoryProbe`), not derived from the turns sent earlier; `initChat` is taken not to throw, so the "Chat session init failed" throw at services/geminiService.ts:187 is never reached.
- The file-format libraries and browser readers (pdf.js, mammoth, XLSX, JSZip, FileReader, `URL.createObjectURL`) are foreign code. Their output is `LibraryResult` for text readers and `Workbook` for a spreadsheet; a workbook's rows are optional strings. The archive's filter on image extensions, and `String()` of cells that are not strings, are part of that input.
- Browser storage and JSON are the `Slot` field of `AuditTrail` and the `ChatStore` field of `RagEngine`. Serialisation is not modelled, and an unreadable value is a slot state of its own.
- Clocks, `crypto.randomUUID` and the `Math.random` hash are parameters (`now`, `later`, `clock`, `draws`, `isoNow`); nothing is assumed about how their values relate. Upload progress, status messages and timers are display state and are not modelled.
- KnowledgeBase.Attempted: the `Threw` arms of the image, video and plain-text branches follow the code but cannot arise, because `analyzeMediaContent` catches its own errors and a FileReader promise never rejects. A FileReader that fails leaves the upload pending for ever; that hang is not modelled.
- KnowledgeBase.DocumentViewer: the page shown is a sequence of UTF-16 code units; rendering it back to text, with a surrogate pair split at a page boundary, is not modelled.
- Security.ScrubPII: the e-mail and phone regular expressions, with their look-arounds, are abstract `Matcher` parameters. Only the 11-digit rule is concrete.
- StrLess: compares code points, where JavaScript's `<` compares UTF-16 code units; the two orders differ only between a character above U+FFFF and one in U+E000 to U+FFFF, which the ASCII date strings it orders never contain.
- Text.Lower: `toLowerCase` and `toUpperCase` are modelled for ASCII and the Polish letters only; Security.DetectionIgnoresCase holds for those letters, not for letters such as a dotless i that JavaScript upper-cases to ASCII.
- Chat.ProgressPercent: `Math.round((checked / length) * 100)` is floating-point. The model uses exact rational rounding, halves up. The two can differ where the binary product falls just below a half, for example 29 checked of 200.
- React scheduling: every handler is one sequential transition in which a later state read sees the earlier updates. As written, `handleRetry` queues its filter (components/ChatInterface.tsx:353) and then sends with the list from before the filter. `handleSendMessageInternal` then sets the list to `[...messages, userMsg]` when the text is no recent repeat, and to `[...newHistory, botMsg]` when the model answers, both built from that unfiltered list. Those updates replace the queued filter, so in the browser the old error message stays on screen and in storage; only a repeated text whose send throws sees the filter. Chat.RetryClearsOldErrors and KnowledgeBase.UploadWithoutErrorHasText hold for the sequential model, not for that scheduling. Likewise, the blank-text check in `processFile` reads `extractionError` from before the upload. Neither stale-closure effect is modelled.
- The `handleReset` remount, scrolling, speech recognition, audio playback, copying, quick prompts and manual image attachment are display or browser glue, and are not part of this model.
- `cosineSimilarity`, the embeddings cache, `decodeBase64` and `generateVoiceAudio` are left out. They are unused, or floating-point, or a pre-step of a foreign call.
- Where the code and its design description differ, the model follows the code:
  - each matched token also scores +2 unconditionally;
  - the category boost tests whether the category contains the query, not the reverse;
  - the repeat guard matches any message with the same text from the last five seconds, not only a re-submitted user turn.

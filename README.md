# Live-quiz session engine

A Dafny model of the session engine of a small live classroom quiz server.
A teacher loads a quiz over HTTP. Students join over WebSockets and answer the
open question. The teacher locks the question, moves to the next one or ends
the session. All of this runs over one in-memory store:

- `state`: waiting, question, locked or ended;
- `quiz`: the loaded quiz, or none;
- `currentIndex`: the cursor, -1 while no question has been shown;
- `participants`: an insertion-ordered map from participant id to name, connection and connect time;
- `answers`: the ledger of the current question, from participant id to answer index and time.

Files:

- `wrappers.dfy`: `Option`.
- `js.dfy`: the JavaScript the engine relies on. It covers values as `JSON.parse` yields them, property access (a missing property is `None`), `typeof … === "object"`, `Number.isInteger` and `String.prototype.trim` with ECMAScript's exact set of whitespace characters.
- `quiz_format.dfy`: `validateQuiz`, as a loop that stops at the first offending question. It is proved against a declarative statement of a well-formed quiz. The file also holds the typed quiz the engine keeps.
- `persistence.dfy`: the store as a value, the session invariant `Inv`, and `createStore`.
- `business.dfy`: every handler as a function from the store before an event to the store after it plus the messages sent (`Effect`). Each function's contract states the handler's cases and that `Inv` is preserved.
- `properties.dfy`: properties that span several events. These are the walk through a quiz by repeated `next_question`, one answer per participant per question, the teacher-token guard, and ending a session that never had a quiz.
- `engine.dfy`: the class `SessionStore`, whose fields the handlers update in place, as business.js does. Each handler method is proved to leave exactly the store and send exactly the messages the matching `Business` function describes, and to keep `Valid()`. `broadcast` and `detachParticipant` keep their loops (the latter with its `break`). `StartSession` mirrors the quiz-loading route: Bearer check, then `validateQuiz`, then `resetSession`.

How the outside world is represented:

- A WebSocket is a `ConnId`. `ws.readyState === ws.OPEN` is membership in a set `open` passed to each operation.
- A send is a `Delivery(to, msg)`. The messages a handler sends are returned in order.
- The clock (`nowIso`) is an opaque `now: Timestamp` parameter.
- The id generator (`makeParticipantId`) is a `newId` parameter.

Three behaviours of the code are worth knowing, because one might expect otherwise:

- "No quiz means waiting and cursor -1" is not an invariant of the code. `handleEndSession` (business.js:168-175) does not check for a quiz, so ending a session before any quiz is loaded leaves no quiz with state ended. `Inv` states "no quiz means cursor -1 and state waiting or ended", and `Properties.EndWithoutQuiz` exhibits the case.
- A quiz of n questions does not end after n advances. The n-th advance shows the last question, and the (n+1)-th ends the session (business.js:155-160). `Properties.AdvanceFromReset` states this.
- The id generator is not assumed to be fresh. The code calls `Map.set`, which overwrites an entry with the same id where it stands. `Business.Join` models that case too, and its contract states the growth by one for a fresh id.

## Model

| member | source | states |
|---|---|---|
| Js.TrimStartSpec | business.js:33 | what `trimStart` drops: the result is a suffix of the input, everything dropped is whitespace, and the result does not start with whitespace |
| Js.TrimEndSpec | business.js:33 | the mirror image for trailing whitespace: a prefix is kept and does not end with whitespace |
| Js.TrimSpec | business.js:67 | `trim` yields "" exactly when every character is whitespace; a non-empty result neither starts nor ends with whitespace and is no longer than the input |
| QuizFormat.Decimal | business.js:32 | the index in an error message is written as its canonical decimal digits: a non-empty string of digits that spell the index, and never starting with "0" unless it is exactly "0" |
| QuizFormat.Message | business.js:26-40 | the message of each error: exactly the question-level errors begin with "Question " |
| QuizFormat.MessageInjective | business.js:26-40 | different errors give different messages, so a message names its check and, for a question, its index |
| QuizFormat.CheckQuestion | business.js:31-41 | the per-question checks, in the order business.js applies them: none fails exactly when the question is well formed; a failure names the question's index; not-an-object, blank text and too few options are each reported exactly when they are the first failing check |
| QuizFormat.ValidateQuiz | business.js:25-44 | returns no error exactly when the quiz is an object with a non-empty `questions` array of objects, each with non-blank string text and at least two options that are all non-blank strings; the quiz-level errors come exactly when their check fails; a question-level error names an index inside the array, every earlier question is well formed, and the error is that question's first failing check |
| QuizFormat.ToQuiz | frontend.js:10-14 | the validated quiz the store keeps has the same number of questions and question by question the same text and options, and satisfies the typed validity predicate |
| QuizFormat.ToQuestion | business.js:58-62 | a well-formed question's text and options are kept unchanged, not trimmed, and satisfy the typed validity predicate |
| Persistence.NameInjective | persistence.js:6 | the wire names "waiting", "question", "locked" and "ended", which every `state` field of an outbound message carries, are pairwise distinct, so each names exactly one state |
| Persistence.CreateStore | persistence.js:4-12 | the initial store is waiting, has no quiz, cursor -1 and empty registry and ledger; no quiz implies waiting and -1; it satisfies the session invariant |
| Business.SafeSend | business.js:11-15 | exactly one delivery of the payload to the connection when it is open, none otherwise |
| Business.Fanout | business.js:17-23 | a broadcast sends at most one message per registry entry, only the payload, only to open connections, never to the excluded one |
| Business.FanoutAppend | business.js:18 | the broadcast follows registry order: over two stretches of the registry, the first stretch's deliveries come first |
| Business.FanoutReaches | business.js:17-23 | a connection receives the broadcast exactly when some registered participant is bound to it, it is open and it is not excluded |
| Business.Broadcast | business.js:17-23 | `broadcast(store, payload)` with no excluded connection: at most one delivery per registry entry, each of the payload to an open connection, and a connection is reached exactly when it is open and some registered participant is bound to it |
| Business.CurrentQuestion | business.js:53-64 | a question is returned exactly when a quiz is loaded and the cursor is in bounds; it carries the cursor, the text and the options; while a question is open or locked one always exists |
| Business.Reset | business.js:46-51 | waiting, the new quiz, cursor -1, an empty ledger; registry unchanged; invariant preserved; no current question |
| Business.JoinNameSpec | business.js:67-71 | a join name is rejected exactly when it is missing, not a string, or all whitespace; a kept name has no surrounding whitespace |
| Business.Join | business.js:66-93 | preserves the invariant and touches only the registry; a blank name changes nothing and answers "Name is required."; a known id keeps its entry, position, name and the registry's size and gets only the new connection and time; any other request stores the new id, at the end of the registry and growing it by one when the id is new; the reply carries the id, the state and the current question |
| Business.Submit | business.js:95-122 | preserves the invariant and touches only the ledger; when state is question, the id is registered, it has not answered, a question is current and the index is an integer within its options, exactly that one entry is added and "answer_accepted" is sent; otherwise the store is unchanged and exactly one error goes to the sender when its connection is open: "Question is not open." outside question state, "Invalid participant." for a missing, empty or unknown id, "Answer already submitted." for a repeat, "Invalid answer index." when only the index fails; "No active question." is never sent |
| Business.Lock | business.js:128-139 | without the token nothing changes; outside question state nothing changes; otherwise only the state becomes locked and it is broadcast |
| Business.Advance | business.js:141-166 | without the token, without a quiz or once ended nothing changes, with the matching error; past the last question the state becomes ended with cursor and ledger kept; otherwise the cursor moves by one to a question, the state is question, the ledger is emptied, and the question is broadcast |
| Business.End | business.js:168-175 | without the token nothing changes; otherwise only the state becomes ended, from any state, and it is broadcast |
| Business.FirstBound | business.js:178-179 | the position in registry order of the first participant bound to the connection, or none when no participant is |
| Business.Detach | business.js:177-184 | only the registry changes, with the same ids and size; names and times are kept; at most one entry changes, one that was bound to the connection, and it loses its connection; it is the first such entry in registry order; nothing changes when none is bound |
| Engine.SessionStore.constructor | persistence.js:4-12 | the new store equals `CreateStore()` and is valid |
| Engine.SessionStore.ResetSession | business.js:46-51 | the store after the in-place reset equals `Reset` of the store before, and stays valid |
| Engine.SessionStore.Broadcast | business.js:17-23 | the loop over the registry sends exactly the deliveries `Fanout` describes |
| Engine.SessionStore.HandleJoin | business.js:66-93 | the store after and the messages sent are those of `Join`; the store stays valid |
| Engine.SessionStore.HandleSubmitAnswer | business.js:95-122 | the store after and the messages sent are those of `Submit`; the store stays valid |
| Engine.SessionStore.HandleLockQuestion | business.js:128-139 | the store after and the messages sent are those of `Lock`; the store stays valid |
| Engine.SessionStore.HandleNextQuestion | business.js:141-166 | the store after and the messages sent are those of `Advance`; the store stays valid |
| Engine.SessionStore.HandleEndSession | business.js:168-175 | the store after and the messages sent are those of `End`; the store stays valid |
| Engine.SessionStore.DetachParticipant | business.js:177-184 | the loop with its early exit leaves exactly the store `Detach` describes; the store stays valid |
| Engine.SessionStore.StartSession | frontend.js:4-21 | refused exactly when the header is not the Bearer token; started exactly when authorized and the body is a well-formed quiz, in which case the store is reset to it and the reply is waiting with the quiz's question count; any other outcome leaves the store unchanged |
| Properties.Advances | business.js:141-166 | any number of successive advances keeps the invariant and never changes the quiz or the registry |
| Properties.AdvancesAfterEnd | business.js:150-153 | once the session has ended, any number of further advances leaves the store as it is |
| Properties.AdvancesFrom | business.js:155-166 | from a store with a quiz, not ended and with an empty ledger, k authorized advances leave an empty ledger; they open question `currentIndex + k` while it exists, and otherwise end the session with the cursor on the last question |
| Properties.AdvancesSplit | business.js:141-166 | i + j advances are i advances followed by j more |
| Properties.AdvanceFromReset | business.js:141-166 | after loading a quiz of n questions, the k-th authorized advance (1 ≤ k ≤ n) opens question k-1 with an empty ledger; the (n+1)-th ends the session on question n-1; every later one gives the same store, and a further request is answered "Session has ended." and changes nothing |
| Properties.SecondSubmissionRejected | business.js:105-108 | after an accepted answer, another submission with the same participant id is not accepted, leaves the store unchanged and is answered "Answer already submitted." |
| Properties.ResubmitAfterAdvance | business.js:162-164 | once the teacher advances to another question, a participant who answered may answer again |
| Properties.TeacherGuard | business.js:124-132 | a teacher request is authorized only when its `teacherToken` property is a string strictly equal to the configured token (no coercion, no other field consulted); without that, lock, next and end all leave the whole store unchanged and answer "Unauthorized teacher action." |
| Properties.EndWithoutQuiz | business.js:168-175 | ending a freshly created store leaves no quiz, cursor -1 and state ended |

## Left out

- server.js is not part of this model. That covers the process bootstrap, the parsing of raw frames (the "Invalid JSON." reply), the `type` dispatch with its "Missing event type." and "Unknown event type." replies, and the `close` hook. The dispatch only ever passes a parsed object that has a `type`, and the handlers are modelled for any JSON value.
- The `/session/status` route, HTTP status codes and the JSON bodies of replies are left out. `StartSession` returns a `StartReply` that names the outcome.
- `nowIso` and `makeParticipantId` read the clock and a random source. They are parameters of the handlers.
- `JSON.stringify`, `ws.send` and `readyState` are foreign calls. A send is a `Delivery`, and an open connection is membership in `open`. Connection identity is equality of `ConnId`s.
- JSON numbers are exact reals, not IEEE doubles. `Number.isInteger` and the bounds check on `answerIndex` are exact on them.
- The quiz object is kept as its questions' text and options. `title`, `correctIndex` and any other property are never read by the engine.
- The event loop's run-to-completion scheduling is assumed. Concurrency is not modelled.
- Strings are sequences of Unicode scalar values, not UTF-16 code units. A lone surrogate, which `JSON.parse` accepts, cannot be represented. `trim` is unaffected, since every character it removes lies in the Basic Multilingual Plane.

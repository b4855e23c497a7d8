# AutoPBL checkpoint and chat core, modelled in Dafny

AutoPBL is a project-based tutorial about text vectorization and spam
classification. Its deterministic core comes in three parts:

- **The checkpoint question bank.** It maps a section id (`"1.1"` … `"4.2"`)
  to a multiple-choice record: a question, options `a`–`d` and the id of the
  correct option. Unknown ids get a fixed fallback record. The bank exists in
  three copies: the FastAPI back end (`backend/main.py`, 11 sections), the
  Next.js route (`src/pages/api/checkpoint.ts`, the same 11 sections) and the
  Express server (`server.js`, only sections 1.1 and 1.2).
- **The HTTP handlers.** `/api/chat`, `/api/chat/new` and `/api/checkpoint`
  in FastAPI and Express, `/api/checkpoint` and `/api/chat` as Next.js routes.
  Each is a chain of guards that picks a status and a body. The chat handlers
  then make one outbound call to an OpenAI-style completion service and
  extract the reply.
- **The two React components.**
  - `CheckpointQuestion` loads a question, lets the learner choose an
    option, grades it once and reports the grade to its parent.
  - `ChatInterface` keeps an append-only message log around one request per
    send. It also defines a keyword classifier, `simulateApiResponse`.

Modules and files:

| file | module | models |
|---|---|---|
| `wrappers.dfy` | `Wrappers` | `Option` |
| `json.dfy` | `Json` | parsed JSON values with JavaScript truthiness; request bodies |
| `js_strings.dfy` | `JsStrings` | `trim`, `toLowerCase` and `includes` as used by the chat component |
| `question_bank.dfy` | `QuestionBank` | question records, well-formedness, the total lookup with its fallback |
| `http.dfy` | `Http` | responses, the abstract upstream outcome, the outbound request, the shared system prompt |
| `backend_main.dfy` | `BackendMain` | `backend/main.py` |
| `server.dfy` | `Server` | `server.js` |
| `api_checkpoint.dfy` | `ApiCheckpoint` | `src/pages/api/checkpoint.ts` |
| `api_chat.dfy` | `ApiChat` | `src/pages/api/chat.ts` |
| `checkpoint_question.dfy` | `CheckpointQuestionComponent` | `src/components/CheckpointQuestion.tsx`, as a class |
| `chat_interface.dfy` | `ChatInterfaceComponent` | `src/components/ChatInterface.tsx`, as a class plus the pure classifier |
| `agreement.dfy` | `Agreement` | how the copies agree and differ, and what the components receive from each back end |

How the model is built:

- **Handlers are pure functions.** The outbound call (`httpx`, `axios`,
  `fetch`) is not performed. Its result is an input of type `Upstream`:
  - a transport error; or
  - a status plus a body that is either not JSON or JSON whose `choices` is
    absent or a list of choices.

  Environment variables are an input of type `Env`. Each chat handler is
  split into the guard stage (`ChatRequest` / `HandlerRequest`), which either
  answers at once or yields the outbound request, and the stage after the
  call. So "the guards run before any outbound request" is a statement about
  the first function.
- **Components are classes** whose fields are the `useState` fields.
  - Each `async` handler is split at its `await` into a start method and a
    finish method, so interleavings (a refresh while loading, Enter while a
    reply is pending) can be expressed.
  - `SendMessage` composes the two halves of a send for the case where
    nothing is interleaved.
  - The `onComplete` callback is recorded as the sequence of values it was
    called with.

Behaviour that differs between the copies, or that is easy to misread:

- **Base URL.** Only `chat.ts` treats a missing base URL as a configuration
  error. `main.py` and `server.js` fall back to the OpenAI URL.
- **Upstream errors.** An upstream error status is passed through by
  `main.py` and `chat.ts`. Only `server.js` turns every upstream failure
  into 500.
- **Failed chat request.** The chat component shows a fixed error text. It
  does not produce a keyword-based fallback reply: `simulateApiResponse` is
  defined but never called.
- **Failed question fetch.** The question component keeps the question it
  had and stops loading. It does not fall back to a local question.
- **Empty section id.** `checkpoint.ts` has no check for it and serves the
  fallback question with 200.

## Model

| member | source | states |
|---|---|---|
| QuestionBank.Lookup | backend/main.py:255-268 | a section id that is a key yields exactly its stored record, any other id the fallback; the lookup is total and yields a well-formed record from a well-formed bank |
| QuestionBank.DefaultQuestionWellFormed | backend/main.py:256-266 | the fallback's options are `a`–`d` and its correct id is `"a"` |
| QuestionBank.LabelledRecordWellFormed | backend/main.py:143-252 | a record with four options labelled `a`, `b`, `c`, `d` and a correct id among them is well formed |
| QuestionBank.WellFormedIdsDistinct | backend/main.py:145-150 | a well-formed record has four options and no two of them share an id |
| QuestionBank.ExactlyOneCorrect | backend/main.py:143-252 | in a well-formed record exactly one option carries the correct id |
| QuestionBank.Find | src/components/CheckpointQuestion.tsx:166 | `options.find` by id returns one exactly when the id occurs among the option ids, and what it returns is the first option of the list with that id |
| BackendMain.BankIsWellFormed | backend/main.py:142-253 | every record of the 11-section bank is labelled `a`–`d` and names one of them as correct |
| BackendMain.BankCoversSections | backend/main.py:142-253 | the bank's keys are exactly 1.1, 1.2, 1.3, 2.1, 2.2, 2.3, 3.1, 3.2, 3.3, 4.1 and 4.2 |
| BackendMain.StoredRecordsAreNotDefault | backend/main.py:142-268 | no stored section's record is the fallback record, so a known section never looks like an unknown one |
| BackendMain.GetQuestionForSection | backend/main.py:140-268 | a known section yields its stored record, any other id the fallback; the result is always well formed |
| BackendMain.Checkpoint | backend/main.py:129-137 | status 200 exactly when the section id is non-empty; an empty id gives 400 "Section ID is required"; a 200 body is the lookup result, which is well formed |
| BackendMain.NewChat | backend/main.py:114-126 | status 200 exactly when the session id is non-empty; an empty id gives 400; a 200 body reports success and echoes the id |
| BackendMain.ChatRequest | backend/main.py:41-76 | an outbound call is made exactly when the message is non-empty and the key is set; an empty message gives 400 and a missing key 500 first; the call goes to the configured URL or the OpenAI default, with the key, the model and the system prompt followed by the user's message |
| BackendMain.Chat | backend/main.py:40-111 | 400 and 500 guards; a transport error gives 500; an upstream error status is passed through; a first choice with content gives 200 with that content; absent or empty `choices` give 200 with the fixed apology; a 2xx body that cannot be indexed gives 500 |
| BackendMain.GuardsPrecedeCall | backend/main.py:41-49 | when a guard refuses, the upstream outcome cannot change the answer, which is 400 or 500 |
| Server.BankIsWellFormed | server.js:115-137 | both records of the Express bank are well formed |
| Server.BankCoversChapterOneStart | server.js:115-137 | the Express bank's keys are exactly 1.1 and 1.2 |
| Server.GetQuestionForSection | server.js:113-154 | a string that is a key yields its record; every other value yields the fallback; the result is always well formed |
| Server.OnlyFirstTwoSectionsStored | server.js:140-153 | only the strings "1.1" and "1.2" find a stored record; "2.1" and every other id get the fallback |
| Server.Checkpoint | server.js:99-110 | status 200 exactly when `sectionId` is truthy; a falsy one gives 400; a 200 body is the lookup result |
| Server.NewChat | server.js:81-96 | status 200 exactly when `sessionId` is truthy; a falsy one gives 400; a 200 body reports success and echoes the id |
| Server.ChatRequest | server.js:18-55 | an outbound call is made exactly when the message is truthy and the key is set; the base URL falls back to the OpenAI URL when unset or empty, so only the key is mandatory |
| Server.Chat | server.js:18-78 | status 200 exactly when the call answered 2xx JSON that has `choices`; every other outcome after the guards is the same 500; a truthy first content is returned as is, anything else as the fixed apology, so a 200 reply is never falsy |
| ApiCheckpoint.BankIsWellFormed | src/pages/api/checkpoint.ts:30-141 | every record of the Next.js bank is well formed |
| ApiCheckpoint.BankCoversSections | src/pages/api/checkpoint.ts:30-141 | the bank's keys are exactly the 11 tutorial sections |
| ApiCheckpoint.GetQuestionForSection | src/pages/api/checkpoint.ts:28-157 | a string that is a key yields its record; every other value yields the fallback; the result is always well formed |
| ApiCheckpoint.Post | src/pages/api/checkpoint.ts:4-25 | status 200 exactly when the body parses; a parse failure gives 500 "Failed to process request"; a 200 body is the lookup of `sectionId`, well formed |
| ApiCheckpoint.EmptyIdServesFallback | src/pages/api/checkpoint.ts:6-17 | an absent or empty `sectionId` is answered 200 with the fallback question |
| ApiChat.HandlerRequest | src/pages/api/chat.ts:15-70 | an outbound call is made exactly when the method is POST, the body parses, the message is truthy and both key and base URL are set; each failed guard gives its own status and text (405, 500, 400, 500); the outbound body is the system prompt followed by the user's message |
| ApiChat.Handler | src/pages/api/chat.ts:15-109 | a refused request gets the guard's answer; past the guards, an upstream status of 300 or more other than 304 is passed through; 304, a status below 200 (both rejected by the `Response` constructor), a transport error and a 2xx body that is not JSON or lacks `choices` give 500; status 200 exactly when the call answered 2xx JSON with `choices`, whose truthy first content or else the fixed apology is the reply |
| Http.JsReply | src/pages/api/chat.ts:94 | the optional-chained reply expression yields a truthy value whenever it does not throw |
| JsStrings.TrimStart | src/components/ChatInterface.tsx:32 | the result is a suffix of the input, only white space is removed, and it does not start with white space |
| JsStrings.TrimEnd | src/components/ChatInterface.tsx:32 | the result is a prefix of the input, only white space is removed, and it does not end with white space |
| JsStrings.BlankIffAllWhiteSpace | src/components/ChatInterface.tsx:32 | `!s.trim()` holds exactly when every character of `s` is JavaScript white space |
| JsStrings.ToLower | src/components/ChatInterface.tsx:103 | lower-casing keeps the length and maps each character on its own |
| JsStrings.Contains | src/components/ChatInterface.tsx:103 | `includes` holds exactly when the substring occurs at some index |
| JsStrings.ContainsPrefix | src/components/ChatInterface.tsx:103 | a string that contains a word contains each prefix of that word |
| CheckpointQuestionComponent.CorrectAnswerTextOfWellFormed | src/components/CheckpointQuestion.tsx:166 | for a well-formed question the text looked up for the correct id is the text of an option with that id |
| CheckpointQuestionComponent.CheckpointQuestion.constructor | src/components/CheckpointQuestion.tsx:19-26 | the initial state: empty question, no options, no selection, no grade, not loading, not submitted |
| CheckpointQuestionComponent.CheckpointQuestion.StartFetch | src/components/CheckpointQuestion.tsx:29-30 | fetching sets the loading flag and nothing else |
| CheckpointQuestionComponent.CheckpointQuestion.FinishFetch | src/components/CheckpointQuestion.tsx:40-61 | a loaded question replaces question, options and correct id, clears selection, grade and submission, and reports `onComplete(false)`; a failed fetch changes none of them; loading ends false either way |
| CheckpointQuestionComponent.CheckpointQuestion.Select | src/components/CheckpointQuestion.tsx:125-127 | choosing an option sets the selection and keeps the invariant |
| CheckpointQuestionComponent.CheckpointQuestion.HandleSubmit | src/components/CheckpointQuestion.tsx:70-90 | with no selection nothing changes; otherwise the grade is exactly `selectedOption == correctAnswerId`, the question is submitted and `onComplete` receives the grade once |
| CheckpointQuestionComponent.CheckpointQuestion.ClickSubmit | src/components/CheckpointQuestion.tsx:150-156 | the button acts only with a selection and before a submission, so a loaded question is graded at most once |
| CheckpointQuestionComponent.CheckpointQuestion.ClickRefresh | src/components/CheckpointQuestion.tsx:93-116 | a click starts a fetch exactly when none is running (the button is disabled while one runs), and afterwards a fetch is running |
| CheckpointQuestionComponent.IncorrectFeedbackNamesCorrectOption | src/components/CheckpointQuestion.tsx:158-167 | after an incorrect submission of a well-formed question, the feedback names the text of the option whose id is the correct id |
| ChatInterfaceComponent.ReplyContent | src/components/ChatInterface.tsx:61-84 | the assistant message is the reply when truthy, the "couldn't process" apology for a falsy reply, the fixed error text for a failed request; it is never falsy |
| ChatInterfaceComponent.ChatInterface.constructor | src/components/ChatInterface.tsx:20-22 | an empty log, an empty input, not loading |
| ChatInterfaceComponent.ChatInterface.SetInput | src/components/ChatInterface.tsx:154-156 | typing sets the input |
| ChatInterfaceComponent.ChatInterface.StartSend | src/components/ChatInterface.tsx:31-45 | blank input posts nothing and changes nothing; otherwise the untrimmed input is appended as a user message and posted, the input is cleared and loading starts |
| ChatInterfaceComponent.ChatInterface.FinishSend | src/components/ChatInterface.tsx:47-87 | exactly one assistant message is appended to the log as it was, and loading ends whatever the outcome |
| ChatInterfaceComponent.ChatInterface.SendMessage | src/components/ChatInterface.tsx:31-88 | a non-blank send appends the user message and then exactly one assistant message, and nothing earlier in the log changes; a blank one changes nothing |
| ChatInterfaceComponent.ChatInterface.ClickSend | src/components/ChatInterface.tsx:161-164 | the button sends only when not loading and the input is not blank |
| ChatInterfaceComponent.ChatInterface.PressKey | src/components/ChatInterface.tsx:91-96 | Enter without Shift sends non-blank input even while loading; any other key, or blank input, changes nothing |
| ChatInterfaceComponent.VectorizationMentionsVector | src/components/ChatInterface.tsx:103 | a message containing "vectorization" contains "vector", so the second test of the first branch never decides anything |
| ChatInterfaceComponent.SimulateApiResponse | src/components/ChatInterface.tsx:99-112 | the vectorization reply exactly when the lower-cased message contains "vector"; the TF-IDF reply exactly when it contains "tf-idf" but not "vector"; the help reply exactly when it contains neither |
| Agreement.CheckpointBanksAgree | src/pages/api/checkpoint.ts:30-141 | the Next.js bank equals the FastAPI bank record for record |
| Agreement.CheckpointLookupsAgree | src/pages/api/checkpoint.ts:28-157 | for every string id the Next.js lookup returns the FastAPI record |
| Agreement.ServerBankIsPrefix | server.js:116-135 | the Express records for 1.1 and 1.2 are the FastAPI records |
| Agreement.ServerFallsBackBeyondFirstTwo | server.js:140-151 | for every other FastAPI section the Express lookup gives the fallback, which differs from the stored question |
| Agreement.EmptySectionIdDiverges | src/pages/api/checkpoint.ts:6-17 | an empty section id gets 400 from FastAPI and Express but the fallback with 200 from Next.js |
| Agreement.ChatHandlersAgreeOnAnswers | server.js:66-69 | fully configured and given a non-empty string as first content, all three chat handlers answer 200 with it |
| Agreement.ChatHandlersDivergeOnFailures | src/pages/api/chat.ts:83-94 | a 2xx body without `choices` gives 200 with the apology from FastAPI but 500 from both JavaScript handlers; an upstream 404 is passed on by FastAPI and Next.js but is 500 in Express |
| Agreement.LoadedQuestionsAreWellFormed | src/components/CheckpointQuestion.tsx:40-47 | a question the component loads from any of the three back ends is well formed |
| Agreement.SentInputPassesMessageGuards | src/components/ChatInterface.tsx:32-54 | input the component posts is never refused by any back end's message guard |
| Agreement.JsRepliesShownVerbatim | src/components/ChatInterface.tsx:66 | a 200 from either JavaScript chat handler is displayed unchanged |
| Agreement.EmptyPythonReplyReplaced | src/components/ChatInterface.tsx:66 | an empty reply from FastAPI is displayed as the component's own apology |

## Left out

- Network calls, their timeouts (the 30 s `httpx` timeout) and the simulated delays (`setTimeout` in `checkpoint.ts` and `simulateApiResponse`): the upstream call is an abstract outcome passed in as a parameter.
- Environment variables and `.env` loading: they are the `Env` parameter.
- Logging (`print`, `console.log`, `console.error`), toasts, rendering, styling, auto-scroll and the radio-group widget: they have no effect on the modelled state.
- FastAPI/pydantic body validation (the 422 answer for a missing or non-string field) and `express.json` parsing: the Python handlers take the validated strings, and the Express handlers take the parsed body.
- BackendMain.Chat: error details carry only their fixed prefix ("API call failed: ", "An unexpected error occurred: "); the exception or upstream text appended to them is not modelled.
- Server.Chat: the `details` field of the 500 body is not modelled.
- Server.GetQuestionForSection: a non-string `sectionId` is treated as not a key; JavaScript's coercion of a number or a one-element array to a property name is not modelled.
- ApiCheckpoint.GetQuestionForSection: same treatment of non-string ids as in Express.
- Prototype properties such as `"toString"` reached through `questions[sectionId]`: the bank is a finite map.
- Numbers in JSON are integers here; fractional numbers and `NaN` are not modelled (only their truthiness matters, and only for 0).
- A 2xx JSON body that is not an object has no case of its own. `null` maps to `NotJson` and an array to JSON without `choices`; each handler then gives the answer its source gives for that body (500 for `null` everywhere; for an array, 200 with the apology from FastAPI and 500 from the JavaScript handlers). A bare number or string is not modelled: Python's `in` test raises on a number and does a substring test on a string.
- A `choices` value that is not an array, and a first choice that is not an object, are not modelled beyond "has a `message`" or "has none".
- JsStrings.ToLower: lower-cases ASCII letters only; `toLowerCase` on other scripts is not modelled.
- Message ids and timestamps: one `Date.now()` reading per message stands for both, and ids are not claimed unique, because two messages in the same millisecond collide.
- The re-fetch when the `sectionId` prop changes, and responses that arrive out of order: the component's `sectionId` is fixed for its lifetime.
- The system prompt's wording: one shared constant (it is the same text in all three chat handlers).
- ApiChat.Handler: no contract says "405 exactly for non-POST", because an upstream 405 is also passed through; the non-POST direction is stated on `ApiChat.HandlerRequest`.
- `GET` in `chat.ts`, `/api/health`, `serve_frontend` and the static and catch-all routes: they return fixed values or files.
- `src/components/ApiStatus.tsx`, `src/pages/api/chat/new.ts` and `src/pages/Index.tsx`: a periodic poller, an echo with a delay, and markup with no logic.
- `backend/test_api.py`: a script that calls live endpoints.

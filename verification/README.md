# SynthMind chat session, modelled in Dafny

SynthMind is a Streamlit chat front end for a locally hosted language model
(Ollama, model `gemma:2b`) with MySQL-backed accounts and chat history. This
project models its session state machine: the keys of the Streamlit session
state (`authenticated`, `UserID`, `interaction_count`, `messages`,
`session_id`, `session_title`) and the handlers that change them.

- **Submit prompt**: mints the session id and title lazily, counts the
  interaction, applies the anonymous quota gate (at most three turns), and
  appends the user/assistant pair. When logged in, it saves both messages.
- **New Chat**: when logged in, it saves the whole buffer again, then clears
  the buffer, the id and the title.
- **Login**: a successful login starts a fresh authenticated session.
- **History selection**: loads a stored conversation and adopts its id and title.
- **`generate_session_title`**: a pure title function.

Files:

- `wrappers.dfy`: `Option` and `Result`.
- `session.dfy` (module `Session`): the state as a value. It has one step
  function per handler, `Step` and `Run` over sequences of UI events, and the
  invariant `Inv`.
- `session_lemmas.dfy` (module `SessionLemmas`): properties of whole runs.
  These cover the invariant, the quota, the counter, the once-only session
  id, and how the saved rows read back.
- `chat_app.dfy` (module `App`): class `ChatSession`. Its fields are the
  session-state keys. Two ghost logs record what the handlers do outside the
  state:
  - `writes` holds the rows appended to `chat_history`.
  - `modelCalls` holds the conversations sent to the model.

  Each method updates the fields step by step, as `app.py` does. Each is
  proved to give the state, rows and model calls of its step function, and to
  keep `Valid()`.

The collaborators become parameters:
- The result of `authenticate_user` is an `Option` holding the user's name.
- The messages returned by `load_session_messages` are a sequence of
  (role, content) pairs.
- The answer from `ollama.chat` is a `Result` holding the reply text or the
  error text.
- The value of `uuid.uuid4()` is a string.

Python truthiness is written out:
- "id unset" means `None` or `""` (`Unset`).
- New Chat requires a non-empty `UserID`. The prompt turn only requires the
  key to exist.
- An empty prompt does nothing.

Login is a no-op while authenticated, because the login form is only shown
to a visitor who is not logged in (app.py:147). History selection is a no-op
while anonymous, because the history list is only shown to a logged-in
visitor (app.py:185).

A New Chat right after choosing a stored conversation, with no prompt in
between, saves every loaded message a second time under the chosen id
(`SessionLemmas.ReopenedHistoryIsSavedAgain`). In the same way, New Chat
saves again the rows that each logged-in turn already saved.

## Model

| member | source | states |
|---|---|---|
| `Session.SessionTitle` | app.py:119-120 | An empty prompt gives exactly "Untitled". Any other prompt gives "Chat about: ", then its first min(30, length) characters, then "...". |
| `Session.Reply` | app.py:237-241 | The model's reply is used as it is. On failure the reply is the fixed warning "⚠️ Error from Ollama: " followed by the error text, so the error can be read back from the reply. |
| `Session.FlushRows` | app.py:129-137 | New Chat saves one row per buffered message, in buffer order, with the same user, session id and title on every row. |
| `Session.SubmitStep` | app.py:220-247 | An empty prompt changes nothing. Otherwise, an unset id gets the fresh id and the prompt's title before the gate, and a set id and title stay. The count rises by exactly 1, blocked or not. A blocked turn adds no message, saves no row and makes no model call. Any other turn appends (user, prompt) then (assistant, reply), with an error reply on failure. It asks the model once with the buffer that ends in the prompt. When logged in it saves exactly two rows that read back as those two messages, under the session's id and title. |
| `Session.NewChatStep` | app.py:128-141 | The buffer, id and title are cleared. `authenticated`, `UserID` and the count are kept. Rows are saved only when authenticated with a non-empty UserID and a non-empty buffer. They then read back as the buffer, under the old id and `session_title or "Untitled Session"`. |
| `Session.LoginStep` | app.py:171-182 | A successful login by an anonymous visitor gives authenticated, UserID = the typed id, count 0, an empty buffer, no id and no title. A failed login, or one while already logged in, changes nothing. No rows are saved. |
| `Session.SelectStep` | app.py:185-195 | When logged in, the buffer becomes exactly the loaded (role, content) pairs, in order, and the chosen id and title are adopted. The login and the count are kept. When anonymous, nothing changes. No rows are saved. |
| `SessionLemmas.TitleIdentifiesTopic` | app.py:119-120 | Two non-empty prompts get equal titles if and only if their first 30 characters agree. |
| `SessionLemmas.StepKeepsInvariant` | app.py:128-247 | Every handler preserves three facts: a non-empty buffer has a session id, id and title are set together, and a logged-in visitor has a UserID. Every row it saves has a session id and a title. |
| `SessionLemmas.RunKeepsInvariant` | app.py:128-247 | Over any sequence of events, the invariant holds, and no saved row has a null session id. |
| `SessionLemmas.CountsEveryPrompt` | app.py:225 | With no successful login, `interaction_count` rises by exactly the number of submitted prompts. New Chat, history selection and failed logins leave it alone. |
| `SessionLemmas.AnonymousQuota` | app.py:225-229 | Take anonymous prompts from count c. The model is asked min(n, max(0, 3 - c)) times and no row is saved. The count ends at c + n, and the buffer grows by two messages per answered turn. |
| `SessionLemmas.ThreeFreeTurns` | app.py:227-229 | From count 0, exactly min(n, 3) anonymous prompts reach the model. After the third, no prompt asks the model, saves a row or changes the buffer: the whole run saves nothing and ends with the buffer the first three turns left. |
| `SessionLemmas.BlockedRunKeepsBuffer` | app.py:227-232 | Once an anonymous count has reached 3, further prompts leave the buffer unchanged. |
| `SessionLemmas.SessionIdAssignedOnce` | app.py:221-223 | Once the session id is set, no sequence of prompts changes the id or the title, whether the prompts are blocked or answered. |
| `SessionLemmas.FirstPromptNamesSession` | app.py:221-223 | In a session with no id, the first prompt mints the id from the fresh uuid and the title from its own text. Later prompts keep both. |
| `SessionLemmas.PersistedRun` | app.py:232-247 | Take n logged-in prompts in a session with an id. They keep the id and title, make n model calls, save 2n rows with that user, id and title, and leave the earlier buffer as a prefix. The buffer gains exactly (user, prompt_i) then (assistant, reply_i) for each prompt in order, and the saved rows read back as exactly those messages. |
| `SessionLemmas.AuthenticatedConversation` | app.py:220-247 | After login or New Chat, n ≥ 1 prompts save 2n rows, all under the id minted by the first prompt. The buffer is exactly (user, prompt_i) then (assistant, reply_i) for each prompt in order, and the saved rows read back as exactly that buffer. |
| `SessionLemmas.NewChatTwice` | app.py:128-141 | A second New Chat saves nothing and changes nothing. |
| `SessionLemmas.ReopenedHistoryIsSavedAgain` | app.py:128-195 | A logged-in visitor selects a non-empty stored conversation and then presses New Chat. Every loaded message is saved again, in order, under the selected id. |
| `App.ChatSession.constructor` | app.py:122-125 | The session starts as `authenticated` False, count 0, no messages, no id and no title, with no UserID key, nothing saved and nothing asked. |
| `App.ChatSession.SaveMessage` | app.py:68-82 | chat_history gains exactly one row with the given fields and keeps every earlier row. |
| `App.ChatSession.NewChat` | app.py:127-141 | The loop saves the buffer row by row. The new state and rows are those of `NewChatStep`, and `Valid()` is kept. |
| `App.ChatSession.Login` | app.py:171-182 | The new state is that of `LoginStep`. Nothing is saved and `Valid()` is kept. |
| `App.ChatSession.SelectHistory` | app.py:189-195 | The new state is that of `SelectStep`. Nothing is saved and `Valid()` is kept. |
| `App.ChatSession.SubmitPrompt` | app.py:220-247 | The new state, the rows appended and the model call are those of `SubmitStep`. Earlier rows and calls stay a prefix, and `Valid()` is kept. |

## Left out

- `get_connection`, `register_user`, `authenticate_user`, `get_user_session`
  and `load_session_messages` (app.py:15-116) are thin wrappers over MySQL.
  Their answers are parameters, and `save_message` is one append to the
  ghost `writes` log. Connection failures and MySQL errors are not modelled:
  a failed save is modelled as a row that was written. SQL grouping and
  ordering are not modelled either. "Reads back" means the (role, content)
  pairs of the saved rows in write order, which `ORDER BY DateTime` returns
  only if timestamps increase with each write.
- `ollama.chat` is not modelled. Its outcome is a parameter, and any
  exception, a missing key in the response included, is a `Failure`
  carrying the text of `str(e)`.
- `uuid.uuid4()` is a parameter. Only `FirstPromptNamesSession` and
  `AuthenticatedConversation` assume it is non-empty; no member assumes it
  is unique. `datetime.now()` timestamps are omitted.
- Rendering, widgets, styling, `st.warning`/`st.error`/`st.success`, and the
  welcome message using the user's name are not modelled. `st.rerun`/`st.stop`
  is the handler returning early. Each handler runs as one event; the order
  in which one Streamlit script run visits several widgets is not modelled.
- Registration form validation (app.py:145-166) is not modelled: it is form
  glue around a foreign insert.
- `App.ChatSession.SubmitPrompt` keeps model calls and saved rows in two
  separate logs. The ordering user-row, then model call, then assistant-row
  within a turn is therefore not recorded.

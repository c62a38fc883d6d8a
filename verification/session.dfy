/**
 * The per-visitor session state of the chat application (the keys of the
 * Streamlit session state that the handlers in app.py read and write) and
 * the effect of each handler on it, as values.
 *
 * Each handler yields an `Effect`: the new state, the rows it appended to the
 * chat_history table (through save_message, in call order) and the
 * conversations it sent to the language model.
 */
module Session {
  import opened Wrappers

  /** Role of a chat message, stored as "user" or "assistant". */
  datatype Role = User | Assistant

  datatype Message = Message(role: Role, content: string)

  /** One row appended to chat_history by save_message. */
  datatype Row = Row(
    userId: string,
    sessionId: Option<string>,
    sessionTitle: Option<string>,
    role: Role,
    content: string)

  /** The session-state keys; `userId` is None while the key "UserID" is absent. */
  datatype State = State(
    authenticated: bool,
    userId: Option<string>,
    interactionCount: nat,
    messages: seq<Message>,
    sessionId: Option<string>,
    sessionTitle: Option<string>)

  /** What one handler does. */
  datatype Effect = Effect(state: State, rows: seq<Row>, modelCalls: seq<seq<Message>>)

  /**
   * The UI events, with the answers of the collaborators they consult:
   * a prompt carries the fresh uuid4 string and the model's answer (reply
   * text or error text); a login carries the typed user id and the result of
   * authenticate_user (the user's name, or None); a history selection carries
   * the chosen session's id and title and the (role, content) pairs that
   * load_session_messages returned.
   */
  datatype Event =
    | Prompt(text: string, freshId: string, answer: Result<string, string>)
    | NewChat
    | Login(typedId: string, account: Option<string>)
    | SelectHistory(id: string, title: string, loaded: seq<(Role, string)>)

  /** The state before any handler ran: authenticated False, count 0, no messages, no id, no title, no UserID key. */
  const Initial := State(false, None, 0, [], None, None)

  const TitlePrefix := "Chat about: "
  const TitleSuffix := "..."
  const TitleFallback := "Untitled"
  const TopicLength := 30
  const FlushFallback := "Untitled Session"
  const ErrorPrefix := "\U{26A0}\U{FE0F} Error from Ollama: "
  /** Anonymous turns allowed before the gate closes. */
  const FreeTurns := 3

  function Min(a: int, b: int): int { if a < b then a else b }

  /** Python's `not x` on an optional string: None and "" are both falsy. */
  predicate Unset(x: Option<string>) { x.None? || x.value == [] }

  /**
   * generate_session_title: the first 30 characters of the prompt between
   * "Chat about: " and "...", or "Untitled" for an empty prompt.
   */
  function SessionTitle(prompt: string): (t: string)
    ensures prompt == [] <==> t == TitleFallback
    ensures prompt != [] ==>
      var n := Min(TopicLength, |prompt|);
      && |t| == |TitlePrefix| + n + |TitleSuffix|
      && t[..|TitlePrefix|] == TitlePrefix
      && t[|TitlePrefix|..|TitlePrefix| + n] == prompt[..n]
      && t[|TitlePrefix| + n..] == TitleSuffix
  {
    if prompt == [] then TitleFallback
    else TitlePrefix + prompt[..Min(TopicLength, |prompt|)] + TitleSuffix
  }

  /** The quota gate: an anonymous visitor past the free turns is refused. */
  predicate QuotaBlocks(authenticated: bool, count: nat) {
    !authenticated && count > FreeTurns
  }

  /** The assistant text of a turn: the model's reply, or the error text after a fixed warning. */
  function Reply(answer: Result<string, string>): (r: string)
    ensures answer.Success? ==> r == answer.value
    ensures answer.Failure? ==>
      |r| == |ErrorPrefix| + |answer.error| && r[..|ErrorPrefix|] == ErrorPrefix && r[|ErrorPrefix|..] == answer.error
  {
    match answer
    case Success(content) => content
    case Failure(err) => ErrorPrefix + err
  }

  /** `session_title or "Untitled Session"`. */
  function FlushTitle(title: Option<string>): string {
    if Unset(title) then FlushFallback else title.value
  }

  /** The rows New Chat saves: one per buffered message, in buffer order. */
  function FlushRows(userId: string, sessionId: Option<string>, title: string, buffer: seq<Message>): (rows: seq<Row>)
    ensures |rows| == |buffer|
    ensures forall k :: 0 <= k < |rows| ==>
      rows[k] == Row(userId, sessionId, Some(title), buffer[k].role, buffer[k].content)
    decreases |buffer|
  {
    if buffer == [] then []
    else
      var last := buffer[|buffer| - 1];
      FlushRows(userId, sessionId, title, buffer[..|buffer| - 1]) + [Row(userId, sessionId, Some(title), last.role, last.content)]
  }

  /** The (role, content) of each row, in order: what load_session_messages reads back. */
  function Messages(rows: seq<Row>): seq<Message> {
    seq(|rows|, k requires 0 <= k < |rows| => Message(rows[k].role, rows[k].content))
  }

  /** The buffer built from loaded (role, content) pairs. */
  function FromHistory(loaded: seq<(Role, string)>): seq<Message> {
    seq(|loaded|, k requires 0 <= k < |loaded| => Message(loaded[k].0, loaded[k].1))
  }

  /** Rows that all carry a session id and a title. */
  predicate Keyed(rows: seq<Row>) {
    forall k :: 0 <= k < |rows| ==> rows[k].sessionId.Some? && rows[k].sessionTitle.Some?
  }

  /**
   * What every handler preserves: a non-empty buffer belongs to a session
   * with an id, id and title are set together, and an authenticated visitor
   * has a UserID.
   */
  predicate Inv(s: State) {
    && (s.messages != [] ==> s.sessionId.Some?)
    && (s.sessionId.Some? <==> s.sessionTitle.Some?)
    && (s.authenticated ==> s.userId.Some?)
  }

  /** Whether a turn saves its messages (`authenticated and "UserID" in session_state`). */
  predicate Persists(s: State) { s.authenticated && s.userId.Some? }

  /** The prompt handler. */
  function SubmitStep(s: State, prompt: string, freshId: string, answer: Result<string, string>): (r: Effect)
    // `if prompt:` -- an empty prompt is no submission
    ensures prompt == [] ==> r == Effect(s, [], [])
    // id and title are minted only when the id is unset, and before the gate
    ensures prompt != [] ==>
      && r.state.sessionId == (if Unset(s.sessionId) then Some(freshId) else s.sessionId)
      && r.state.sessionTitle == (if Unset(s.sessionId) then Some(SessionTitle(prompt)) else s.sessionTitle)
    // every submission is counted, blocked or not
    ensures prompt != [] ==> r.state.interactionCount == s.interactionCount + 1
    ensures r.state.authenticated == s.authenticated && r.state.userId == s.userId
    // a blocked turn appends nothing, saves nothing and does not ask the model
    ensures prompt != [] && QuotaBlocks(s.authenticated, s.interactionCount + 1) ==>
      r.state.messages == s.messages && r.rows == [] && r.modelCalls == []
    // any other turn appends the prompt and the reply (an error text on failure),
    // asks the model once with the buffer ending in the prompt,
    // and, when persisting, saves both messages under the session's id and title
    ensures prompt != [] && !QuotaBlocks(s.authenticated, s.interactionCount + 1) ==>
      && r.state.messages == s.messages + [Message(User, prompt), Message(Assistant, Reply(answer))]
      && r.modelCalls == [s.messages + [Message(User, prompt)]]
      && |r.rows| == (if Persists(s) then 2 else 0)
      && (Persists(s) ==> Messages(r.rows) == r.state.messages[|s.messages|..])
      && forall k :: 0 <= k < |r.rows| ==>
           r.rows[k].userId == s.userId.value
           && r.rows[k].sessionId == r.state.sessionId && r.rows[k].sessionTitle == r.state.sessionTitle
  {
    if prompt == [] then Effect(s, [], [])
    else
      var minted :=
        if Unset(s.sessionId) then s.(sessionId := Some(freshId), sessionTitle := Some(SessionTitle(prompt))) else s;
      var counted := minted.(interactionCount := minted.interactionCount + 1);
      if QuotaBlocks(counted.authenticated, counted.interactionCount) then Effect(counted, [], [])
      else
        var asked := counted.messages + [Message(User, prompt)];
        var reply := Reply(answer);
        var rows :=
          if Persists(counted) then
            [Row(counted.userId.value, counted.sessionId, counted.sessionTitle, User, prompt),
             Row(counted.userId.value, counted.sessionId, counted.sessionTitle, Assistant, reply)]
          else [];
        Effect(counted.(messages := asked + [Message(Assistant, reply)]), rows, [asked])
  }

  /** Whether New Chat saves the buffer: authenticated, a truthy UserID and a non-empty buffer. */
  predicate Flushes(s: State) {
    s.authenticated && s.userId.Some? && s.userId.value != [] && s.messages != []
  }

  /** The New Chat handler. */
  function NewChatStep(s: State): (r: Effect)
    // the buffer, id and title are cleared; the login and the count are kept
    ensures r.state == s.(messages := [], sessionId := None, sessionTitle := None)
    ensures r.modelCalls == []
    // the saved rows give back the buffer, under the session's id and title
    ensures Flushes(s) ==>
      && Messages(r.rows) == s.messages
      && forall k :: 0 <= k < |r.rows| ==>
           r.rows[k].userId == s.userId.value && r.rows[k].sessionId == s.sessionId
           && r.rows[k].sessionTitle == Some(FlushTitle(s.sessionTitle))
    ensures !Flushes(s) ==> r.rows == []
  {
    var rows := if Flushes(s) then FlushRows(s.userId.value, s.sessionId, FlushTitle(s.sessionTitle), s.messages) else [];
    Effect(s.(messages := [], sessionId := None, sessionTitle := None), rows, [])
  }

  /**
   * The login handler. The form is only offered to a visitor who is not
   * authenticated; a successful login starts a fresh authenticated session.
   */
  function LoginStep(s: State, typedId: string, account: Option<string>): (r: Effect)
    ensures r.rows == [] && r.modelCalls == []
    ensures !s.authenticated && account.Some? ==>
      r.state.authenticated && r.state.userId == Some(typedId)
      && r.state.interactionCount == 0 && r.state.messages == []
      && r.state.sessionId.None? && r.state.sessionTitle.None?
    ensures s.authenticated || account.None? ==> r.state == s
  {
    if !s.authenticated && account.Some? then Effect(State(true, Some(typedId), 0, [], None, None), [], [])
    else Effect(s, [], [])
  }

  /**
   * The history-selection handler. The history list is only shown to an
   * authenticated visitor; choosing an entry replaces the buffer with the
   * loaded messages and adopts the entry's id and title.
   */
  function SelectStep(s: State, id: string, title: string, loaded: seq<(Role, string)>): (r: Effect)
    ensures r.rows == [] && r.modelCalls == []
    ensures !s.authenticated ==> r.state == s
    ensures s.authenticated ==>
      && r.state.sessionId == Some(id) && r.state.sessionTitle == Some(title)
      && r.state.authenticated && r.state.userId == s.userId && r.state.interactionCount == s.interactionCount
      && |r.state.messages| == |loaded|
      && forall k :: 0 <= k < |loaded| ==> r.state.messages[k] == Message(loaded[k].0, loaded[k].1)
  {
    if s.authenticated then Effect(s.(messages := FromHistory(loaded), sessionId := Some(id), sessionTitle := Some(title)), [], [])
    else Effect(s, [], [])
  }

  function Step(s: State, e: Event): Effect {
    match e
    case Prompt(text, freshId, answer) => SubmitStep(s, text, freshId, answer)
    case NewChat => NewChatStep(s)
    case Login(typedId, account) => LoginStep(s, typedId, account)
    case SelectHistory(id, title, loaded) => SelectStep(s, id, title, loaded)
  }

  /** A sequence of events handled one after another, their rows and model calls collected in order. */
  function Run(s: State, es: seq<Event>): Effect
    decreases |es|
  {
    if es == [] then Effect(s, [], [])
    else
      var first := Step(s, es[0]);
      var rest := Run(first.state, es[1..]);
      Effect(rest.state, first.rows + rest.rows, first.modelCalls + rest.modelCalls)
  }
}

/**
 * The handlers of app.py as they run: a session object whose fields are the
 * session-state keys, updated step by step. Each handler is proved to do
 * what the matching step function of module Session describes.
 */
module App {
  import opened Wrappers
  import opened Session

  class ChatSession {
    var authenticated: bool
    var userId: Option<string>
    var interactionCount: nat
    var messages: seq<Message>
    var sessionId: Option<string>
    var sessionTitle: Option<string>
    /** The rows this session appended to chat_history through save_message, oldest first. */
    ghost var writes: seq<Row>
    /** The conversations this session sent to the language model, oldest first. */
    ghost var modelCalls: seq<seq<Message>>

    function Snapshot(): State
      reads this
    {
      State(authenticated, userId, interactionCount, messages, sessionId, sessionTitle)
    }

    ghost predicate Valid()
      reads this
    {
      Inv(Snapshot()) && Keyed(writes)
    }

    /** The session state as first initialised: nothing saved, nothing asked. */
    constructor ()
      ensures Valid()
      ensures Snapshot() == Initial && writes == [] && modelCalls == []
    {
      authenticated := false;
      interactionCount := 0;
      messages := [];
      sessionId := None;
      sessionTitle := None;
      userId := None;
      writes := [];
      modelCalls := [];
    }

    /** save_message: chat_history gains one row and keeps every earlier one. */
    method SaveMessage(uid: string, sid: Option<string>, title: Option<string>, role: Role, content: string)
      modifies this`writes
      ensures writes == old(writes) + [Row(uid, sid, title, role, content)]
    {
      writes := writes + [Row(uid, sid, title, role, content)];
    }

    /** The "New Chat" button: save the buffer when logged in, then start over. */
    method NewChat()
      requires Valid()
      modifies this
      ensures Valid()
      ensures Snapshot() == NewChatStep(old(Snapshot())).state
      ensures writes == old(writes) + NewChatStep(old(Snapshot())).rows
      ensures modelCalls == old(modelCalls)
    {
      if authenticated && userId.Some? && userId.value != [] && messages != [] {
        var uid, title := userId.value, FlushTitle(sessionTitle);
        var i := 0;
        while i < |messages|
          invariant 0 <= i <= |messages|
          invariant writes == old(writes) + FlushRows(uid, sessionId, title, messages[..i])
          modifies this`writes
        {
          SaveMessage(uid, sessionId, Some(title), messages[i].role, messages[i].content);
          assert messages[..i + 1][..i] == messages[..i];
          i := i + 1;
        }
        assert messages[..i] == messages;
      }
      messages := [];
      sessionId := None;
      sessionTitle := None;
    }

    /** The login button, given the typed user id and what authenticate_user found. */
    method Login(typedId: string, account: Option<string>)
      requires Valid()
      modifies this
      ensures Valid()
      ensures Snapshot() == LoginStep(old(Snapshot()), typedId, account).state
      ensures writes == old(writes) && modelCalls == old(modelCalls)
    {
      if !authenticated && account.Some? {
        authenticated := true;
        userId := Some(typedId);
        messages := [];
        interactionCount := 0;
        sessionId := None;
        sessionTitle := None;
      }
    }

    /** A history entry's button, given its id, its title and the messages loaded for it. */
    method SelectHistory(id: string, title: string, loaded: seq<(Role, string)>)
      requires Valid()
      modifies this
      ensures Valid()
      ensures Snapshot() == SelectStep(old(Snapshot()), id, title, loaded).state
      ensures writes == old(writes) && modelCalls == old(modelCalls)
    {
      if authenticated {
        messages := FromHistory(loaded);
        sessionId := Some(id);
        sessionTitle := Some(title);
      }
    }

    /**
     * A submitted prompt, given a fresh uuid4 string and the model's answer to
     * the conversation so far. A refused turn returns early, like st.stop().
     */
    method SubmitPrompt(prompt: string, freshId: string, answer: Result<string, string>)
      requires Valid()
      modifies this
      ensures Valid()
      ensures Snapshot() == SubmitStep(old(Snapshot()), prompt, freshId, answer).state
      ensures writes == old(writes) + SubmitStep(old(Snapshot()), prompt, freshId, answer).rows
      ensures modelCalls == old(modelCalls) + SubmitStep(old(Snapshot()), prompt, freshId, answer).modelCalls
    {
      if prompt == [] {
        return;
      }
      if Unset(sessionId) {
        sessionId := Some(freshId);
        sessionTitle := Some(SessionTitle(prompt));
      }
      interactionCount := interactionCount + 1;
      if QuotaBlocks(authenticated, interactionCount) {
        return;
      }
      messages := messages + [Message(User, prompt)];
      if authenticated && userId.Some? {
        SaveMessage(userId.value, sessionId, sessionTitle, User, prompt);
      }
      modelCalls := modelCalls + [messages];
      var reply := Reply(answer);
      messages := messages + [Message(Assistant, reply)];
      if authenticated && userId.Some? {
        SaveMessage(userId.value, sessionId, sessionTitle, Assistant, reply);
      }
    }
  }
}

/**
 * Properties of runs of the session handlers: what holds after any sequence
 * of UI events, not only after one.
 */
module SessionLemmas {
  import opened Wrappers
  import opened Session

  /** Events that are all non-empty prompt submissions. */
  predicate AllPrompts(es: seq<Event>) {
    forall i :: 0 <= i < |es| ==> es[i].Prompt? && es[i].text != []
  }

  /** Events none of which is a successful login. */
  predicate NoSuccessfulLogin(es: seq<Event>) {
    forall i :: 0 <= i < |es| ==> es[i].Login? ==> es[i].account.None?
  }

  /** Number of non-empty prompt submissions among the events. */
  function PromptCount(es: seq<Event>): nat
    decreases |es|
  {
    if es == [] then 0
    else (if es[0].Prompt? && es[0].text != [] then 1 else 0) + PromptCount(es[1..])
  }

  /** Anonymous turns still allowed at a given count. */
  function FreeLeft(count: nat): nat {
    if count >= FreeTurns then 0 else FreeTurns - count
  }

  /**
   * Two non-empty prompts get the same title exactly when their first 30
   * characters agree: the title names the topic and nothing else.
   */
  lemma TitleIdentifiesTopic(p: string, q: string)
    requires p != [] && q != []
    ensures SessionTitle(p) == SessionTitle(q) <==>
      p[..Min(TopicLength, |p|)] == q[..Min(TopicLength, |q|)]
  {
  }

  /**
   * The messages a run of prompts appends when no prompt is refused:
   * (user, prompt) then (assistant, reply) for each prompt, in order.
   */
  function Turns(es: seq<Event>): seq<Message>
    requires forall i :: 0 <= i < |es| ==> es[i].Prompt?
    decreases |es|
  {
    if es == [] then []
    else [Message(User, es[0].text), Message(Assistant, Reply(es[0].answer))] + Turns(es[1..])
  }

  /** Handling two event sequences one after the other is handling their concatenation. */
  lemma {:induction false} RunAppend(s: State, a: seq<Event>, b: seq<Event>)
    ensures
      var first := Run(s, a);
      var second := Run(first.state, b);
      Run(s, a + b) == Effect(second.state, first.rows + second.rows, first.modelCalls + second.modelCalls)
    decreases |a|
  {
    if a == [] {
      assert a + b == b;
    } else {
      var step := Step(s, a[0]);
      assert (a + b)[0] == a[0];
      assert (a + b)[1..] == a[1..] + b;
      RunAppend(step.state, a[1..], b);
      var tail := Run(step.state, a[1..]);
      var second := Run(tail.state, b);
      calc {
        Run(s, a + b);
        Effect(Run(step.state, a[1..] + b).state, step.rows + Run(step.state, a[1..] + b).rows,
               step.modelCalls + Run(step.state, a[1..] + b).modelCalls);
        Effect(second.state, step.rows + (tail.rows + second.rows), step.modelCalls + (tail.modelCalls + second.modelCalls));
        { assert step.rows + (tail.rows + second.rows) == (step.rows + tail.rows) + second.rows;
          assert step.modelCalls + (tail.modelCalls + second.modelCalls) == (step.modelCalls + tail.modelCalls) + second.modelCalls; }
        Effect(second.state, Run(s, a).rows + second.rows, Run(s, a).modelCalls + second.modelCalls);
      }
    }
  }

  /** Every handler keeps the state invariant and saves only rows with a session id and title. */
  lemma StepKeepsInvariant(s: State, e: Event)
    requires Inv(s)
    ensures Inv(Step(s, e).state) && Keyed(Step(s, e).rows)
  {
  }

  /** No run of handlers ever saves a row without a session id. */
  lemma {:induction false} RunKeepsInvariant(s: State, es: seq<Event>)
    requires Inv(s)
    ensures Inv(Run(s, es).state) && Keyed(Run(s, es).rows)
    decreases |es|
  {
    if es != [] {
      StepKeepsInvariant(s, es[0]);
      RunKeepsInvariant(Step(s, es[0]).state, es[1..]);
    }
  }

  /** Without a successful login, the count grows by exactly one per submitted prompt. */
  lemma {:induction false} CountsEveryPrompt(s: State, es: seq<Event>)
    requires NoSuccessfulLogin(es)
    ensures Run(s, es).state.interactionCount == s.interactionCount + PromptCount(es)
    decreases |es|
  {
    if es != [] {
      CountsEveryPrompt(Step(s, es[0]).state, es[1..]);
    }
  }

  /**
   * The quota gate over a run of anonymous prompts: the model is asked only
   * while free turns remain, nothing is ever saved, and every prompt is counted.
   */
  lemma {:induction false} AnonymousQuota(s: State, es: seq<Event>)
    requires !s.authenticated && AllPrompts(es)
    ensures
      var r := Run(s, es);
      && r.rows == []
      && |r.modelCalls| == Min(|es|, FreeLeft(s.interactionCount))
      && r.state.interactionCount == s.interactionCount + |es|
      && |r.state.messages| == |s.messages| + 2 * |r.modelCalls|
      && !r.state.authenticated
    decreases |es|
  {
    if es != [] {
      AnonymousQuota(Step(s, es[0]).state, es[1..]);
    }
  }

  /** From a count of 0, exactly three anonymous turns reach the model; the fourth and later are refused. */
  lemma ThreeFreeTurns(s: State, es: seq<Event>)
    requires !s.authenticated && s.interactionCount == 0 && AllPrompts(es)
    ensures |Run(s, es).modelCalls| == Min(|es|, FreeTurns)
    ensures |es| >= FreeTurns ==>
      var free := Run(s, es[..FreeTurns]);
      var later := Run(free.state, es[FreeTurns..]);
      |free.modelCalls| == FreeTurns && later.modelCalls == [] && later.rows == []
      && later.state.messages == free.state.messages
    ensures |es| >= FreeTurns ==>
      Run(s, es).rows == [] && Run(s, es).state.messages == Run(s, es[..FreeTurns]).state.messages
  {
    AnonymousQuota(s, es);
    if |es| >= FreeTurns {
      AnonymousQuota(s, es[..FreeTurns]);
      var free := Run(s, es[..FreeTurns]);
      AnonymousQuota(free.state, es[FreeTurns..]);
      BlockedRunKeepsBuffer(free.state, es[FreeTurns..]);
      RunAppend(s, es[..FreeTurns], es[FreeTurns..]);
      assert es[..FreeTurns] + es[FreeTurns..] == es;
    }
  }

  /** Once the gate is closed, prompts leave the buffer as it is. */
  lemma {:induction false} BlockedRunKeepsBuffer(s: State, es: seq<Event>)
    requires !s.authenticated && s.interactionCount >= FreeTurns && AllPrompts(es)
    ensures Run(s, es).state.messages == s.messages
    decreases |es|
  {
    if es != [] {
      BlockedRunKeepsBuffer(Step(s, es[0]).state, es[1..]);
    }
  }

  /** A session id, once set, and its title survive any number of prompts, blocked or not. */
  lemma {:induction false} SessionIdAssignedOnce(s: State, es: seq<Event>)
    requires !Unset(s.sessionId)
    requires forall i :: 0 <= i < |es| ==> es[i].Prompt?
    ensures Run(s, es).state.sessionId == s.sessionId
    ensures Run(s, es).state.sessionTitle == s.sessionTitle
    decreases |es|
  {
    if es != [] {
      SessionIdAssignedOnce(Step(s, es[0]).state, es[1..]);
    }
  }

  /**
   * In a fresh session, the first prompt mints the id (a uuid4 string, never
   * empty) and the title from its own text, and later prompts keep both.
   */
  lemma FirstPromptNamesSession(s: State, es: seq<Event>)
    requires Unset(s.sessionId)
    requires forall i :: 0 <= i < |es| ==> es[i].Prompt?
    requires |es| > 0 && es[0].text != [] && es[0].freshId != []
    ensures Run(s, es).state.sessionId == Some(es[0].freshId)
    ensures Run(s, es).state.sessionTitle == Some(SessionTitle(es[0].text))
  {
    SessionIdAssignedOnce(Step(s, es[0]).state, es[1..]);
  }

  /**
   * Authenticated prompts in a session that has an id: every turn saves its
   * two messages under that id and title, and the saved rows read back as
   * exactly the messages the run appended, in order.
   */
  lemma {:induction false} PersistedRun(s: State, es: seq<Event>)
    requires s.authenticated && s.userId.Some? && !Unset(s.sessionId)
    requires AllPrompts(es)
    ensures
      var r := Run(s, es);
      && r.state.sessionId == s.sessionId && r.state.sessionTitle == s.sessionTitle
      && |r.modelCalls| == |es| && |r.rows| == 2 * |es|
      && |r.state.messages| == |s.messages| + 2 * |es|
      && r.state.messages[..|s.messages|] == s.messages
      && Messages(r.rows) == r.state.messages[|s.messages|..]
      && forall k :: 0 <= k < |r.rows| ==>
           r.rows[k].userId == s.userId.value
           && r.rows[k].sessionId == s.sessionId && r.rows[k].sessionTitle == s.sessionTitle
    ensures Run(s, es).state.messages == s.messages + Turns(es)
    ensures Messages(Run(s, es).rows) == Turns(es)
    decreases |es|
  {
    if es != [] {
      var first := Step(s, es[0]);
      PersistedRun(first.state, es[1..]);
      var rest := Run(first.state, es[1..]);
      var r := Run(s, es);
      MessagesAppend(first.rows, rest.rows);
      assert r.state.messages[|s.messages|..]
          == first.state.messages[|s.messages|..] + r.state.messages[|first.state.messages|..];
      assert first.state.messages == s.messages + Turns(es[..1]);
      assert Turns(es) == Turns(es[..1]) + Turns(es[1..]);
    }
  }

  /**
   * A logged-in visitor's new conversation: N prompts save 2N rows, all
   * under the id minted by the first prompt, that read back as the buffer.
   */
  lemma AuthenticatedConversation(s: State, es: seq<Event>)
    requires s.authenticated && s.userId.Some? && s.messages == [] && Unset(s.sessionId)
    requires AllPrompts(es) && |es| > 0 && es[0].freshId != []
    ensures
      var r := Run(s, es);
      && r.state.sessionId == Some(es[0].freshId)
      && |r.rows| == 2 * |es| && |r.modelCalls| == |es|
      && Messages(r.rows) == r.state.messages
      && forall k :: 0 <= k < |r.rows| ==> r.rows[k].sessionId == Some(es[0].freshId)
    ensures Run(s, es).state.messages == Turns(es) && Messages(Run(s, es).rows) == Turns(es)
  {
    var first := Step(s, es[0]);
    PersistedRun(first.state, es[1..]);
    MessagesAppend(first.rows, Run(first.state, es[1..]).rows);
  }

  lemma MessagesAppend(a: seq<Row>, b: seq<Row>)
    ensures Messages(a + b) == Messages(a) + Messages(b)
  {
  }

  /** A second New Chat saves nothing and changes nothing. */
  lemma NewChatTwice(s: State)
    ensures Step(Step(s, NewChat).state, NewChat) == Effect(Step(s, NewChat).state, [], [])
  {
  }

  /**
   * Choosing a stored conversation and then New Chat, without any prompt,
   * saves every loaded message again under the chosen id.
   */
  lemma ReopenedHistoryIsSavedAgain(s: State, id: string, title: string, loaded: seq<(Role, string)>)
    requires s.authenticated && s.userId.Some? && s.userId.value != [] && loaded != []
    ensures
      var rows := Run(s, [SelectHistory(id, title, loaded), NewChat]).rows;
      && |rows| == |loaded|
      && Messages(rows) == FromHistory(loaded)
      && forall k :: 0 <= k < |rows| ==> rows[k].sessionId == Some(id)
  {
    var viewing := Step(s, SelectHistory(id, title, loaded));
    var flushed := Step(viewing.state, NewChat);
    assert Flushes(viewing.state);
    var es := [SelectHistory(id, title, loaded), NewChat];
    assert es[1..] == [NewChat];
    assert Run(flushed.state, []).rows == [];
    assert Run(viewing.state, [NewChat]).rows == flushed.rows;
    assert Run(s, es).rows == viewing.rows + flushed.rows;
  }
}

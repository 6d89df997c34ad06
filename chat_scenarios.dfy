/**
 * Runs of the chat component (src/components/Chat.jsx) over several steps.
 * Each method builds a fresh `Chat`, drives its handlers in one order,
 * with gateway replies given as inputs, and states the resulting state.
 * Runs that begin by selecting a thread leave off the mount refresh that
 * would first have listed it: selecting only sets the active id, so what
 * they state about the messages is the same either way.
 * The first runs are the ordinary flows; the later ones are interleavings
 * in which a reply lands after the user has moved on, and show what the
 * handlers, which keep no per-thread state, then do.
 */
module ChatScenarios {
  import opened Wrappers
  import opened JsValue
  import opened ChatUpdates
  import opened ChatSession
  import Kura
  import MessageBubble
  import ChatInput

  /** A thread record as the gateway lists it. */
  function ThreadRecord(id: string, title: string): Value {
    Obj(map["id" := Str(id), "title" := Str(title)])
  }

  /** The optimistic user message renders on the right, showing the text typed, with a timestamp. */
  lemma UserMessageRendersAsUser(text: string, stamp: Stamp)
    ensures var b := MessageBubble.Render(UserMessage(text, stamp));
      && b.Some?
      && MessageBubble.SideOf(b.value) == MessageBubble.Right
      && b.value.text == (if text == "" then Str("") else Str(text))
      && b.value.showsTimestamp == (stamp.iso != "")
  {
  }

  /** An assistant message appended from a reply renders on the left, showing the answer. */
  lemma AssistantMessageRendersAsAssistant(answer: Value, stamp: Stamp)
    requires Truthy(answer)
    ensures var b := MessageBubble.Render(AssistantMessage(answer, stamp));
      && b.Some?
      && MessageBubble.SideOf(b.value) == MessageBubble.Left
      && b.value.text == answer
  {
  }

  /** A reply carrying only an answer: it lists no messages and no thread, and its answer text is the answer. */
  lemma AnswerOnlyReply(answer: string)
    ensures var reply := Obj(map["answer" := Str(answer)]);
      && !Member(reply, "messages").Arr? && !Truthy(Member(reply, "thread"))
      && AnswerText(reply) == (if answer == "" then Str("") else Str(answer))
  {
  }

  /** Mount: the first refresh selects the first listed thread and lowers the loading flag. */
  method MountSelectsFirst(token: string, list: seq<Value>) returns (after: ChatState)
    requires token != ""
    ensures after.threads == list && !after.threadsLoading
    ensures |list| > 0 ==> after.activeThreadId == IdOf(list[0])
    ensures |list| == 0 ==> after.activeThreadId == Null
  {
    var c := new Chat(token);
    var call := c.BeginRefresh(RefreshOptions(true, Undefined));
    c.CompleteRefresh(call.value, Success(Arr(list)));
    after := c.State();
  }

  /**
   * The exchange: thread "t1" is selected and its messages load empty,
   * "hello" is sent, and the reply's answer is "hi there". The list ends as
   * the user's message followed by the assistant's.
   */
  method HelloExchange(token: string, sentAt: Stamp, answeredAt: Stamp)
    returns (load: Option<Kura.Call>, start: SendStart, after: ChatState)
    requires token != ""
    ensures load == Some(Kura.GetMessages(Str("t1"), token))
    ensures start == Sends(Kura.SendMessage(Str("t1"), "hello", token))
    ensures after.messages == [UserMessage("hello", sentAt), AssistantMessage(Str("hi there"), answeredAt)]
    ensures after.activeThreadId == Str("t1") && !after.sending && after.error == None
  {
    var c := new Chat(token);
    c.Select(ThreadRecord("t1", "Hi"));
    load := c.ActiveIdEffect();
    c.CompleteLoad(Success(Arr([])));
    start := c.BeginSend("hello", sentAt);
    assert c.messages == [UserMessage("hello", sentAt)];
    var reply := Obj(map["answer" := Str("hi there")]);
    AnswerOnlyReply("hi there");
    var m := Reconciled(c.messages, reply, answeredAt);
    assert m == [UserMessage("hello", sentAt), AssistantMessage(Str("hi there"), answeredAt)];
    c.CompleteSend(Success(reply), answeredAt);
    after := c.State();
  }

  /**
   * A failed send, with nothing else touching the list meanwhile, restores
   * the list to what it was before the send and shows the gateway's message.
   */
  method FailedSendRestoresList(token: string, thread: Value, loaded: seq<Value>, text: string,
                                sentAt: Stamp, failedAt: Stamp, failure: string)
    returns (before: ChatState, after: ChatState)
    requires token != "" && Truthy(IdOf(thread))
    ensures before.messages == loaded
    ensures after.messages == before.messages
    ensures after.error == Some(ErrorText(failure, "Failed to send message")) && !after.sending
    ensures after.activeThreadId == before.activeThreadId && after.threads == before.threads
  {
    var c := new Chat(token);
    c.Select(thread);
    var load := c.ActiveIdEffect();
    c.CompleteLoad(Success(Arr(loaded)));
    before := c.State();
    var start := c.BeginSend(text, sentAt);
    DropLastUndoesAppend(loaded, UserMessage(text, sentAt));
    c.CompleteSend(Failure(failure), failedAt);
    after := c.State();
  }

  /**
   * With no active thread, sending only creates a thread: once the creation
   * settles the new thread is active and the message list is empty, so the
   * typed text was neither shown nor sent.
   */
  method SendWithoutThreadOnlyCreates(token: string, text: string, stamp: Stamp, created: Value)
    returns (start: SendStart, after: ChatState)
    requires Truthy(IdOf(CreatedThread(created)))
    ensures start == CreatesThread(Kura.CreateThread(NewChatTitle, token))
    ensures after.messages == [] && !after.sending
    ensures after.threads == [CreatedThread(created)] && after.activeThreadId == IdOf(CreatedThread(created))
  {
    var c := new Chat(token);
    start := c.BeginSend(text, stamp);
    c.CompleteCreate(Success(created));
    after := c.State();
  }

  /**
   * While a send is in flight the input is disabled (its `disabled` is the
   * single `sending` flag): a click sends nothing and keeps the typed text.
   */
  method InputBlockedWhileSending(token: string, thread: Value, text: string, stamp: Stamp, typed: string)
    returns (second: Option<string>, kept: string)
    requires Truthy(IdOf(thread))
    ensures second == None && kept == typed
  {
    var c := new Chat(token);
    c.Select(thread);
    var start := c.BeginSend(text, stamp);
    var input := new ChatInput.Input();
    input.Change(typed);
    second := input.Click(c.sending);
    kept := input.value;
  }

  /**
   * A send to thread A fails after the user has switched to thread B and
   * B's messages have loaded: the rollback drops B's last message, not the
   * message typed in A.
   */
  method RollbackAfterSwitchDropsOtherThreadsMessage(token: string, a: Value, b: Value, bMessages: seq<Value>,
                                                    text: string, sentAt: Stamp, failedAt: Stamp, failure: string)
    returns (after: ChatState)
    requires token != "" && Truthy(IdOf(a)) && Truthy(IdOf(b))
    requires bMessages != []
    ensures after.activeThreadId == IdOf(b)
    ensures after.messages == bMessages[..|bMessages| - 1]
  {
    var c := new Chat(token);
    c.Select(a);
    var loadA := c.ActiveIdEffect();
    c.CompleteLoad(Success(Arr([])));
    var start := c.BeginSend(text, sentAt);
    c.Select(b);
    var loadB := c.ActiveIdEffect();
    c.CompleteLoad(Success(Arr(bMessages)));
    c.CompleteSend(Failure(failure), failedAt);
    after := c.State();
  }

  /**
   * A send to thread A succeeds after the user has switched to thread B:
   * A's answer is appended to B's message list.
   */
  method ReplyLandsOnOtherThread(token: string, a: Value, b: Value, bMessages: seq<Value>,
                                 text: string, answer: string, sentAt: Stamp, answeredAt: Stamp)
    returns (after: ChatState)
    requires token != "" && Truthy(IdOf(a)) && Truthy(IdOf(b)) && answer != ""
    ensures after.activeThreadId == IdOf(b)
    ensures after.messages == bMessages + [AssistantMessage(Str(answer), answeredAt)]
  {
    var c := new Chat(token);
    c.Select(a);
    var start := c.BeginSend(text, sentAt);
    c.Select(b);
    var loadB := c.ActiveIdEffect();
    c.CompleteLoad(Success(Arr(bMessages)));
    AnswerOnlyReply(answer);
    c.CompleteSend(Success(Obj(map["answer" := Str(answer)])), answeredAt);
    after := c.State();
  }

  /**
   * The load for thread A settles after the load for thread B: A's
   * messages are shown while B is active.
   */
  method StaleLoadOverwrites(token: string, a: Value, b: Value, aMessages: seq<Value>, bMessages: seq<Value>)
    returns (loadA: Kura.Call, loadB: Kura.Call, after: ChatState)
    requires token != "" && Truthy(IdOf(a)) && Truthy(IdOf(b))
    ensures loadA == Kura.GetMessages(IdOf(a), token) && loadB == Kura.GetMessages(IdOf(b), token)
    ensures after.activeThreadId == IdOf(b)
    ensures after.messages == aMessages
  {
    var c := new Chat(token);
    c.Select(a);
    var callA := c.ActiveIdEffect();
    c.Select(b);
    var callB := c.ActiveIdEffect();
    loadA, loadB := callA.value, callB.value;
    c.CompleteLoad(Success(Arr(bMessages)));
    c.CompleteLoad(Success(Arr(aMessages)));
    after := c.State();
  }

  /**
   * The threads A and B are listed and A, the first, is selected by the
   * mount refresh. A is deleted while active, and the user selects B before
   * the delete settles: the completion removes A from the list and, judging
   * by the active id it captured, also clears B's selection and messages.
   */
  method DeleteClearsNewerSelection(token: string, a: Value, b: Value, bMessages: seq<Value>)
    returns (after: ChatState)
    requires token != "" && Truthy(IdOf(a)) && Truthy(IdOf(b)) && IdOf(a) != IdOf(b)
    ensures after.threads == [b]
    ensures after.activeThreadId == Null && after.messages == []
  {
    var c := new Chat(token);
    var refresh := c.BeginRefresh(RefreshOptions(true, Undefined));
    c.CompleteRefresh(refresh.value, Success(Arr([a, b])));
    var call := c.BeginDelete(a, true);
    c.Select(b);
    var loadB := c.ActiveIdEffect();
    c.CompleteLoad(Success(Arr(bMessages)));
    assert [a, b][1..] == [b];
    WithoutIdSingle(b, IdOf(a));
    c.CompleteDelete(call.value, Success(Bool(true)));
    after := c.State();
  }

  /**
   * While the mount refresh is in flight the thread list shows no threads
   * to select, but its "New Chat" button is live. A thread created in that
   * window and then missing from the refresh's list is dropped from the
   * list, and the selection moves from it to the first listed thread.
   */
  method MountRefreshDropsCreatedThread(token: string, created: Value, list: seq<Value>)
    returns (after: ChatState)
    requires token != "" && Truthy(IdOf(CreatedThread(created)))
    requires |list| > 0 && !Listed(list, IdOf(CreatedThread(created)))
    ensures after.threads == list && !Listed(after.threads, IdOf(CreatedThread(created)))
    ensures after.activeThreadId == IdOf(list[0]) && after.activeThreadId != IdOf(CreatedThread(created))
  {
    var c := new Chat(token);
    var call := c.BeginRefresh(RefreshOptions(true, Undefined));
    var create := c.BeginCreate();
    c.CompleteCreate(Success(created));
    c.CompleteRefresh(call.value, Success(Arr(list)));
    after := c.State();
  }
}

/**
 * The chat component's state and handlers (src/components/Chat.jsx).
 *
 * Every handler that awaits the gateway is split at its `await`: `BeginX`
 * runs the part before it and returns what the pending call captured (the
 * request, and any state the handler's closure read); `CompleteX` runs the
 * part after it, given how the call settled. Any other step may run
 * between the two, which is how interleavings are stated. The effect that
 * reacts to a change of `activeThreadId` is the explicit step
 * `ActiveIdEffect`.
 */
module ChatSession {
  import opened Wrappers
  import opened JsValue
  import opened ChatUpdates
  import Kura

  /** The component's seven pieces of state. */
  datatype ChatState = ChatState(
    threads: seq<Value>,
    threadsLoading: bool,
    messages: seq<Value>,
    messagesLoading: bool,
    sending: bool,
    activeThreadId: Value,
    error: Option<string>)

  /** A pending `refreshThreads`: its request, its options, and the active id its closure captured. */
  datatype RefreshCall = RefreshCall(request: Kura.Call, opts: RefreshOptions, activeAtCall: Value)

  /** A pending `handleDeleteThread`: its request, the thread's id, and the active id its closure captured. */
  datatype DeleteCall = DeleteCall(request: Kura.Call, threadId: Value, activeAtCall: Value)

  /** What `handleSendMessage` started: a thread creation (no thread active) or the send itself. */
  datatype SendStart = CreatesThread(request: Kura.Call) | Sends(request: Kura.Call)

  const NewChatTitle: string := "New Chat"

  class Chat {
    const token: string
    var threads: seq<Value>
    var threadsLoading: bool
    var messages: seq<Value>
    var messagesLoading: bool
    var sending: bool
    var activeThreadId: Value
    var error: Option<string>

    function State(): ChatState
      reads this
    {
      ChatState(threads, threadsLoading, messages, messagesLoading, sending, activeThreadId, error)
    }

    /** The initial `useState` values. */
    constructor(token: string)
      ensures this.token == token
      ensures State() == ChatState([], true, [], false, false, Null, None)
    {
      this.token := token;
      threads := [];
      threadsLoading := true;
      messages := [];
      messagesLoading := false;
      sending := false;
      activeThreadId := Null;
      error := None;
    }

    /** `refreshThreads(opts)` up to its await: nothing without a token, else the loading flag is raised. */
    method BeginRefresh(opts: RefreshOptions) returns (call: Option<RefreshCall>)
      modifies this
      ensures token == "" ==> call == None && State() == old(State())
      ensures token != "" ==> call == Some(RefreshCall(Kura.GetThreads(token), opts, old(activeThreadId)))
      ensures token != "" ==> State() == old(State()).(threadsLoading := true)
    {
      if token == "" {
        return None;
      }
      threadsLoading := true;
      call := Some(RefreshCall(Kura.GetThreads(token), opts, activeThreadId));
    }

    /**
     * `refreshThreads` after its await: on success the list is replaced by
     * the normalised payload and the active id is chosen by the fallback
     * rule, judged against the id captured at the call; on failure only the
     * error is set. The loading flag is lowered in both cases.
     */
    method CompleteRefresh(call: RefreshCall, reply: Result<Value, string>)
      modifies this
      ensures reply.Success? ==>
                var list := NormaliseList(reply.value, "threads");
                State() == old(State()).(threads := list, threadsLoading := false,
                  activeThreadId := RefreshedActive(list, call.opts, call.activeAtCall, old(activeThreadId)))
      ensures reply.Failure? ==>
                State() == old(State()).(error := Some(ErrorText(reply.error, "Failed to load threads")),
                                         threadsLoading := false)
    {
      match reply
      case Success(data) =>
        var list := NormaliseList(data, "threads");
        threads := list;
        if call.opts.selectFirst && |list| > 0 {
          activeThreadId := IdOf(list[0]);
        } else if Truthy(call.opts.selectNew) && Truthy(IdOf(call.opts.selectNew)) {
          activeThreadId := IdOf(call.opts.selectNew);
        } else if Truthy(call.activeAtCall) && !Listed(list, call.activeAtCall) {
          activeThreadId := if |list| > 0 then Or(IdOf(list[0]), Null) else Null;
        }
        threadsLoading := false;
      case Failure(message) =>
        error := Some(ErrorText(message, "Failed to load threads"));
        threadsLoading := false;
    }

    /** `loadMessages(threadId)` up to its await: nothing for a falsy id or without a token. */
    method BeginLoad(threadId: Value) returns (call: Option<Kura.Call>)
      modifies this
      ensures !Truthy(threadId) || token == "" ==> call == None && State() == old(State())
      ensures Truthy(threadId) && token != "" ==>
                call == Some(Kura.GetMessages(threadId, token)) && State() == old(State()).(messagesLoading := true)
    {
      if !Truthy(threadId) || token == "" {
        return None;
      }
      messagesLoading := true;
      call := Some(Kura.GetMessages(threadId, token));
    }

    /**
     * `loadMessages` after its await: the shared message list becomes the
     * normalised payload, or [] with the error set. Which thread the load
     * was for is not consulted.
     */
    method CompleteLoad(reply: Result<Value, string>)
      modifies this
      ensures reply.Success? ==>
                State() == old(State()).(messages := NormaliseList(reply.value, "messages"), messagesLoading := false)
      ensures reply.Failure? ==>
                State() == old(State()).(error := Some(ErrorText(reply.error, "Failed to load messages")),
                                         messages := [], messagesLoading := false)
    {
      match reply
      case Success(data) =>
        messages := NormaliseList(data, "messages");
        messagesLoading := false;
      case Failure(message) =>
        error := Some(ErrorText(message, "Failed to load messages"));
        messages := [];
        messagesLoading := false;
    }

    /** The effect run when `activeThreadId` changes: load that thread's messages, or clear the list. */
    method ActiveIdEffect() returns (call: Option<Kura.Call>)
      modifies this
      ensures Truthy(old(activeThreadId)) && token != "" ==>
                call == Some(Kura.GetMessages(old(activeThreadId), token))
                && State() == old(State()).(messagesLoading := true)
      ensures Truthy(old(activeThreadId)) && token == "" ==> call == None && State() == old(State())
      ensures !Truthy(old(activeThreadId)) ==> call == None && State() == old(State()).(messages := [])
    {
      if Truthy(activeThreadId) {
        call := BeginLoad(activeThreadId);
      } else {
        messages := [];
        call := None;
      }
    }

    /** `handleCreateThread` up to its await: the request only, no state change. */
    method BeginCreate() returns (call: Kura.Call)
      ensures call == Kura.CreateThread(NewChatTitle, token)
    {
      call := Kura.CreateThread(NewChatTitle, token);
    }

    /**
     * `handleCreateThread` after its await: a thread with a truthy id goes
     * first in the list, becomes active and empties the messages; a reply
     * without one changes nothing but the error.
     */
    method CompleteCreate(reply: Result<Value, string>)
      modifies this
      ensures reply.Success? && Truthy(IdOf(CreatedThread(reply.value))) ==>
                var created := CreatedThread(reply.value);
                State() == old(State()).(threads := [created] + old(threads),
                                         activeThreadId := IdOf(created), messages := [])
      ensures reply.Success? && !Truthy(IdOf(CreatedThread(reply.value))) ==>
                State() == old(State()).(error := Some("Thread response missing id"))
      ensures reply.Failure? ==>
                State() == old(State()).(error := Some(ErrorText(reply.error, "Failed to create thread")))
    {
      match reply
      case Success(data) =>
        var created := CreatedThread(data);
        if !Truthy(IdOf(created)) {
          error := Some(ErrorText("Thread response missing id", "Failed to create thread"));
        } else {
          threads := [created] + threads;
          activeThreadId := IdOf(created);
          messages := [];
        }
      case Failure(message) =>
        error := Some(ErrorText(message, "Failed to create thread"));
    }

    /** `handleSelectThread(thread)`. */
    method Select(thread: Value)
      modifies this
      ensures State() == old(State()).(activeThreadId := IdOf(thread))
    {
      activeThreadId := IdOf(thread);
    }

    /** `handleDeleteThread(thread)` up to its await, with the user's answer to the confirmation as input. */
    method BeginDelete(thread: Value, confirmed: bool) returns (call: Option<DeleteCall>)
      ensures !confirmed ==> call == None
      ensures confirmed ==> call == Some(DeleteCall(Kura.DeleteThread(IdOf(thread), token), IdOf(thread), activeThreadId))
    {
      if !confirmed {
        return None;
      }
      call := Some(DeleteCall(Kura.DeleteThread(IdOf(thread), token), IdOf(thread), activeThreadId));
    }

    /**
     * `handleDeleteThread` after its await: on success every thread with the
     * id is filtered out, and the active id and messages are cleared when
     * the captured active id was that thread's; on failure only the error
     * is set.
     */
    method CompleteDelete(call: DeleteCall, reply: Result<Value, string>)
      modifies this
      ensures reply.Success? && call.activeAtCall == call.threadId ==>
                State() == old(State()).(threads := WithoutId(old(threads), call.threadId),
                                         activeThreadId := Null, messages := [])
      ensures reply.Success? && call.activeAtCall != call.threadId ==>
                State() == old(State()).(threads := WithoutId(old(threads), call.threadId))
      ensures reply.Failure? ==>
                State() == old(State()).(error := Some(ErrorText(reply.error, "Failed to delete thread")))
    {
      match reply
      case Success(_) =>
        threads := WithoutId(threads, call.threadId);
        if call.activeAtCall == call.threadId {
          activeThreadId := Null;
          messages := [];
        }
      case Failure(message) =>
        error := Some(ErrorText(message, "Failed to delete thread"));
    }

    /**
     * `handleSendMessage(text)` up to its await. With no active thread it
     * only starts a thread creation: the text is neither appended nor sent.
     * Otherwise the user message is appended, `sending` is raised and the
     * error cleared.
     */
    method BeginSend(text: string, stamp: Stamp) returns (start: SendStart)
      modifies this
      ensures !Truthy(old(activeThreadId)) ==>
                start == CreatesThread(Kura.CreateThread(NewChatTitle, token)) && State() == old(State())
      ensures Truthy(old(activeThreadId)) ==>
                && start == Sends(Kura.SendMessage(old(activeThreadId), text, token))
                && State() == old(State()).(messages := old(messages) + [UserMessage(text, stamp)],
                                            sending := true, error := None)
    {
      if !Truthy(activeThreadId) {
        var create := BeginCreate();
        return CreatesThread(create);
      }
      messages := messages + [UserMessage(text, stamp)];
      sending := true;
      error := None;
      start := Sends(Kura.SendMessage(activeThreadId, text, token));
    }

    /**
     * `handleSendMessage` after its await. Nothing captured at the send is
     * consulted: the reply is applied to the shared message list whatever
     * thread is active now. On success the list is reconciled and a returned
     * thread moves to the front and becomes active; on failure the error is
     * set and the last message, whichever it is, is dropped. `sending` is
     * lowered in both cases.
     */
    method CompleteSend(reply: Result<Value, string>, stamp: Stamp)
      modifies this
      ensures reply.Success? && !Truthy(Member(reply.value, "thread")) ==>
                State() == old(State()).(messages := Reconciled(old(messages), reply.value, stamp), sending := false)
      ensures reply.Success? && Truthy(Member(reply.value, "thread")) ==>
                var thread := Member(reply.value, "thread");
                State() == old(State()).(messages := Reconciled(old(messages), reply.value, stamp),
                                         threads := MoveToFront(old(threads), thread),
                                         activeThreadId := IdOf(thread), sending := false)
      ensures reply.Failure? ==>
                State() == old(State()).(error := Some(ErrorText(reply.error, "Failed to send message")),
                                         messages := DropLast(old(messages)), sending := false)
    {
      match reply
      case Success(response) =>
        var listed := Member(response, "messages");
        if Truthy(listed) && listed.Arr? {
          messages := listed.items;
        } else {
          var text := AnswerText(response);
          if Truthy(text) {
            messages := messages + [AssistantMessage(text, stamp)];
          }
        }
        var thread := Member(response, "thread");
        if Truthy(thread) {
          threads := MoveToFront(threads, thread);
          activeThreadId := IdOf(thread);
        }
        sending := false;
      case Failure(message) =>
        error := Some(ErrorText(message, "Failed to send message"));
        messages := DropLast(messages);
        sending := false;
    }
  }
}

/**
 * The list transforms and decisions of the chat component
 * (src/components/Chat.jsx): the updater callbacks passed to the state
 * setters, payload normalisation, the active-thread fallback and the
 * messages the component synthesises. All of them are pure.
 */
module ChatUpdates {
  import opened Wrappers
  import opened JsValue

  /** `t.id`. */
  function IdOf(t: Value): Value {
    Member(t, "id")
  }

  /** `list.some((t) => t.id === id)`. */
  predicate Listed(list: seq<Value>, id: Value) {
    exists t :: t in list && IdOf(t) == id
  }

  // ---------------------------------------------------------------------------
  // Filtering a thread out by id

  /** `prev.filter((t) => t.id !== id)`: no entry with that id is left. */
  function WithoutId(ts: seq<Value>, id: Value): (r: seq<Value>)
    ensures forall i :: 0 <= i < |r| ==> IdOf(r[i]) != id
    ensures |r| <= |ts|
  {
    if ts == [] then []
    else if IdOf(ts[0]) == id then WithoutId(ts[1..], id)
    else [ts[0]] + WithoutId(ts[1..], id)
  }

  /** Removes exactly the entries with that id: every other entry keeps its number of occurrences. */
  lemma {:induction false} WithoutIdCounts(ts: seq<Value>, id: Value, t: Value)
    ensures multiset(WithoutId(ts, id))[t] == if IdOf(t) == id then 0 else multiset(ts)[t]
  {
    if ts != [] {
      assert ts == [ts[0]] + ts[1..];
      WithoutIdCounts(ts[1..], id, t);
    }
  }

  /** Filtering distributes over concatenation, so the kept entries stay in their original order. */
  lemma {:induction false} WithoutIdAppend(a: seq<Value>, b: seq<Value>, id: Value)
    ensures WithoutId(a + b, id) == WithoutId(a, id) + WithoutId(b, id)
  {
    if a == [] {
      assert a + b == b;
    } else {
      var ab := a + b;
      assert ab != [] && ab[0] == a[0] && ab[1..] == a[1..] + b;
      WithoutIdAppend(a[1..], b, id);
      if IdOf(a[0]) == id {
        assert WithoutId(ab, id) == WithoutId(a[1..] + b, id);
        assert WithoutId(a, id) == WithoutId(a[1..], id);
      } else {
        assert WithoutId(ab, id) == [a[0]] + WithoutId(a[1..] + b, id);
        assert WithoutId(a, id) == [a[0]] + WithoutId(a[1..], id);
      }
    }
  }

  /** A single entry is kept exactly when its id differs. */
  lemma WithoutIdSingle(t: Value, id: Value)
    ensures WithoutId([t], id) == if IdOf(t) == id then [] else [t]
  {
    assert [t][1..] == [];
  }

  /** A list in which no entry has the id is left as it is. */
  lemma {:induction false} WithoutIdUnlisted(ts: seq<Value>, id: Value)
    requires !Listed(ts, id)
    ensures WithoutId(ts, id) == ts
  {
    if ts != [] {
      assert ts[0] in ts;
      assert !Listed(ts[1..], id) by {
        forall t | t in ts[1..] ensures IdOf(t) != id {
          assert t in ts;
        }
      }
      WithoutIdUnlisted(ts[1..], id);
    }
  }

  /** Filtering twice by the same id is filtering once. */
  lemma WithoutIdIdempotent(ts: seq<Value>, id: Value)
    ensures WithoutId(WithoutId(ts, id), id) == WithoutId(ts, id)
  {
    WithoutIdUnlisted(WithoutId(ts, id), id);
  }

  // ---------------------------------------------------------------------------
  // Moving a returned thread to the front

  /**
   * `[thread, ...prev.filter((t) => t.id !== thread.id)]`: the thread is
   * first and no other entry shares its id.
   */
  function MoveToFront(ts: seq<Value>, thread: Value): (r: seq<Value>)
    ensures 0 < |r| && r[0] == thread
    ensures forall i :: 1 <= i < |r| ==> IdOf(r[i]) != IdOf(thread)
  {
    var rest := WithoutId(ts, IdOf(thread));
    assert forall i :: 1 <= i < |[thread] + rest| ==> ([thread] + rest)[i] in rest;
    [thread] + rest
  }

  /** Every entry with another id is kept, as often as it occurred. */
  lemma MoveToFrontCounts(ts: seq<Value>, thread: Value, t: Value)
    requires IdOf(t) != IdOf(thread)
    ensures multiset(MoveToFront(ts, thread))[t] == multiset(ts)[t]
  {
    WithoutIdCounts(ts, IdOf(thread), t);
  }

  /** The others keep their relative order: after the moved thread comes the list filtered by its id. */
  lemma MoveToFrontKeepsOrder(ts: seq<Value>, thread: Value)
    ensures MoveToFront(ts, thread)[1..] == WithoutId(ts, IdOf(thread))
  {
  }

  /** Receiving the same thread twice leaves the list as receiving it once. */
  lemma {:induction false} MoveToFrontIdempotent(ts: seq<Value>, thread: Value)
    ensures MoveToFront(MoveToFront(ts, thread), thread) == MoveToFront(ts, thread)
  {
    var id := IdOf(thread);
    var rest := WithoutId(ts, id);
    WithoutIdAppend([thread], rest, id);
    WithoutIdSingle(thread, id);
    WithoutIdIdempotent(ts, id);
  }

  // ---------------------------------------------------------------------------
  // The optimistic append and its rollback

  /** `prev.slice(0, -1)`: the last entry dropped, an empty list left empty. */
  function DropLast(ms: seq<Value>): (r: seq<Value>)
    ensures ms == [] ==> r == []
    ensures ms != [] ==> r + [ms[|ms| - 1]] == ms
  {
    if ms == [] then [] else ms[..|ms| - 1]
  }

  /** When nothing else touched the list, rollback restores it exactly. */
  lemma DropLastUndoesAppend(ms: seq<Value>, m: Value)
    ensures DropLast(ms + [m]) == ms
  {
    assert (ms + [m])[..|ms|] == ms;
  }

  /**
   * Rollback is blind: whatever is last goes. If the list was replaced after
   * the optimistic append, the entry removed is one that was never appended.
   */
  lemma DropLastIsBlind(ms: seq<Value>)
    requires ms != []
    ensures |DropLast(ms)| == |ms| - 1
    ensures ms[|ms| - 1] !in multiset(DropLast(ms)) || multiset(DropLast(ms))[ms[|ms| - 1]] < multiset(ms)[ms[|ms| - 1]]
  {
    var r := DropLast(ms);
    assert ms == r + [ms[|ms| - 1]];
    assert multiset(ms) == multiset(r) + multiset{ms[|ms| - 1]};
  }

  // ---------------------------------------------------------------------------
  // Payload normalisation

  /**
   * `Array.isArray(data?.key) ? data.key : Array.isArray(data) ? data : []`:
   * never an error, whatever the payload.
   */
  function NormaliseList(data: Value, key: string): (r: seq<Value>)
    ensures r == [] || (Member(data, key).Arr? && r == Member(data, key).items) || (data.Arr? && r == data.items)
    ensures Member(data, key).Arr? ==> r == Member(data, key).items
  {
    if Member(data, key).Arr? then Member(data, key).items
    else if data.Arr? then data.items
    else []
  }

  /** A `{key: [...]}` wrapper and a bare array normalise to the same list; anything else to []. */
  lemma NormaliseListCases(xs: seq<Value>, key: string, others: map<string, Value>, data: Value)
    ensures NormaliseList(Obj(others[key := Arr(xs)]), key) == xs
    ensures NormaliseList(Arr(xs), key) == xs
    ensures !Member(data, key).Arr? && !data.Arr? ==> NormaliseList(data, key) == []
  {
  }

  // ---------------------------------------------------------------------------
  // The active thread after a refresh

  /** The options `refreshThreads` reads. */
  datatype RefreshOptions = RefreshOptions(selectFirst: bool, selectNew: Value)

  /**
   * The active id after a successful refresh, given the new list, the
   * options, the active id the call captured and the active id now.
   */
  function RefreshedActive(list: seq<Value>, opts: RefreshOptions, activeAtCall: Value, current: Value): (r: Value)
    ensures r == current || r == Null || r == IdOf(opts.selectNew) || (|list| > 0 && r == IdOf(list[0]))
  {
    if opts.selectFirst && |list| > 0 then IdOf(list[0])
    else if Truthy(opts.selectNew) && Truthy(IdOf(opts.selectNew)) then IdOf(opts.selectNew)
    else if Truthy(activeAtCall) && !Listed(list, activeAtCall) then
      (if |list| > 0 then Or(IdOf(list[0]), Null) else Null)
    else current
  }

  /**
   * With `selectFirst` and a non-empty list the first thread's id is chosen;
   * otherwise (and without `selectNew`) a captured id missing from the list
   * is replaced by the first id or null, and one still present leaves the
   * active id as it is.
   */
  lemma RefreshedActiveCases(list: seq<Value>, opts: RefreshOptions, activeAtCall: Value, current: Value)
    ensures opts.selectFirst && |list| > 0 ==> RefreshedActive(list, opts, activeAtCall, current) == IdOf(list[0])
    ensures (!(opts.selectFirst && |list| > 0) && !Truthy(IdOf(opts.selectNew))
             && Truthy(activeAtCall) && !Listed(list, activeAtCall)) ==>
              RefreshedActive(list, opts, activeAtCall, current)
                == (if |list| > 0 && Truthy(IdOf(list[0])) then IdOf(list[0]) else Null)
    ensures (!(opts.selectFirst && |list| > 0) && !Truthy(IdOf(opts.selectNew))
             && (Listed(list, activeAtCall) || !Truthy(activeAtCall))) ==>
              RefreshedActive(list, opts, activeAtCall, current) == current
  {
  }

  // ---------------------------------------------------------------------------
  // Messages the component synthesises

  /** The opaque clock readings a handler takes: `Date.now()` and `new Date().toISOString()`. */
  datatype Stamp = Stamp(now: nat, iso: string)

  /** The optimistic user message appended before the send. */
  function UserMessage(text: string, stamp: Stamp): (m: Value)
    ensures m.Obj? && m.fields.Keys == {"id", "role", "content", "created_at"}
    ensures Member(m, "role") == Str("user") && Member(m, "content") == Str(text)
    ensures Member(m, "created_at") == Str(stamp.iso) && IdOf(m) == Str("user-" + Decimal(stamp.now))
  {
    Obj(map["id" := Str("user-" + Decimal(stamp.now)), "role" := Str("user"),
            "content" := Str(text), "created_at" := Str(stamp.iso)])
  }

  /** The assistant message appended for an answer-only reply. */
  function AssistantMessage(text: Value, stamp: Stamp): (m: Value)
    ensures m.Obj? && m.fields.Keys == {"id", "role", "content", "created_at"}
    ensures Member(m, "role") == Str("assistant") && Member(m, "content") == text
    ensures Member(m, "created_at") == Str(stamp.iso) && IdOf(m) == Str("assistant-" + Decimal(stamp.now))
  {
    Obj(map["id" := Str("assistant-" + Decimal(stamp.now)), "role" := Str("assistant"),
            "content" := text, "created_at" := Str(stamp.iso)])
  }

  /** `response?.answer || response?.message || ""`. */
  function AnswerText(response: Value): (r: Value)
    ensures r == Member(response, "answer") || r == Member(response, "message") || r == Str("")
    ensures !Truthy(r) ==> r == Str("")
  {
    Or(Member(response, "answer"), Or(Member(response, "message"), Str("")))
  }

  /** The answer text is non-empty exactly when `answer` or `message` is truthy, and `answer` wins. */
  lemma AnswerTextChoice(response: Value)
    ensures Truthy(AnswerText(response)) <==> Truthy(Member(response, "answer")) || Truthy(Member(response, "message"))
    ensures Truthy(Member(response, "answer")) ==> AnswerText(response) == Member(response, "answer")
  {
  }

  /**
   * The message list after a successful send: a `messages` array in the
   * response replaces the list wholesale; otherwise exactly one assistant
   * message is appended when the answer text is truthy, and none when not.
   */
  function Reconciled(prev: seq<Value>, response: Value, stamp: Stamp): (r: seq<Value>)
    ensures Member(response, "messages").Arr? ==> r == Member(response, "messages").items
    ensures !Member(response, "messages").Arr? ==>
              && |r| == |prev| + (if Truthy(AnswerText(response)) then 1 else 0)
              && r[..|prev|] == prev
    ensures !Member(response, "messages").Arr? && Truthy(AnswerText(response)) ==>
              r[|prev|] == AssistantMessage(AnswerText(response), stamp)
  {
    if Member(response, "messages").Arr? then Member(response, "messages").items
    else
      var text := AnswerText(response);
      if Truthy(text) then prev + [AssistantMessage(text, stamp)] else prev
  }

  /** `data?.thread || data`: the created thread, wrapped or bare. */
  function CreatedThread(data: Value): (r: Value)
    ensures r == Member(data, "thread") || r == data
    ensures Truthy(Member(data, "thread")) ==> r == Member(data, "thread")
    ensures !Truthy(Member(data, "thread")) ==> r == data
  {
    Or(Member(data, "thread"), data)
  }

  /** `err.message || fallback`. */
  function ErrorText(message: string, fallback: string): (r: string)
    ensures message != "" ==> r == message
    ensures message == "" ==> r == fallback
  {
    if message != "" then message else fallback
  }

  // ---------------------------------------------------------------------------
  // The active thread lookup

  /** Position of the first entry with the id, or the length when there is none. */
  function FirstWithId(ts: seq<Value>, id: Value): (k: nat)
    ensures k <= |ts|
    ensures forall j :: 0 <= j < k ==> IdOf(ts[j]) != id
    ensures k < |ts| <==> Listed(ts, id)
    ensures k < |ts| ==> IdOf(ts[k]) == id
  {
    if ts == [] then 0
    else if IdOf(ts[0]) == id then 0
    else
      assert forall t :: t in ts ==> t == ts[0] || t in ts[1..];
      1 + FirstWithId(ts[1..], id)
  }

  /**
   * `threads.find((t) => t.id === activeThreadId) || null`: the first listed
   * thread with the active id, or null when there is none.
   */
  function ActiveThread(threads: seq<Value>, active: Value): (r: Value)
    ensures !Listed(threads, active) ==> r == Null
    ensures r != Null ==> r in threads && IdOf(r) == active
    ensures Listed(threads, active) ==> r == Or(threads[FirstWithId(threads, active)], Null)
  {
    var k := FirstWithId(threads, active);
    if k < |threads| then Or(threads[k], Null) else Null
  }

  /** `activeThread?.model || threads?.[0]?.model || "mistral-local"`: the model the status badge shows. */
  function BadgeModel(threads: seq<Value>, active: Value): (r: Value)
    ensures Truthy(r)
    ensures Truthy(Member(ActiveThread(threads, active), "model")) ==> r == Member(ActiveThread(threads, active), "model")
    ensures !Truthy(Member(ActiveThread(threads, active), "model")) && |threads| > 0 && Truthy(Member(threads[0], "model")) ==>
              r == Member(threads[0], "model")
    ensures (!Truthy(Member(ActiveThread(threads, active), "model"))
             && (|threads| == 0 || !Truthy(Member(threads[0], "model")))) ==> r == Str("mistral-local")
  {
    Or(Member(ActiveThread(threads, active), "model"),
       Or(if |threads| > 0 then Member(threads[0], "model") else Undefined, Str("mistral-local")))
  }
}

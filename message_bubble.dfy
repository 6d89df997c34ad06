/**
 * How one message is shown (src/components/MessageBubble.jsx): which
 * fields supply its role, text and timestamp, and which side it sits on.
 */
module MessageBubble {
  import opened Wrappers
  import opened JsValue

  /** `justify-end` (the user's own messages) or `justify-start` (everything else). */
  datatype Side = Left | Right

  /** What a rendered bubble shows: the resolved fields and the two decisions made from them. */
  datatype Bubble = Bubble(role: Value, text: Value, createdAt: Value, isUser: bool, showsTimestamp: bool)

  /** `message.role || message.author || "assistant"`. */
  function Role(message: Value): (r: Value)
    ensures Truthy(r)
    ensures Truthy(Member(message, "role")) ==> r == Member(message, "role")
    ensures !Truthy(Member(message, "role")) && Truthy(Member(message, "author")) ==> r == Member(message, "author")
    ensures !Truthy(Member(message, "role")) && !Truthy(Member(message, "author")) ==> r == Str("assistant")
  {
    Or(Member(message, "role"), Or(Member(message, "author"), Str("assistant")))
  }

  /** `message.content || message.text || message.message || ""`. */
  function Text(message: Value): (r: Value)
    ensures !Truthy(r) ==> r == Str("")
    ensures Truthy(Member(message, "content")) ==> r == Member(message, "content")
    ensures !Truthy(Member(message, "content")) && Truthy(Member(message, "text")) ==> r == Member(message, "text")
    ensures !Truthy(Member(message, "content")) && !Truthy(Member(message, "text")) ==>
              r == (if Truthy(Member(message, "message")) then Member(message, "message") else Str(""))
  {
    Or(Member(message, "content"), Or(Member(message, "text"), Or(Member(message, "message"), Str(""))))
  }

  /** `message.created_at || message.timestamp`. */
  function CreatedAt(message: Value): (r: Value)
    ensures Truthy(r) <==> Truthy(Member(message, "created_at")) || Truthy(Member(message, "timestamp"))
    ensures Truthy(Member(message, "created_at")) ==> r == Member(message, "created_at")
    ensures !Truthy(Member(message, "created_at")) ==> r == Member(message, "timestamp")
  {
    Or(Member(message, "created_at"), Member(message, "timestamp"))
  }

  /**
   * The bubble for `message`, or nothing for a falsy message: the user's
   * exactly when the resolved role is "user", with a timestamp line exactly
   * when `created_at` or `timestamp` is truthy.
   */
  function Render(message: Value): (r: Option<Bubble>)
    ensures r.None? <==> !Truthy(message)
    ensures r.Some? ==> r.value.role == Role(message) && r.value.text == Text(message)
    ensures r.Some? ==> r.value.createdAt == CreatedAt(message)
    ensures r.Some? ==> (r.value.isUser <==> Role(message) == Str("user"))
    ensures r.Some? ==> (r.value.showsTimestamp <==>
                         Truthy(Member(message, "created_at")) || Truthy(Member(message, "timestamp")))
  {
    if !Truthy(message) then None
    else
      var role := Role(message);
      var createdAt := CreatedAt(message);
      Some(Bubble(role, Text(message), createdAt, role == Str("user"), Truthy(createdAt)))
  }

  /** The side a bubble sits on. */
  function SideOf(b: Bubble): (s: Side)
    ensures s == Right <==> b.isUser
  {
    if b.isUser then Right else Left
  }

  /**
   * Only a resolved role of exactly "user" puts a message on the right:
   * a message with no role or author, or any other role, sits on the left.
   */
  lemma OnlyUserRoleSitsRight(message: Value)
    requires Truthy(message)
    ensures SideOf(Render(message).value) == Right <==> Role(message) == Str("user")
    ensures !Truthy(Member(message, "role")) && !Truthy(Member(message, "author")) ==>
              SideOf(Render(message).value) == Left
  {
  }
}

/**
 * The web UI's side of the chat bridge: the shared application-state object
 * the game writes through scripts, and the bounded queue of chat lines the
 * game drains.  The global hooks the bridge calls when they are installed
 * only drive the page and are not part of this model.
 */
module HudBridge {
  import opened NetTypes

  const CHAT_QUEUE_MAX: nat := 128

  /** The JavaScript values a caller may pass where a flag is expected. */
  datatype JsValue = Undefined | Null | Bool(b: bool) | Number(n: real) | Str(s: string) | Object

  /** `!!v`: the boolean coercion (NaN is not modelled). */
  function Truthy(v: JsValue): bool {
    match v
    case Undefined => false
    case Null => false
    case Bool(b) => b
    case Number(n) => n != 0.0
    case Str(s) => s != []
    case Object => true
  }

  /** `String(text ?? "")` for a string or a nullish value. */
  function Coerce(text: Option<string>): string {
    match text
    case None => ""
    case Some(s) => s
  }

  /** The characters String.prototype.trim removes: white space and line terminators. */
  predicate IsJsWhitespace(c: char) {
    || c == '\t' || c == '\U{000B}' || c == '\U{000C}' || c == ' ' || c == '\U{00A0}' || c == '\U{FEFF}'
    || c == '\n' || c == '\r' || c == '\U{2028}' || c == '\U{2029}'
    || c == '\U{1680}' || ('\U{2000}' <= c <= '\U{200A}') || c == '\U{202F}' || c == '\U{205F}' || c == '\U{3000}'
  }

  function TrimStart(s: string): (t: string)
    ensures |t| <= |s| && t == s[|s| - |t|..]
    ensures t != [] ==> !IsJsWhitespace(t[0])
    ensures forall k :: 0 <= k < |s| - |t| ==> IsJsWhitespace(s[k])
    decreases |s|
  {
    if s != [] && IsJsWhitespace(s[0]) then TrimStart(s[1..]) else s
  }

  function TrimEnd(s: string): (t: string)
    ensures |t| <= |s| && t == s[..|t|]
    ensures t != [] ==> !IsJsWhitespace(t[|t| - 1])
    ensures forall k :: |t| <= k < |s| ==> IsJsWhitespace(s[k])
    decreases |s|
  {
    if s != [] && IsJsWhitespace(s[|s| - 1]) then TrimEnd(s[..|s| - 1]) else s
  }

  /** String.prototype.trim: neither starts nor ends with white space. */
  function Trim(s: string): (t: string)
    ensures t != [] ==> !IsJsWhitespace(t[0]) && !IsJsWhitespace(t[|t| - 1])
  {
    TrimEnd(TrimStart(s))
  }

  /** What Trim keeps is one contiguous piece of `s`, with only white space before and after it. */
  lemma TrimIsSlice(s: string)
    ensures var i := |s| - |TrimStart(s)|;
      var t := Trim(s);
      && i + |t| <= |s|
      && t == s[i..i + |t|]
      && (forall k :: 0 <= k < i ==> IsJsWhitespace(s[k]))
      && (forall k :: i + |t| <= k < |s| ==> IsJsWhitespace(s[k]))
  {
    var u := TrimStart(s);
    var t := TrimEnd(u);
    var i := |s| - |u|;
    assert u == s[i..];
    assert t == u[..|t|];
    assert t == s[i..i + |t|];
    forall k | i + |t| <= k < |s|
      ensures IsJsWhitespace(s[k])
    {
      assert s[k] == u[k - i];
    }
  }

  /** Trimming an all-white-space string (and only such a string) leaves nothing. */
  lemma TrimEmptyIff(s: string)
    ensures Trim(s) == [] <==> forall k :: 0 <= k < |s| ==> IsJsWhitespace(s[k])
  {
    if forall k :: 0 <= k < |s| ==> IsJsWhitespace(s[k]) {
      AllWhitespaceTrimsAway(s);
    }
  }

  lemma {:induction false} AllWhitespaceTrimsAway(s: string)
    requires forall k :: 0 <= k < |s| ==> IsJsWhitespace(s[k])
    ensures TrimStart(s) == []
    decreases |s|
  {
    if s != [] {
      AllWhitespaceTrimsAway(s[1..]);
    }
  }

  /** Trimming twice is trimming once. */
  lemma TrimIdempotent(s: string)
    ensures Trim(Trim(s)) == Trim(s)
  {
    var t := Trim(s);
    assert TrimStart(t) == t;
    assert TrimEnd(t) == t;
  }

  /** What the array slot `chatSendQueue` holds: an array, or anything else. */
  datatype QueueSlot = NotArray | Array(items: seq<string>)

  /** The fields of window.vueAppState the bridge writes. */
  class AppState {
    var chatMessages: seq<string>
    var chatSendQueue: QueueSlot
    var chatActive: bool
    var chatInputText: string
    var chatSendRequested: bool
    var chatSendText: string

    /** A fresh state object, before any field is set. */
    constructor ()
      ensures chatMessages == [] && chatSendQueue == NotArray && !chatActive
      ensures chatInputText == [] && !chatSendRequested && chatSendText == []
    {
      chatMessages := [];
      chatSendQueue := NotArray;
      chatActive := false;
      chatInputText := [];
      chatSendRequested := false;
      chatSendText := [];
    }

    method SetChatActiveState(active: JsValue)
      modifies this
      ensures chatActive == Truthy(active)
      ensures chatMessages == old(chatMessages) && chatSendQueue == old(chatSendQueue)
      ensures chatInputText == old(chatInputText)
      ensures chatSendRequested == old(chatSendRequested) && chatSendText == old(chatSendText)
    {
      chatActive := Truthy(active);
    }

    /** The page-facing entry point; only its state change is modelled. */
    method SetChatActive(active: JsValue)
      modifies this
      ensures chatActive == Truthy(active)
      ensures chatMessages == old(chatMessages) && chatSendQueue == old(chatSendQueue)
      ensures chatInputText == old(chatInputText)
      ensures chatSendRequested == old(chatSendRequested) && chatSendText == old(chatSendText)
    {
      SetChatActiveState(active);
    }

    method SetChatInputText(text: Option<string>)
      modifies this
      ensures chatInputText == Coerce(text)
      ensures chatMessages == old(chatMessages) && chatSendQueue == old(chatSendQueue) && chatActive == old(chatActive)
      ensures chatSendRequested == old(chatSendRequested) && chatSendText == old(chatSendText)
    {
      chatInputText := Coerce(text);
    }

    method ClearChatQueue()
      modifies this
      ensures chatSendQueue == Array([])
      ensures chatMessages == old(chatMessages) && chatActive == old(chatActive) && chatInputText == old(chatInputText)
      ensures chatSendRequested == old(chatSendRequested) && chatSendText == old(chatSendText)
    {
      chatSendQueue := Array([]);
    }

    method ClearLegacyChatSend()
      modifies this
      ensures !chatSendRequested && chatSendText == []
      ensures chatMessages == old(chatMessages) && chatSendQueue == old(chatSendQueue)
      ensures chatActive == old(chatActive) && chatInputText == old(chatInputText)
    {
      chatSendRequested := false;
      chatSendText := "";
    }

    method ResetChatState()
      modifies this
      ensures chatMessages == [] && chatSendQueue == Array([]) && !chatActive
      ensures chatInputText == [] && !chatSendRequested && chatSendText == []
    {
      chatMessages := [];
      ClearLegacyChatSend();
      ClearChatQueue();
      SetChatActiveState(Bool(false));
      SetChatInputText(Some(""));
    }

    /**
     * Queue one chat line.  The trimmed text is refused when empty or when
     * the queue already holds CHAT_QUEUE_MAX lines, leaving the queue as it
     * was; otherwise it is appended.  A slot that does not hold an array is
     * reset to an empty one first.
     */
    method EnqueueChatSend(text: Option<string>) returns (ok: bool)
      modifies this
      ensures var payload := Trim(Coerce(text));
        var before := if old(chatSendQueue).Array? then old(chatSendQueue).items else [];
        && (payload == [] ==> !ok && chatSendQueue == old(chatSendQueue))
        && (payload != [] ==> chatSendQueue.Array?)
        && (payload != [] && |before| >= CHAT_QUEUE_MAX ==> !ok && chatSendQueue == Array(before))
        && (payload != [] && |before| < CHAT_QUEUE_MAX ==> ok && chatSendQueue == Array(before + [payload]))
      ensures old(chatSendQueue).Array? && |old(chatSendQueue).items| <= CHAT_QUEUE_MAX ==>
                chatSendQueue.Array? && |chatSendQueue.items| <= CHAT_QUEUE_MAX
      ensures chatMessages == old(chatMessages) && chatActive == old(chatActive) && chatInputText == old(chatInputText)
      ensures chatSendRequested == old(chatSendRequested) && chatSendText == old(chatSendText)
    {
      var payload := Trim(Coerce(text));
      if payload == [] {
        return false;
      }
      if !chatSendQueue.Array? {
        ClearChatQueue();
      }
      if |chatSendQueue.items| >= CHAT_QUEUE_MAX {
        return false;
      }
      chatSendQueue := Array(chatSendQueue.items + [payload]);
      return true;
    }
  }
}

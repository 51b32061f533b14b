/**
 * The in-game chat HUD: a toggle between gameplay and chat input, a frame
 * counter that ignores Enter during the first frames after the HUD appears,
 * a one-shot request to suppress the Exit action, and the escaper that turns
 * chat text into a JavaScript string literal for the web UI.
 *
 * Key presses are inputs.  The UI layer is an input too: None when there is
 * no screen manager or UI layer, otherwise the current chat input text.
 */
module Chat {
  import opened NetTypes
  import Hud

  // ---------------------------------------------------------------- escaping

  /** Backslash, double quote, newline and carriage return need an escape inside a literal. */
  predicate IsSpecial(c: char) {
    c == '\\' || c == '"' || c == '\n' || c == '\r'
  }

  function EscapeChar(c: char): (e: string)
    ensures IsSpecial(c) ==> |e| == 2 && e[0] == '\\'
    ensures !IsSpecial(c) ==> e == [c]
  {
    if c == '\\' then "\\\\"
    else if c == '"' then "\\\""
    else if c == '\n' then "\\n"
    else if c == '\r' then "\\r"
    else [c]
  }

  /** The text between the quotes of the literal. */
  function EscapeBody(s: string): string
    decreases |s|
  {
    if s == [] then [] else EscapeChar(s[0]) + EscapeBody(s[1..])
  }

  function CountSpecial(s: string): nat
    decreases |s|
  {
    if s == [] then 0 else (if IsSpecial(s[0]) then 1 else 0) + CountSpecial(s[1..])
  }

  /** Reads the interior of a literal back; None on a dangling or unknown escape or a raw special character. */
  function Unescape(t: string): Option<string>
    decreases |t|
  {
    if t == [] then Some([])
    else if t[0] == '\\' then
      if |t| < 2 then None
      else
        var c := if t[1] == 'n' then '\n' else if t[1] == 'r' then '\r' else t[1];
        if t[1] != '\\' && t[1] != '"' && t[1] != 'n' && t[1] != 'r' then None
        else match Unescape(t[2..])
          case None => None
          case Some(rest) => Some([c] + rest)
    else if IsSpecial(t[0]) then None
    else match Unescape(t[1..])
      case None => None
      case Some(rest) => Some([t[0]] + rest)
  }

  lemma {:induction false} EscapeBodyAppend(s: string, c: char)
    ensures EscapeBody(s + [c]) == EscapeBody(s) + EscapeChar(c)
    decreases |s|
  {
    if s == [] {
      assert [c][1..] == [];
    } else {
      assert (s + [c])[1..] == s[1..] + [c];
      EscapeBodyAppend(s[1..], c);
    }
  }

  /** Every character survives the escaping: reading the interior back gives the original text. */
  lemma {:induction false} UnescapeEscapeBody(s: string)
    ensures Unescape(EscapeBody(s)) == Some(s)
    decreases |s|
  {
    if s != [] {
      UnescapeEscapeBody(s[1..]);
      var e := EscapeChar(s[0]);
      var t := e + EscapeBody(s[1..]);
      if IsSpecial(s[0]) {
        assert t[2..] == EscapeBody(s[1..]);
      } else {
        assert t[1..] == EscapeBody(s[1..]);
      }
      assert s == [s[0]] + s[1..];
    }
  }

  /** Each special character costs exactly one extra character. */
  lemma {:induction false} EscapeBodyLength(s: string)
    ensures |EscapeBody(s)| == |s| + CountSpecial(s)
    decreases |s|
  {
    if s != [] {
      EscapeBodyLength(s[1..]);
    }
  }

  /** No raw newline or carriage return appears inside, and every double quote is escaped. */
  lemma {:induction false} EscapeBodyIsSafe(s: string)
    ensures forall i :: 0 <= i < |EscapeBody(s)| ==> EscapeBody(s)[i] != '\n' && EscapeBody(s)[i] != '\r'
    ensures forall i :: 0 <= i < |EscapeBody(s)| && EscapeBody(s)[i] == '"' ==> 0 < i && EscapeBody(s)[i - 1] == '\\'
    decreases |s|
  {
    if s != [] {
      EscapeBodyIsSafe(s[1..]);
      var e := EscapeChar(s[0]);
      var rest := EscapeBody(s[1..]);
      assert EscapeBody(s) == e + rest;
      forall i | 0 <= i < |e + rest|
        ensures (e + rest)[i] != '\n' && (e + rest)[i] != '\r'
        ensures (e + rest)[i] == '"' ==> 0 < i && (e + rest)[i - 1] == '\\'
      {
        if i >= |e| {
          assert (e + rest)[i] == rest[i - |e|];
          if i > |e| {
            assert (e + rest)[i - 1] == rest[i - 1 - |e|];
          }
        }
      }
    }
  }

  // ---------------------------------------------------------------- the HUD

  class ChatHud {
    var chatActive: bool
    var skipExitThisFrame: bool
    var framesInHud: int

    constructor ()
      ensures !chatActive && !skipExitThisFrame && framesInHud == 0
    {
      chatActive := false;
      skipExitThisFrame := false;
      framesInHud := 0;
    }

    /** How the HUD manager sees this HUD: it blocks input and wants the cursor while chatting. */
    function View(): (v: Hud.HudView)
      reads this
      ensures v.blocksInput <==> chatActive
      ensures v.wantsCursor <==> chatActive
      ensures v.exitSuppressPending <==> skipExitThisFrame
    {
      Hud.HudView(chatActive, chatActive, skipExitThisFrame)
    }

    method OnEnter()
      modifies this
      ensures !chatActive && !skipExitThisFrame && framesInHud == 0
    {
      chatActive := false;
      skipExitThisFrame := false;
      framesInHud := 0;
    }

    method OnExit()
      modifies this
      ensures !chatActive
      ensures skipExitThisFrame == old(skipExitThisFrame) && framesInHud == old(framesInHud)
    {
      if chatActive {
        DeactivateChat();
      }
    }

    /** The one-shot flag: answered and cleared, so a second call in a row answers false. */
    method ConsumeExitSuppressRequest() returns (r: bool)
      modifies this
      ensures r == old(skipExitThisFrame) && !skipExitThisFrame
      ensures chatActive == old(chatActive) && framesInHud == old(framesInHud)
    {
      if !skipExitThisFrame {
        return false;
      }
      skipExitThisFrame := false;
      return true;
    }

    method ActivateChat()
      modifies this
      ensures chatActive
      ensures old(chatActive) ==> unchanged(this)
      ensures skipExitThisFrame == old(skipExitThisFrame) && framesInHud == old(framesInHud)
    {
      if chatActive {
        return;
      }
      chatActive := true;
    }

    method DeactivateChat()
      modifies this
      ensures !chatActive
      ensures !old(chatActive) ==> unchanged(this)
      ensures skipExitThisFrame == old(skipExitThisFrame) && framesInHud == old(framesInHud)
    {
      if !chatActive {
        return;
      }
      chatActive := false;
    }

    /**
     * One frame.  While chatting the UI is polled; otherwise Enter opens the
     * chat, but only from the third frame after OnEnter on.  The result is the
     * literal handed to the UI's send queue, if any.
     */
    method Update(enterPressed: bool, escapePressed: bool, ui: Option<string>) returns (sent: Option<string>)
      modifies this
      ensures framesInHud == old(framesInHud) + 1
      ensures !old(chatActive) ==>
                && sent.None? && skipExitThisFrame == old(skipExitThisFrame)
                && (chatActive <==> framesInHud > 2 && enterPressed)
      ensures old(chatActive) ==>
                && (escapePressed ==> sent.None? && !chatActive && skipExitThisFrame)
                && (!escapePressed ==> chatActive && skipExitThisFrame == old(skipExitThisFrame))
                && (sent.Some? <==> !escapePressed && enterPressed && ui.Some? && ui.value != [])
                && (sent.Some? ==> sent.value == "\"" + EscapeBody(ui.value) + "\"")
    {
      framesInHud := framesInHud + 1;
      sent := None;
      if chatActive {
        sent := PollChatUI(enterPressed, escapePressed, ui);
      } else if framesInHud > 2 && enterPressed {
        ActivateChat();
      }
    }

    /**
     * Escape closes the chat and asks that this frame's Exit be suppressed.
     * Enter takes the input text; empty text is dropped, any other is sent
     * as an escaped literal.
     */
    method PollChatUI(enterPressed: bool, escapePressed: bool, ui: Option<string>) returns (sent: Option<string>)
      modifies this
      ensures escapePressed ==> sent.None? && !chatActive && skipExitThisFrame
      ensures !escapePressed ==> chatActive == old(chatActive) && skipExitThisFrame == old(skipExitThisFrame)
      ensures sent.Some? <==> !escapePressed && enterPressed && ui.Some? && ui.value != []
      ensures sent.Some? ==> sent.value == "\"" + EscapeBody(ui.value) + "\""
      ensures framesInHud == old(framesInHud)
    {
      if escapePressed {
        skipExitThisFrame := true;
        DeactivateChat();
        return None;
      }
      if !enterPressed || ui.None? {
        return None;
      }
      var text := ui.value;
      if |text| == 0 {
        return None;
      }
      var escaped := EscapeForJsStringLiteral(text);
      sent := Some(escaped);
    }
  }

  /** The escaper's loop: a quote, each character escaped in order, a quote. */
  method EscapeForJsStringLiteral(text: string) returns (escaped: string)
    ensures escaped == "\"" + EscapeBody(text) + "\""
  {
    escaped := "\"";
    var i := 0;
    while i < |text|
      invariant 0 <= i <= |text|
      invariant escaped == "\"" + EscapeBody(text[..i])
    {
      var c := text[i];
      if c == '\\' {
        escaped := escaped + "\\\\";
      } else if c == '"' {
        escaped := escaped + "\\\"";
      } else if c == '\n' {
        escaped := escaped + "\\n";
      } else if c == '\r' {
        escaped := escaped + "\\r";
      } else {
        escaped := escaped + [c];
      }
      EscapeBodyAppend(text[..i], c);
      assert text[..i + 1] == text[..i] + [c];
      i := i + 1;
    }
    assert text[..i] == text;
    escaped := escaped + "\"";
  }

  /**
   * The literal starts and ends with a double quote, is the text's length plus
   * two plus one per special character, and its interior reads back as the text.
   */
  lemma EscapedLiteralShape(text: string)
    ensures var lit := "\"" + EscapeBody(text) + "\"";
      && lit[0] == '"' && lit[|lit| - 1] == '"'
      && |lit| == |text| + 2 + CountSpecial(text)
      && Unescape(lit[1..|lit| - 1]) == Some(text)
  {
    var lit := "\"" + EscapeBody(text) + "\"";
    EscapeBodyLength(text);
    UnescapeEscapeBody(text);
    assert lit[1..|lit| - 1] == EscapeBody(text);
  }
}

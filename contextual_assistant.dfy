/** The chat widget: a collapsed button that expands into a message list
    with an input box. Sending a non-blank input appends it as a user message
    and schedules one canned bot reply; the reply's timer callback is the
    explicit step DeliverReply. */
module ContextualAssistant {

  datatype Sender = Bot | User

  datatype Message = Message(sender: Sender, text: string)

  /** The greeting as the component's text holds it: the emoji's UTF-8 bytes
      read as Windows-1252, i.e. the four characters U+00F0 U+0178 U+02DC
      U+0160 that display as "ðŸ˜Š". */
  const Greeting := Message(Bot, "Hi! I'm your travel buddy. How can I help you today? \U{00F0}\U{0178}\U{02DC}\U{0160}")

  /** The canned reply, ending in the characters U+00F0 U+0178 U+0152 U+0178
      ("ðŸŒŸ"), again as the component's text holds them. */
  const Reply := Message(Bot, "I'm processing your request! \U{00F0}\U{0178}\U{0152}\U{0178}")

  // ---------------------------------------------------------------------
  // String.prototype.trim

  /** ECMAScript WhiteSpace and LineTerminator code points. */
  predicate IsWhiteSpace(c: char) {
    c == '\t' || c == '\n' || c == '\U{000B}' || c == '\U{000C}' || c == '\r' || c == ' '
    || c == '\U{00A0}' || c == '\U{1680}' || ('\U{2000}' <= c <= '\U{200A}')
    || c == '\U{2028}' || c == '\U{2029}' || c == '\U{202F}' || c == '\U{205F}'
    || c == '\U{3000}' || c == '\U{FEFF}'
  }

  predicate IsBlank(s: string) {
    forall i :: 0 <= i < |s| ==> IsWhiteSpace(s[i])
  }

  /** s with white space removed from the front only. */
  function TrimStart(s: string): (r: string)
    ensures |r| <= |s| && r == s[|s| - |r|..]
    ensures IsBlank(s[..|s| - |r|])
    ensures r == [] || !IsWhiteSpace(r[0])
  {
    if s != [] && IsWhiteSpace(s[0]) then
      var r := TrimStart(s[1..]);
      assert s[..|s| - |r|] == [s[0]] + s[1..][..|s| - 1 - |r|];
      r
    else
      s
  }

  /** s with white space removed from the back only. */
  function TrimEnd(s: string): (r: string)
    ensures |r| <= |s| && r == s[..|r|]
    ensures IsBlank(s[|r|..])
    ensures r == [] || !IsWhiteSpace(r[|r| - 1])
  {
    if s != [] && IsWhiteSpace(s[|s| - 1]) then
      var r := TrimEnd(s[..|s| - 1]);
      assert s[|r|..] == s[..|s| - 1][|r|..] + [s[|s| - 1]];
      r
    else
      s
  }

  /** r is s[i..i + |r|], and all that lies before and after it in s is white space. */
  predicate TrimmedAt(s: string, r: string, i: int) {
    0 <= i <= |s| - |r| && r == s[i..i + |r|] && IsBlank(s[..i]) && IsBlank(s[i + |r|..])
  }

  /** `s.trim()`: s without its leading and trailing white space, so that
      what is left neither starts nor ends with white space. */
  function Trim(s: string): (r: string)
    ensures exists i :: TrimmedAt(s, r, i)
    ensures r != [] ==> !IsWhiteSpace(r[0]) && !IsWhiteSpace(r[|r| - 1])
  {
    var t := TrimStart(s);
    var r := TrimEnd(t);
    var i := |s| - |t|;
    assert s[i..i + |r|] == t[..|r|];
    assert s[i + |r|..] == t[|r|..];
    assert TrimmedAt(s, r, i);
    r
  }

  lemma {:induction false} TrimStartBlank(s: string)
    ensures TrimStart(s) == [] <==> IsBlank(s)
  {
    if s != [] && IsWhiteSpace(s[0]) {
      TrimStartBlank(s[1..]);
      assert IsBlank(s[1..]) ==> IsBlank(s) by {
        if IsBlank(s[1..]) {
          forall i | 0 <= i < |s| ensures IsWhiteSpace(s[i]) {
            if i > 0 { assert s[i] == s[1..][i - 1]; }
          }
        }
      }
    }
  }

  lemma {:induction false} TrimEndBlank(s: string)
    ensures TrimEnd(s) == [] <==> IsBlank(s)
  {
    if s != [] && IsWhiteSpace(s[|s| - 1]) {
      TrimEndBlank(s[..|s| - 1]);
      assert IsBlank(s[..|s| - 1]) ==> IsBlank(s) by {
        if IsBlank(s[..|s| - 1]) {
          forall i | 0 <= i < |s| ensures IsWhiteSpace(s[i]) {
            if i < |s| - 1 { assert s[i] == s[..|s| - 1][i]; }
          }
        }
      }
    }
  }

  /** `!inputValue.trim()` holds exactly for blank input. */
  lemma TrimEmptyIffBlank(s: string)
    ensures Trim(s) == [] <==> IsBlank(s)
  {
    TrimStartBlank(s);
    TrimEndBlank(TrimStart(s));
  }

  // ---------------------------------------------------------------------
  // Message counting

  function CountBy(messages: seq<Message>, sender: Sender): nat {
    if messages == [] then 0
    else (if messages[0].sender == sender then 1 else 0) + CountBy(messages[1..], sender)
  }

  lemma {:induction false} CountByAppend(messages: seq<Message>, m: Message, sender: Sender)
    ensures CountBy(messages + [m], sender)
      == CountBy(messages, sender) + (if m.sender == sender then 1 else 0)
  {
    if messages != [] {
      assert (messages + [m])[1..] == messages[1..] + [m];
      CountByAppend(messages[1..], m, sender);
    }
  }

  // ---------------------------------------------------------------------
  // The widget

  class Widget {
    var isExpanded: bool
    var messages: seq<Message>
    var inputValue: string
    var isTyping: bool
    /** Bot replies scheduled with setTimeout and not yet delivered. */
    var pendingReplies: nat

    /** The greeting comes first; the user messages number one less than
        the bot messages plus the pending replies; the typing indicator is
        only on while a reply is pending; and a collapsed widget is untouched. */
    ghost predicate Valid()
      reads this
    {
      |messages| >= 1 && messages[0] == Greeting
      && CountBy(messages, User) + 1 == CountBy(messages, Bot) + pendingReplies
      && (isTyping ==> pendingReplies > 0)
      && (!isExpanded ==>
            messages == [Greeting] && inputValue == "" && !isTyping && pendingReplies == 0)
    }

    constructor ()
      ensures Valid()
      ensures !isExpanded && messages == [Greeting] && inputValue == "" && !isTyping
      ensures pendingReplies == 0
    {
      isExpanded := false;
      messages := [Greeting];
      inputValue := "";
      isTyping := false;
      pendingReplies := 0;
    }

    /** The collapsed button's click handler; nothing collapses again. */
    method Expand()
      requires Valid()
      modifies this
      ensures Valid()
      ensures isExpanded
      ensures messages == old(messages) && inputValue == old(inputValue)
      ensures isTyping == old(isTyping) && pendingReplies == old(pendingReplies)
    {
      isExpanded := true;
    }

    /** The text area's change handler (the text area exists only when expanded). */
    method EditInput(value: string)
      requires Valid() && isExpanded
      modifies this
      ensures Valid()
      ensures inputValue == value
      ensures isExpanded == old(isExpanded) && messages == old(messages)
      ensures isTyping == old(isTyping) && pendingReplies == old(pendingReplies)
    {
      inputValue := value;
    }

    /** `handleSend`: blank input changes nothing; otherwise the untrimmed
        input is appended as a user message, the input is cleared, the typing
        indicator goes on and one reply is scheduled. */
    method Send()
      requires Valid() && isExpanded
      modifies this
      ensures Valid()
      ensures old(messages) <= messages && isExpanded == old(isExpanded)
      ensures IsBlank(old(inputValue)) ==>
        messages == old(messages) && inputValue == old(inputValue)
        && isTyping == old(isTyping) && pendingReplies == old(pendingReplies)
      ensures !IsBlank(old(inputValue)) ==>
        messages == old(messages) + [Message(User, old(inputValue))] && inputValue == ""
        && isTyping && pendingReplies == old(pendingReplies) + 1
    {
      TrimEmptyIffBlank(inputValue);
      if Trim(inputValue) == "" {
        return;
      }
      CountByAppend(messages, Message(User, inputValue), User);
      CountByAppend(messages, Message(User, inputValue), Bot);
      messages := messages + [Message(User, inputValue)];
      inputValue := "";
      isTyping := true;
      pendingReplies := pendingReplies + 1;
    }

    /** `handleKeyPress`: Enter without Shift sends (and suppresses the
        newline); every other key leaves the state alone. */
    method KeyPress(key: string, shiftKey: bool) returns (prevented: bool)
      requires Valid() && isExpanded
      modifies this
      ensures Valid()
      ensures prevented <==> key == "Enter" && !shiftKey
      ensures old(messages) <= messages && isExpanded == old(isExpanded)
      ensures !prevented ==>
        messages == old(messages) && inputValue == old(inputValue)
        && isTyping == old(isTyping) && pendingReplies == old(pendingReplies)
      ensures prevented && !IsBlank(old(inputValue)) ==>
        messages == old(messages) + [Message(User, old(inputValue))] && inputValue == ""
        && isTyping && pendingReplies == old(pendingReplies) + 1
      ensures prevented && IsBlank(old(inputValue)) ==>
        messages == old(messages) && inputValue == old(inputValue)
        && isTyping == old(isTyping) && pendingReplies == old(pendingReplies)
    {
      prevented := key == "Enter" && !shiftKey;
      if prevented {
        Send();
      }
    }

    /** The timer callback of one earlier send: the canned reply is appended
        and the typing indicator goes off, even if other replies are still
        pending. */
    method DeliverReply()
      requires Valid() && pendingReplies > 0
      modifies this
      ensures Valid()
      ensures messages == old(messages) + [Reply] && !isTyping
      ensures pendingReplies == old(pendingReplies) - 1
      ensures isExpanded == old(isExpanded) && inputValue == old(inputValue)
    {
      CountByAppend(messages, Reply, User);
      CountByAppend(messages, Reply, Bot);
      messages := messages + [Reply];
      isTyping := false;
      pendingReplies := pendingReplies - 1;
    }
  }

  /** Two quick sends and the first reply: the indicator is already off
      while the second reply is still pending, and a blank send in between
      does nothing. */
  method TwoSendsOneReply()
  {
    var w := new Widget();
    w.Expand();
    w.EditInput("Museums nearby?");
    assert !IsWhiteSpace(w.inputValue[0]);
    w.Send();
    w.EditInput("   ");
    w.Send();
    assert w.inputValue == "   " && |w.messages| == 2;
    w.EditInput("And cafes?");
    assert !IsWhiteSpace(w.inputValue[0]);
    var sent := w.KeyPress("Enter", false);
    assert sent && w.isTyping && w.pendingReplies == 2;
    w.DeliverReply();
    assert !w.isTyping && w.pendingReplies == 1;
    assert w.messages == [Greeting, Message(User, "Museums nearby?"), Message(User, "And cafes?"), Reply];
  }
}

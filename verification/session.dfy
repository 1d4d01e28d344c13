/**
 * The chat session controller: the page's session variables, the message
 * list, and the handlers that the key, input, timer and socket events run.
 * Every `socket.emit` is recorded, in order, in `outbox`.
 */
module Session {
  import opened Wrappers
  import JsText
  import Messages

  /** `TYPING_TIMER_LENGTH`: the typing debounce, in milliseconds. */
  const TypingTimerLength := 400

  /** The welcome line shown on login. */
  const WelcomeText := "Welcome to Socket.IO Chat \U{2013} "

  /** An event the client sends to the server. */
  datatype Emit =
    | AddUser(name: string)      // "add user"
    | NewMessage(text: string)   // "new message"
    | Typing                     // "typing"
    | StopTyping                 // "stop typing"

  class ChatSession {
    /** The user's name; "" until a non-empty name is chosen (both are falsy in the source). */
    var username: string
    var connected: bool
    var typing: bool
    /** The time of the last input event while connected; `None` until there is one. */
    var lastTypingTime: Option<int>
    /** The value of the message input box. */
    var draft: string
    /** The items of the message list, top to bottom. */
    var messages: seq<Messages.Element>
    /** Every event emitted on the socket so far, oldest first. */
    var outbox: seq<Emit>
    /** Due times of the armed debounce timers, in the order they were armed. */
    var timers: seq<int>

    /**
     * The session invariant: while the user is marked typing some timer is
     * left to end the typing state; no user shows two typing indicators;
     * every "add user" carries the session's one username; and every sent
     * message is non-empty escaped text, sent once a name was set.
     */
    ghost predicate Valid()
      reads this
    {
      TimersValid() && ListValid() && OutboxValid()
    }

    /** While typing, the latest armed timer is due one debounce after the last input. */
    ghost predicate TimersValid()
      reads this`typing, this`lastTypingTime, this`timers
    {
      typing ==> lastTypingTime.Some? && timers != [] &&
                 timers[|timers| - 1] == lastTypingTime.value + TypingTimerLength
    }

    /** No user shows two typing indicators. */
    ghost predicate ListValid()
      reads this`messages
    {
      Messages.AtMostOneTypingPerUser(messages)
    }

    /** The username is escaped text, and what was sent carries it and was sent after it was set. */
    ghost predicate OutboxValid()
      reads this`username, this`outbox
    {
      && JsText.IsInert(username)
      && (forall e :: e in outbox && e.AddUser? ==> e.name == username && username != "")
      && (forall e :: e in outbox && e.NewMessage? ==> username != "" && e.text != "" && JsText.IsInert(e.text))
    }

    /** The state on page load: no name, not connected, not typing, nothing shown or sent. */
    constructor ()
      ensures Valid()
      ensures username == "" && !connected && !typing && lastTypingTime == None
      ensures draft == "" && messages == [] && outbox == [] && timers == []
    {
      username := "";
      connected := false;
      typing := false;
      lastTypingTime := None;
      draft := "";
      messages := [];
      outbox := [];
      timers := [];
    }

    // -------------------------------------------------------------------
    // The message list
    // -------------------------------------------------------------------

    /**
     * `addMessageElement(el, options)`: default options, then append or
     * prepend. An internal step of `Log` and `AddChatMessage`: on its own
     * it may add a second typing indicator for a user, so it does not keep
     * `Valid()`; the handlers go through those two.
     */
    method AddMessageElement(msg: Messages.Message, options: Messages.Options)
      modifies this`messages
      ensures messages == Messages.AddMessageElement(old(messages), msg, options)
    {
      var fade := true;
      if options.fade.Some? {
        fade := options.fade.value;
      }
      var prepend := false;
      if options.prepend.Some? {
        prepend := options.prepend.value;
      }
      var el := Messages.Element(msg, fade);
      if prepend {
        messages := [el] + messages;
      } else {
        messages := messages + [el];
      }
    }

    /** `log(message, options)`. */
    method Log(text: string, options: Messages.Options)
      requires Valid()
      modifies this`messages
      ensures Valid()
      ensures messages == Messages.Log(old(messages), text, options)
    {
      Messages.LogKeepsOneTyping(messages, text, options);
      AddMessageElement(Messages.LogEntry(text), options);
    }

    /** `addChatMessage(data, options)`: drop the user's typing indicators, then insert. */
    method AddChatMessage(name: string, body: string, isTyping: bool, options: Messages.Options)
      requires Valid()
      modifies this`messages
      ensures Valid()
      ensures messages == Messages.AddChatMessage(old(messages), name, body, isTyping, options)
    {
      Messages.AddChatMessageKeepsOneTyping(messages, name, body, isTyping, options);
      var typingMessages := Messages.TypingMessages(messages, name);
      var opts := options;
      Messages.TypingPartition(messages, name);
      if |typingMessages| != 0 {
        opts := opts.(fade := Some(false));
        messages := Messages.RemoveTyping(messages, name);
      }
      AddMessageElement(Messages.ChatEntry(name, body, isTyping), opts);
    }

    /** `removeChatTyping({username: name})`, the fade-out taken as immediate. */
    method RemoveChatTyping(name: string)
      requires Valid()
      modifies this`messages
      ensures Valid()
      ensures messages == Messages.RemoveTyping(old(messages), name)
    {
      Messages.RemoveTypingKeepsOneTyping(messages, name);
      messages := Messages.RemoveTyping(messages, name);
    }

    /** `addParticipantsMessage({numUsers})`: one log line with the count. */
    method AddParticipantsMessage(numUsers: int)
      requires Valid()
      modifies this`messages
      ensures Valid()
      ensures messages == old(messages) + [Messages.Element(Messages.LogEntry(Messages.ParticipantsText(numUsers)), true)]
    {
      var message := Messages.ParticipantsText(numUsers);
      Log(message, Messages.NoOptions);
    }

    // -------------------------------------------------------------------
    // Local actions
    // -------------------------------------------------------------------

    /**
     * `setUsername()` with the username box holding `nameField`: the
     * trimmed, escaped name is stored; when it is non-empty the chat page
     * opens and one "add user" carrying it is sent, otherwise nothing is sent.
     */
    method SetUsername(nameField: string)
      requires Valid() && username == ""
      modifies this`username, this`outbox
      ensures Valid()
      ensures username == JsText.CleanInput(JsText.Trim(nameField))
      ensures username == "" <==> forall i :: 0 <= i < |nameField| ==> JsText.IsTrimmable(nameField[i])
      ensures outbox == old(outbox) + (if username != "" then [AddUser(username)] else [])
    {
      assert forall e :: e in outbox ==> !e.AddUser? && !e.NewMessage?;
      var trimmed := JsText.Trim(nameField);
      JsText.TrimEmptyIff(nameField);
      var name := JsText.CleanInput(trimmed);
      assert name == "" <==> trimmed == "";
      ghost var sent := outbox;
      username := name;
      if username != "" {
        outbox := outbox + [AddUser(username)];
        forall e | e in outbox
          ensures (e.AddUser? ==> e.name == username) && !e.NewMessage?
        {
          assert e in sent || e == AddUser(username);
        }
      }
    }

    /** Whether `sendMessage()` sends now: the box is not empty and the socket has logged in. */
    predicate WillSend()
      reads this
    {
      draft != "" && connected
    }

    /**
     * `sendMessage()`: when the escaped box text is non-empty and the
     * session is connected, the box is cleared, the message is shown as
     * the user's own and one "new message" is sent; otherwise nothing
     * changes. The text is not trimmed, so white space alone is sent.
     */
    method SendMessage()
      requires Valid() && username != ""
      modifies this`draft, this`messages, this`outbox
      ensures Valid()
      ensures old(WillSend()) ==>
        && draft == ""
        && messages == Messages.AddChatMessage(old(messages), username, JsText.CleanInput(old(draft)), false, Messages.NoOptions)
        && outbox == old(outbox) + [NewMessage(JsText.CleanInput(old(draft)))]
      ensures !old(WillSend()) ==> draft == old(draft) && messages == old(messages) && outbox == old(outbox)
    {
      var message := draft;
      message := JsText.CleanInput(message);
      if message != "" && connected {
        draft := "";
        Messages.AddChatMessageKeepsOneTyping(messages, username, message, false, Messages.NoOptions);
        AddChatMessage(username, message, false, Messages.NoOptions);
        outbox := outbox + [NewMessage(message)];
      }
    }

    /**
     * The Enter key. On the chat page (a name is set) it sends the box
     * text when it can, and then always sends "stop typing" and clears
     * `typing`; on the login page it submits the name field.
     */
    method EnterKey(nameField: string)
      requires Valid()
      modifies this`username, this`draft, this`messages, this`outbox, this`typing
      ensures Valid()
      ensures old(username) != "" ==>
        && username == old(username) && !typing
        && outbox == old(outbox) + (if old(WillSend()) then [NewMessage(JsText.CleanInput(old(draft)))] else []) + [StopTyping]
        && draft == (if old(WillSend()) then "" else old(draft))
        && messages == (if old(WillSend())
                        then Messages.AddChatMessage(old(messages), old(username), JsText.CleanInput(old(draft)), false, Messages.NoOptions)
                        else old(messages))
      ensures old(username) == "" ==>
        && username == JsText.CleanInput(JsText.Trim(nameField))
        && outbox == old(outbox) + (if username != "" then [AddUser(username)] else [])
        && typing == old(typing) && draft == old(draft) && messages == old(messages)
    {
      if username != "" {
        SendMessage();
        outbox := outbox + [StopTyping];
        typing := false;
      } else {
        SetUsername(nameField);
      }
    }

    /**
     * The box's `input` event at time `now`, after the user changed its
     * text to `text`. While not connected nothing else happens. While
     * connected, the first input sets `typing` and sends one "typing",
     * later ones only move `lastTypingTime`; each arms a debounce timer.
     */
    method OnInput(text: string, now: int)
      requires Valid()
      modifies this`draft, this`typing, this`lastTypingTime, this`timers, this`outbox
      ensures Valid()
      ensures draft == text
      ensures !connected ==>
        typing == old(typing) && lastTypingTime == old(lastTypingTime) && timers == old(timers) && outbox == old(outbox)
      ensures connected ==>
        && typing && lastTypingTime == Some(now)
        && timers == old(timers) + [now + TypingTimerLength]
        && outbox == old(outbox) + (if old(typing) then [] else [Typing])
    {
      draft := text;
      if connected {
        if !typing {
          typing := true;
          outbox := outbox + [Typing];
        }
        lastTypingTime := Some(now);
        timers := timers + [now + TypingTimerLength];
      }
    }

    /** Whether a debounce timer firing at `now` ends the typing state. */
    predicate TypingExpired(now: int)
      reads this
    {
      typing && lastTypingTime.Some? && now - lastTypingTime.value >= TypingTimerLength
    }

    /**
     * The oldest armed debounce timer fires at `now` (not before it was
     * due). If the user is typing and has not typed for a full debounce,
     * "stop typing" is sent and `typing` cleared; a timer made stale by a
     * newer input changes nothing but itself.
     */
    method TimerFire(now: int)
      requires Valid()
      requires timers != [] && timers[0] <= now
      modifies this`timers, this`typing, this`outbox
      ensures Valid()
      ensures timers == old(timers)[1..]
      ensures old(TypingExpired(now)) ==> !typing && outbox == old(outbox) + [StopTyping]
      ensures !old(TypingExpired(now)) ==> typing == old(typing) && outbox == old(outbox)
    {
      timers := timers[1..];
      var typingTimer := now;
      if lastTypingTime.Some? && typingTimer - lastTypingTime.value >= TypingTimerLength && typing {
        outbox := outbox + [StopTyping];
        typing := false;
      }
    }

    /**
     * The typing state cannot get stuck: when only one timer is left while
     * typing, that timer ends it whenever it fires.
     */
    lemma LastTimerEndsTyping(now: int)
      requires Valid() && typing && |timers| == 1 && timers[0] <= now
      ensures TypingExpired(now)
    {
    }

    // -------------------------------------------------------------------
    // Socket events
    // -------------------------------------------------------------------

    /** "login": connected; the welcome line in front, the count at the end. */
    method OnLogin(numUsers: int)
      requires Valid()
      modifies this`connected, this`messages
      ensures Valid()
      ensures connected
      ensures messages == [Messages.Element(Messages.LogEntry(WelcomeText), true)] + old(messages) +
                          [Messages.Element(Messages.LogEntry(Messages.ParticipantsText(numUsers)), true)]
    {
      connected := true;
      Messages.LogKeepsOneTyping(messages, WelcomeText, Messages.Options(None, Some(true)));
      Log(WelcomeText, Messages.Options(None, Some(true)));
      Messages.LogKeepsOneTyping(messages, Messages.ParticipantsText(numUsers), Messages.NoOptions);
      AddParticipantsMessage(numUsers);
    }

    /** "new message": the message is shown, replacing the sender's typing indicator. */
    method OnNewMessage(name: string, body: string)
      requires Valid()
      modifies this`messages
      ensures Valid()
      ensures messages == Messages.AddChatMessage(old(messages), name, body, false, Messages.NoOptions)
      ensures Messages.TypingMessages(messages, name) == []
    {
      Messages.AddChatMessageKeepsOneTyping(messages, name, body, false, Messages.NoOptions);
      Messages.AddChatMessageTyping(messages, name, body, false, Messages.NoOptions, name);
      AddChatMessage(name, body, false, Messages.NoOptions);
    }

    /** "user joined": a join line and the count, appended. */
    method OnUserJoined(name: string, numUsers: int)
      requires Valid()
      modifies this`messages
      ensures Valid()
      ensures messages == old(messages) + [Messages.Element(Messages.LogEntry(name + " joined"), true),
                                           Messages.Element(Messages.LogEntry(Messages.ParticipantsText(numUsers)), true)]
    {
      Messages.LogKeepsOneTyping(messages, name + " joined", Messages.NoOptions);
      Log(name + " joined", Messages.NoOptions);
      Messages.LogKeepsOneTyping(messages, Messages.ParticipantsText(numUsers), Messages.NoOptions);
      AddParticipantsMessage(numUsers);
    }

    /** "user left": a leave line and the count, appended; the user's typing indicator is removed. */
    method OnUserLeft(name: string, numUsers: int)
      requires Valid()
      modifies this`messages
      ensures Valid()
      ensures messages == Messages.RemoveTyping(old(messages), name) +
                          [Messages.Element(Messages.LogEntry(name + " left"), true),
                           Messages.Element(Messages.LogEntry(Messages.ParticipantsText(numUsers)), true)]
      ensures Messages.TypingMessages(messages, name) == []
    {
      var leftText := name + " left";
      ghost var lines := [Messages.Element(Messages.LogEntry(leftText), true),
                          Messages.Element(Messages.LogEntry(Messages.ParticipantsText(numUsers)), true)];
      LeaveLinesSurvive(messages, leftText, Messages.ParticipantsText(numUsers), name);
      ghost var expected := Messages.RemoveTyping(messages, name) + lines;
      Log(leftText, Messages.NoOptions);
      AddParticipantsMessage(numUsers);
      RemoveChatTyping(name);
      assert messages == expected;
    }

    /**
     * Removing a user's typing indicators after two log lines were appended
     * leaves those lines at the end, no indicator of that user, and at most
     * one of any other user.
     */
    static lemma LeaveLinesSurvive(before: seq<Messages.Element>, first: string, second: string, name: string)
      requires Messages.AtMostOneTypingPerUser(before)
      ensures var lines := [Messages.Element(Messages.LogEntry(first), true), Messages.Element(Messages.LogEntry(second), true)];
        var after := Messages.RemoveTyping(before + [lines[0]] + [lines[1]], name);
        && after == Messages.RemoveTyping(before, name) + lines
        && Messages.TypingMessages(after, name) == []
        && Messages.AtMostOneTypingPerUser(after)
    {
      var lines := [Messages.Element(Messages.LogEntry(first), true), Messages.Element(Messages.LogEntry(second), true)];
      assert before + [lines[0]] + [lines[1]] == before + lines;
      Messages.RemoveTypingAppend(before, lines, name);
      Messages.RemoveTypingKeepsLogs(lines, name);
      Messages.TypingAfterRemove(before + lines, name, name);
      forall other ensures |Messages.TypingMessages(before + lines, other)| <= 1 {
        Messages.TypingMessagesAppend(before, lines, other);
        Messages.TypingPartition(lines, other);
        Messages.RemoveTypingKeepsLogs(lines, other);
      }
      Messages.RemoveTypingKeepsOneTyping(before + lines, name);
    }

    /** "typing": the sender's one typing indicator, "is typing", replaces any earlier one. */
    method OnTyping(name: string)
      requires Valid()
      modifies this`messages
      ensures Valid()
      ensures messages == Messages.AddChatMessage(old(messages), name, Messages.TypingText, true, Messages.NoOptions)
      ensures |Messages.TypingMessages(messages, name)| == 1
    {
      Messages.AddChatMessageKeepsOneTyping(messages, name, Messages.TypingText, true, Messages.NoOptions);
      Messages.AddChatMessageTyping(messages, name, Messages.TypingText, true, Messages.NoOptions, name);
      AddChatMessage(name, Messages.TypingText, true, Messages.NoOptions);
    }

    /** "stop typing": the sender's typing indicator is removed, nothing else. */
    method OnStopTyping(name: string)
      requires Valid()
      modifies this`messages
      ensures Valid()
      ensures messages == Messages.RemoveTyping(old(messages), name)
      ensures Messages.TypingMessages(messages, name) == []
    {
      Messages.RemoveTypingKeepsOneTyping(messages, name);
      Messages.TypingAfterRemove(messages, name, name);
      RemoveChatTyping(name);
    }

    /** "disconnect": a line is logged; `connected` is left as it was. */
    method OnDisconnect()
      requires Valid()
      modifies this`messages
      ensures Valid()
      ensures connected == old(connected)
      ensures messages == old(messages) + [Messages.Element(Messages.LogEntry("you have been disconnected"), true)]
    {
      Messages.LogKeepsOneTyping(messages, "you have been disconnected", Messages.NoOptions);
      Log("you have been disconnected", Messages.NoOptions);
    }

    /** "reconnect": a line is logged, and "add user" is sent again exactly when a name is set. */
    method OnReconnect()
      requires Valid()
      modifies this`messages, this`outbox
      ensures Valid()
      ensures messages == old(messages) + [Messages.Element(Messages.LogEntry("you have been reconnected"), true)]
      ensures outbox == old(outbox) + (if username != "" then [AddUser(username)] else [])
    {
      Messages.LogKeepsOneTyping(messages, "you have been reconnected", Messages.NoOptions);
      Log("you have been reconnected", Messages.NoOptions);
      if username != "" {
        outbox := outbox + [AddUser(username)];
      }
    }

    /** "reconnect_error": a line is logged. */
    method OnReconnectError()
      requires Valid()
      modifies this`messages
      ensures Valid()
      ensures messages == old(messages) + [Messages.Element(Messages.LogEntry("attempt to reconnect has failed"), true)]
    {
      Messages.LogKeepsOneTyping(messages, "attempt to reconnect has failed", Messages.NoOptions);
      Log("attempt to reconnect has failed", Messages.NoOptions);
    }
  }

  /**
   * A client of the contracts above: after login, two inputs 100 ms apart;
   * the first timer finds the newer input and does nothing, the second
   * sends the one "stop typing".
   */
  method DebounceScenario() {
    var s := new ChatSession();
    s.OnLogin(1);
    s.OnInput("h", 1000);
    s.OnInput("hi", 1100);
    assert s.outbox == [Typing] && s.timers == [1400, 1500];
    s.TimerFire(1400);
    assert s.typing && s.outbox == [Typing];
    s.TimerFire(1500);
    assert !s.typing && s.outbox == [Typing, StopTyping];
  }
}

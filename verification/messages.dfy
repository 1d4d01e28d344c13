/**
 * The `.messages` list of the chat page and the operations that edit it:
 * `addMessageElement`, `log`, `addChatMessage`, `getTypingMessages` and
 * `removeChatTyping`, stated on a sequence of list items, with the
 * participant-count wording of `addParticipantsMessage`.
 */
module Messages {
  import opened Wrappers
  import JsText

  /** What one `<li>` of the list shows. */
  datatype Message =
    | LogEntry(text: string)                                  // `<li class="log">`
    | ChatEntry(username: string, body: string, typing: bool) // `<li class="message">`, plus class `typing`

  /** A list item: its message, and whether it was faded in when it was added. */
  datatype Element = Element(msg: Message, fadeIn: bool)

  /** The `options` object of `log` and `addMessageElement`; an absent property is `None`. */
  datatype Options = Options(fade: Option<bool>, prepend: Option<bool>)

  /** `options` left undefined. */
  const NoOptions := Options(None, None)

  /** An item that `getTypingMessages(username)` selects: class `typing message`, data `username`. */
  predicate IsTypingOf(e: Element, username: string) {
    e.msg.ChatEntry? && e.msg.typing && e.msg.username == username
  }

  /** `getTypingMessages(username)`: the typing indicators of that user, in list order. */
  function TypingMessages(list: seq<Element>, username: string): (r: seq<Element>)
    ensures |r| <= |list|
    ensures forall i :: 0 <= i < |r| ==> IsTypingOf(r[i], username)
  {
    if list == [] then []
    else (if IsTypingOf(list[0], username) then [list[0]] else []) + TypingMessages(list[1..], username)
  }

  /** `removeChatTyping({username})`: the list without that user's typing indicators. */
  function RemoveTyping(list: seq<Element>, username: string): (r: seq<Element>)
    ensures |r| <= |list|
    ensures forall i :: 0 <= i < |r| ==> !IsTypingOf(r[i], username)
  {
    if list == [] then []
    else (if IsTypingOf(list[0], username) then [] else [list[0]]) + RemoveTyping(list[1..], username)
  }

  /** Selecting typing indicators commutes with joining two stretches of the list. */
  lemma {:induction false} TypingMessagesAppend(a: seq<Element>, b: seq<Element>, username: string)
    ensures TypingMessages(a + b, username) == TypingMessages(a, username) + TypingMessages(b, username)
  {
    if a != [] {
      assert (a + b)[1..] == a[1..] + b;
      TypingMessagesAppend(a[1..], b, username);
    } else {
      assert a + b == b;
    }
  }

  /**
   * Removal keeps order: the list is cut anywhere and each part is cleaned
   * on its own, so no item that stays moves past another.
   */
  lemma {:induction false} RemoveTypingAppend(a: seq<Element>, b: seq<Element>, username: string)
    ensures RemoveTyping(a + b, username) == RemoveTyping(a, username) + RemoveTyping(b, username)
  {
    if a != [] {
      assert (a + b)[1..] == a[1..] + b;
      RemoveTypingAppend(a[1..], b, username);
    } else {
      assert a + b == b;
    }
  }

  /** Every item is either selected as a typing indicator of the user or kept by the removal. */
  lemma {:induction false} TypingPartition(list: seq<Element>, username: string)
    ensures |TypingMessages(list, username)| + |RemoveTyping(list, username)| == |list|
    ensures TypingMessages(list, username) == [] ==> RemoveTyping(list, username) == list
  {
    if list != [] {
      TypingPartition(list[1..], username);
    }
  }

  /**
   * Removing one user's typing indicators leaves every other user's
   * indicators exactly as they were.
   */
  lemma {:induction false} TypingAfterRemove(list: seq<Element>, username: string, other: string)
    ensures TypingMessages(RemoveTyping(list, username), other) ==
      if other == username then [] else TypingMessages(list, other)
  {
    if list != [] {
      TypingAfterRemove(list[1..], username, other);
      var head := if IsTypingOf(list[0], username) then [] else [list[0]];
      TypingMessagesAppend(head, RemoveTyping(list[1..], username), other);
    }
  }

  /** Log lines are never typing indicators, so the removal leaves a run of them intact. */
  lemma {:induction false} RemoveTypingKeepsLogs(lines: seq<Element>, username: string)
    requires forall i :: 0 <= i < |lines| ==> lines[i].msg.LogEntry?
    ensures RemoveTyping(lines, username) == lines
  {
    if lines != [] {
      RemoveTypingKeepsLogs(lines[1..], username);
    }
  }

  /** Where `addMessageElement` puts an item: in front when `prepend`, else at the end (the default). */
  function InsertPosition(list: seq<Element>, options: Options): nat {
    if options.prepend == Some(true) then 0 else |list|
  }

  /**
   * `addMessageElement(el, options)`: the item is inserted once, faded in
   * unless `fade` is false, at the front when `prepend` is true and at the
   * end otherwise; the items already there keep their order.
   */
  function AddMessageElement(list: seq<Element>, msg: Message, options: Options): (r: seq<Element>)
    ensures |r| == |list| + 1
    ensures r[InsertPosition(list, options)] == Element(msg, options.fade != Some(false))
    ensures r[..InsertPosition(list, options)] + r[InsertPosition(list, options) + 1..] == list
  {
    var fade := options.fade.GetOr(true);
    var prepend := options.prepend.GetOr(false);
    var el := Element(msg, fade);
    if prepend then [el] + list else list + [el]
  }

  /** The typing indicators after an insertion: the old ones, plus the new item if it is one. */
  lemma TypingAfterInsert(list: seq<Element>, msg: Message, options: Options, username: string)
    ensures var added := Element(msg, options.fade != Some(false));
      var mine := if IsTypingOf(added, username) then [added] else [];
      TypingMessages(AddMessageElement(list, msg, options), username) ==
        if options.prepend == Some(true) then mine + TypingMessages(list, username)
        else TypingMessages(list, username) + mine
  {
    var added := Element(msg, options.fade != Some(false));
    if options.prepend == Some(true) {
      TypingMessagesAppend([added], list, username);
    } else {
      TypingMessagesAppend(list, [added], username);
    }
  }

  /** `log(message, options)`: a log line added through `addMessageElement`. */
  function Log(list: seq<Element>, text: string, options: Options): (r: seq<Element>)
    ensures |r| == |list| + 1
    ensures Element(LogEntry(text), options.fade != Some(false)) in r
  {
    AddMessageElement(list, LogEntry(text), options)
  }

  /**
   * `addChatMessage({username, message, typing}, options)`: the user's
   * typing indicators are removed first (and then the new item is not
   * faded in), then the item is added through `addMessageElement`.
   */
  function AddChatMessage(list: seq<Element>, username: string, body: string, typing: bool,
                          options: Options): (r: seq<Element>)
    ensures |r| == |list| + 1 - |TypingMessages(list, username)|
  {
    TypingPartition(list, username);
    var opts := if TypingMessages(list, username) != [] then options.(fade := Some(false)) else options;
    AddMessageElement(RemoveTyping(list, username), ChatEntry(username, body, typing), opts)
  }

  /**
   * After `addChatMessage` the user has exactly one typing indicator if the
   * new item is one and none otherwise; every other user's indicators are
   * untouched; and an item that replaces an indicator is not faded in.
   */
  lemma AddChatMessageTyping(list: seq<Element>, username: string, body: string, typing: bool,
                             options: Options, other: string)
    ensures |TypingMessages(AddChatMessage(list, username, body, typing, options), username)| ==
      if typing then 1 else 0
    ensures other != username ==>
      TypingMessages(AddChatMessage(list, username, body, typing, options), other) ==
      TypingMessages(list, other)
    ensures TypingMessages(list, username) != [] ==>
      Element(ChatEntry(username, body, typing), false) in AddChatMessage(list, username, body, typing, options)
  {
    var opts := if TypingMessages(list, username) != [] then options.(fade := Some(false)) else options;
    var rest := RemoveTyping(list, username);
    TypingAfterRemove(list, username, username);
    TypingAfterRemove(list, username, other);
    TypingAfterInsert(rest, ChatEntry(username, body, typing), opts, username);
    TypingAfterInsert(rest, ChatEntry(username, body, typing), opts, other);
  }

  /** No user ever has more than one typing indicator in the list. */
  ghost predicate AtMostOneTypingPerUser(list: seq<Element>) {
    forall username :: |TypingMessages(list, username)| <= 1
  }

  lemma AddChatMessageKeepsOneTyping(list: seq<Element>, username: string, body: string, typing: bool,
                                     options: Options)
    requires AtMostOneTypingPerUser(list)
    ensures AtMostOneTypingPerUser(AddChatMessage(list, username, body, typing, options))
  {
    forall other ensures |TypingMessages(AddChatMessage(list, username, body, typing, options), other)| <= 1 {
      AddChatMessageTyping(list, username, body, typing, options, other);
    }
  }

  lemma LogKeepsOneTyping(list: seq<Element>, text: string, options: Options)
    requires AtMostOneTypingPerUser(list)
    ensures AtMostOneTypingPerUser(Log(list, text, options))
  {
    forall other ensures |TypingMessages(Log(list, text, options), other)| <= 1 {
      TypingAfterInsert(list, LogEntry(text), options, other);
    }
  }

  lemma RemoveTypingKeepsOneTyping(list: seq<Element>, username: string)
    requires AtMostOneTypingPerUser(list)
    ensures AtMostOneTypingPerUser(RemoveTyping(list, username))
  {
    forall other ensures |TypingMessages(RemoveTyping(list, username), other)| <= 1 {
      TypingAfterRemove(list, username, other);
    }
  }

  /** The placeholder text of a typing indicator. */
  const TypingText := "is typing"

  /**
   * A "typing" event from a user followed by a "new message" from that
   * user leaves one item for the user's latest content: the indicator is
   * replaced, not kept beside the message, and the message is not faded in.
   */
  lemma TypingThenMessage(list: seq<Element>, username: string, body: string)
    ensures var shown := AddChatMessage(list, username, TypingText, true, NoOptions);
      AddChatMessage(shown, username, body, false, NoOptions) ==
        RemoveTyping(list, username) + [Element(ChatEntry(username, body, false), false)]
  {
    var rest := RemoveTyping(list, username);
    var indicator := Element(ChatEntry(username, TypingText, true), TypingMessages(list, username) == []);
    var shown := AddChatMessage(list, username, TypingText, true, NoOptions);
    assert shown == rest + [indicator];
    TypingAfterRemove(list, username, username);
    TypingMessagesAppend(rest, [indicator], username);
    RemoveTypingAppend(rest, [indicator], username);
    TypingPartition(rest, username);
    assert RemoveTyping(rest, username) == rest;
  }

  // ---------------------------------------------------------------------
  // addParticipantsMessage
  // ---------------------------------------------------------------------

  /** The wording of the participant count: singular for exactly one user. */
  function ParticipantsText(numUsers: int): (r: string)
    ensures numUsers == 1 <==> r == "there's 1 participant"
  {
    if numUsers == 1 then "there's 1 participant"
    else
      var r := "there are " + JsText.NumberToString(numUsers) + " participants";
      assert r[5] == ' ';
      r
  }

  /** How a reader gets the count back from either wording. */
  function ReadParticipantCount(text: string): Option<int> {
    if text == "there's 1 participant" then Some(1)
    else if |text| >= 23 && text[..10] == "there are " && text[|text| - 13..] == " participants" then
      JsText.ParseInt(text[10..|text| - 13])
    else None
  }

  /** The participant line states the server's count: reading it back gives that count. */
  lemma ParticipantsTextRoundTrip(numUsers: int)
    ensures ReadParticipantCount(ParticipantsText(numUsers)) == Some(numUsers)
  {
    var t := ParticipantsText(numUsers);
    if numUsers != 1 {
      var digits := JsText.NumberToString(numUsers);
      assert t[..10] == "there are ";
      assert t[|t| - 13..] == " participants";
      assert t[10..|t| - 13] == digits;
      JsText.NumberToStringRoundTrip(numUsers);
    }
  }
}

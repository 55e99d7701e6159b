/** The two pieces of chat behaviour the parent and student screens share:
    the message composer with its "only send visible text" guard, and the
    tracker that decides when an incoming message plays a notification. */
module Chat {
  import opened Types
  import opened Text
  import opened Store

  /** The send button is disabled while the trimmed input is empty. */
  predicate SendDisabled(input: string) {
    Trim(input) == ""
  }

  /** The button is enabled exactly when the input has a visible character. */
  lemma SendEnabledIff(input: string)
    ensures !SendDisabled(input) <==> HasVisibleText(input)
  {
    TrimNonEmptyIff(input);
  }

  /** The text box of one screen and the sender it writes as. */
  class Composer {
    var input: string
    const sender: Sender

    constructor (sender: Sender)
      ensures input == "" && this.sender == sender
    {
      input := "";
      this.sender := sender;
    }

    method Edit(text: string)
      modifies this`input
      ensures input == text
    {
      input := text;
    }

    /** Sends the input, untrimmed, when it has visible text, and then clears
        the box; an input of only whitespace changes nothing. */
    method Send(store: AppStore, studentId: string, now: nat) returns (sent: bool)
      modifies this`input, store`pickupQueue
      ensures sent <==> HasVisibleText(old(input))
      ensures sent ==> (input == "" && store.pickupQueue ==
        WithMessage(old(store.pickupQueue), store.students, studentId,
                    NewMessage(old(input), sender, now), now))
      ensures !sent ==> input == old(input) && store.pickupQueue == old(store.pickupQueue)
    {
      SendEnabledIff(input);
      sent := !SendDisabled(input);
      if sent {
        store.SendMessage(studentId, input, sender, now);
        input := "";
      }
    }
  }

  /** A change of the chat from `prev` messages to `history` notifies when the
      chat grew and its newest message came from the other side. */
  predicate Notifies(prev: nat, history: seq<ChatMessage>, from: Sender) {
    |history| > prev && history[|history| - 1].sender == from
  }

  /** Re-rendering the same chat never notifies twice, and one new message
      notifies exactly when it comes from the watched sender. */
  lemma NotifiesOncePerMessage(history: seq<ChatMessage>, m: ChatMessage, from: Sender)
    ensures !Notifies(|history|, history, from)
    ensures Notifies(|history|, history + [m], from) <==> m.sender == from
  {
  }

  /** Remembers how long the chat was when last seen. */
  class ChatTracker {
    var prevMsgCount: nat
    const notifyOn: Sender

    constructor (history: seq<ChatMessage>, notifyOn: Sender)
      ensures prevMsgCount == |history| && this.notifyOn == notifyOn
    {
      prevMsgCount := |history|;
      this.notifyOn := notifyOn;
    }

    /** Runs when the chat changes: notifies on growth ending with a message
        from `notifyOn`, and always records the new length. */
    method OnChange(history: seq<ChatMessage>) returns (notify: bool)
      modifies this`prevMsgCount
      ensures notify == Notifies(old(prevMsgCount), history, notifyOn)
      ensures notify ==> |history| > old(prevMsgCount) && history[|history| - 1].sender == notifyOn
      ensures prevMsgCount == |history|
    {
      notify := false;
      if |history| > prevMsgCount {
        var last := history[|history| - 1];
        if last.sender == notifyOn {
          notify := true;
        }
      }
      prevMsgCount := |history|;
    }
  }
}

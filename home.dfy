/**
 * The `Home` component of the counter page as a state machine: its React
 * state, the socket callbacks and one method per user handler. The socket
 * itself is reduced to whether it is open when a handler runs and to the
 * list of messages passed to `ws.send`.
 */
module CounterPage {
  import opened Messages
  import opened JsString
  import opened Reconciliation

  class Home {
    /** `counters`: the snapshot, written only by `OnMessage`. */
    var counters: Counters
    /** `isConnected`: the liveness flag the open/close/error callbacks keep. */
    var isConnected: bool
    /** The "new counter" inputs. */
    var newCounterName: string
    var newCounterValue: int
    /** The single edit session: which counter shows the set-value input, and its pending value. */
    var editingCounter: Option<string>
    var editValue: int
    /** Every message handed to `ws.send`, oldest first. */
    var outbox: seq<Message>

    /** The initial state of each `useState`, before the socket has sent or received anything. */
    constructor ()
      ensures counters == map[] && !isConnected
      ensures newCounterName == "" && newCounterValue == 0
      ensures editingCounter == None && editValue == 0
      ensures outbox == []
    {
      counters := map[];
      isConnected := false;
      newCounterName := "";
      newCounterValue := 0;
      editingCounter := None;
      editValue := 0;
      outbox := [];
    }

    /** `ws.onopen`: raises the flag; the snapshot is kept as it is. */
    method OnOpen()
      modifies this`isConnected
      ensures isConnected
    {
      isConnected := true;
    }

    /** `ws.onclose`: lowers the flag; the snapshot is not cleared. */
    method OnClose()
      modifies this`isConnected
      ensures !isConnected
    {
      isConnected := false;
    }

    /** `ws.onerror`: lowers the flag, like a close. */
    method OnError()
      modifies this`isConnected
      ensures !isConnected
    {
      isConnected := false;
    }

    /** `ws.onmessage`: folds one decoded frame into the snapshot. */
    method OnMessage(ev: Inbound)
      modifies this`counters
      ensures counters == Apply(old(counters), ev)
    {
      counters := Apply(counters, ev);
    }

    /**
     * `sendMessage`: one `{type, counter, value}` record goes out when the
     * socket is open; otherwise nothing is sent (only logged).
     */
    method SendMessage(kind: string, counter: Option<string>, value: Option<int>, socketOpen: bool)
      modifies this`outbox
      ensures socketOpen ==> outbox == old(outbox) + [Message(kind, counter, value)]
      ensures !socketOpen ==> outbox == old(outbox)
    {
      if socketOpen {
        outbox := outbox + [Message(kind, counter, value)];
      }
    }

    /** `handleIncrement`: sends "increment"; no check that the counter exists, no local change. */
    method HandleIncrement(name: string, socketOpen: bool)
      modifies this`outbox
      ensures outbox == old(outbox) + (if socketOpen then [Message("increment", Some(name), None)] else [])
    {
      SendMessage("increment", Some(name), None, socketOpen);
    }

    /** `handleDecrement`: sends "decrement"; no check that the counter exists, no local change. */
    method HandleDecrement(name: string, socketOpen: bool)
      modifies this`outbox
      ensures outbox == old(outbox) + (if socketOpen then [Message("decrement", Some(name), None)] else [])
    {
      SendMessage("decrement", Some(name), None, socketOpen);
    }

    /** `handleSetValue`: sends "set" and ends the edit session, whether or not the send happened. */
    method HandleSetValue(name: string, value: int, socketOpen: bool)
      modifies this`outbox, this`editingCounter
      ensures outbox == old(outbox) + (if socketOpen then [Message("set", Some(name), Some(value))] else [])
      ensures editingCounter == None
    {
      SendMessage("set", Some(name), Some(value), socketOpen);
      editingCounter := None;
    }

    /**
     * `handleCreateCounter`: when the name is not all whitespace, sends
     * "create" with the name as typed (untrimmed) and the initial value, then
     * clears both inputs, whether or not the send happened; otherwise does nothing.
     */
    method HandleCreateCounter(socketOpen: bool)
      modifies this`outbox, this`newCounterName, this`newCounterValue
      ensures AllWhitespace(old(newCounterName)) ==>
                outbox == old(outbox) && newCounterName == old(newCounterName)
                && newCounterValue == old(newCounterValue)
      ensures !AllWhitespace(old(newCounterName)) ==>
                outbox == old(outbox) +
                  (if socketOpen then [Message("create", Some(old(newCounterName)), Some(old(newCounterValue)))] else [])
                && newCounterName == "" && newCounterValue == 0
    {
      if Trim(newCounterName) != "" {
        SendMessage("create", Some(newCounterName), Some(newCounterValue), socketOpen);
        newCounterName := "";
        newCounterValue := 0;
      }
    }

    /** `handleDeleteCounter`: sends "delete" only if the user confirmed the dialog. */
    method HandleDeleteCounter(name: string, confirmed: bool, socketOpen: bool)
      modifies this`outbox
      ensures outbox == old(outbox) +
                (if confirmed && socketOpen then [Message("delete", Some(name), None)] else [])
    {
      if confirmed {
        SendMessage("delete", Some(name), None, socketOpen);
      }
    }

    /** `startEditing`: opens the edit session for `name`, replacing any other one. */
    method StartEditing(name: string, currentValue: int)
      modifies this`editingCounter, this`editValue
      ensures editingCounter == Some(name) && editValue == currentValue
    {
      editingCounter := Some(name);
      editValue := currentValue;
    }

    /** The Cancel button: ends the edit session without sending anything. */
    method CancelEditing()
      modifies this`editingCounter
      ensures editingCounter == None
    {
      editingCounter := None;
    }

    /** The Set button, shown only for the counter being edited: commits the pending value. */
    method CommitEditing(socketOpen: bool)
      requires editingCounter.Some?
      modifies this`outbox, this`editingCounter
      ensures outbox == old(outbox) +
                (if socketOpen then [Message("set", old(editingCounter), Some(editValue))] else [])
      ensures editingCounter == None
    {
      HandleSetValue(editingCounter.value, editValue, socketOpen);
    }

    /** `handleKeyPress` on the name input: Enter creates, any other key does nothing. */
    method HandleKeyPress(key: string, socketOpen: bool)
      modifies this`outbox, this`newCounterName, this`newCounterValue
      ensures key != "Enter" ==>
                outbox == old(outbox) && newCounterName == old(newCounterName)
                && newCounterValue == old(newCounterValue)
      ensures key == "Enter" && AllWhitespace(old(newCounterName)) ==>
                outbox == old(outbox) && newCounterName == old(newCounterName)
                && newCounterValue == old(newCounterValue)
      ensures key == "Enter" && !AllWhitespace(old(newCounterName)) ==>
                outbox == old(outbox) +
                  (if socketOpen then [Message("create", Some(old(newCounterName)), Some(old(newCounterValue)))] else [])
                && newCounterName == "" && newCounterValue == 0
    {
      if key == "Enter" {
        HandleCreateCounter(socketOpen);
      }
    }

    /** The name input's `onChange`. */
    method ChangeNewCounterName(text: string)
      modifies this`newCounterName
      ensures newCounterName == text
    {
      newCounterName := text;
    }

    /** The initial-value input's `onChange`, given the number it parsed. */
    method ChangeNewCounterValue(value: int)
      modifies this`newCounterValue
      ensures newCounterValue == value
    {
      newCounterValue := value;
    }

    /** The edit input's `onChange`, given the number it parsed. */
    method ChangeEditValue(value: int)
      modifies this`editValue
      ensures editValue == value
    {
      editValue := value;
    }
  }

  /**
   * A client of the contracts above: an increment only goes out on the wire,
   * and the snapshot moves when the server's echo arrives.
   */
  method IncrementRoundTrip()
  {
    var home := new Home();
    home.OnOpen();
    home.OnMessage(Parsed(Message("counter", Some("clicks"), Some(0))));
    assert home.counters == map["clicks" := 0];
    home.HandleIncrement("clicks", true);
    assert home.outbox == [Message("increment", Some("clicks"), None)];
    assert home.counters == map["clicks" := 0];
    home.OnMessage(Parsed(Message("counter", Some("clicks"), Some(1))));
    assert home.counters == map["clicks" := 1];
    home.OnMessage(Parsed(Message("deleted", Some("clicks"), None)));
    assert home.counters == map[];
  }

  /** After the socket closes, the stale snapshot stays in place. */
  method DisconnectKeepsSnapshot()
  {
    var home := new Home();
    home.OnOpen();
    home.OnMessage(Parsed(Message("counter", Some("a"), Some(1))));
    home.OnMessage(Parsed(Message("counter", Some("b"), Some(2))));
    home.OnClose();
    assert !home.isConnected && home.counters == map["a" := 1, "b" := 2];
  }

  /** Starting a second edit session replaces the first; committing sends only the second. */
  method SingleEditSession()
  {
    var home := new Home();
    home.StartEditing("a", 1);
    home.StartEditing("b", 2);
    home.CommitEditing(true);
    assert home.outbox == [Message("set", Some("b"), Some(2))];
    assert home.editingCounter == None;
  }

  /** A name of blanks is not created, and the inputs keep what was typed. */
  method BlankNameNotCreated()
  {
    var home := new Home();
    home.ChangeNewCounterName(" \t");
    home.ChangeNewCounterValue(5);
    home.HandleCreateCounter(true);
    assert home.outbox == [] && home.newCounterName == " \t" && home.newCounterValue == 5;
  }
}

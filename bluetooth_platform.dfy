/**
 * The platform objects that BluetoothEnabler drives, reduced to plain state:
 * the switch widget (checked / enabled / listening), the handler's message
 * queue, the local Bluetooth adapter and the manager that hands it out.
 */
module BluetoothPlatform {

  /** android.bluetooth.BluetoothAdapter state constants. */
  const STATE_OFF: int := 10
  const STATE_TURNING_ON: int := 11
  const STATE_ON: int := 12
  const STATE_TURNING_OFF: int := 13

  /** An android.content.Context, known only by identity. */
  type Context = nat

  /** A handler message: its `what` code and the boolean its data bundle carries. */
  datatype Message = Message(what: int, isBluetoothOn: bool)

  /** The queue left after Handler.removeMessages(what): every message with that code dropped, order kept. */
  function WithoutWhat(q: seq<Message>, what: int): (r: seq<Message>)
    ensures |r| <= |q|
    ensures forall m :: m in r <==> m in q && m.what != what
  {
    if q == [] then []
    else (if q[0].what == what then [] else [q[0]]) + WithoutWhat(q[1..], what)
  }

  /** Filtering distributes over concatenation, so the kept messages stay in order. */
  lemma {:induction false} WithoutWhatAppend(a: seq<Message>, b: seq<Message>, what: int)
    ensures WithoutWhat(a + b, what) == WithoutWhat(a, what) + WithoutWhat(b, what)
  {
    if a == [] {
      assert a + b == b;
    } else {
      assert (a + b)[0] == a[0];
      assert (a + b)[1..] == a[1..] + b;
      WithoutWhatAppend(a[1..], b, what);
    }
  }

  /** A single message is dropped exactly when it carries the code. */
  lemma WithoutWhatSingle(m: Message, what: int)
    ensures WithoutWhat([m], what) == if m.what == what then [] else [m]
  {
    assert [m][1..] == [];
  }

  /** A queue with no message of the code is left exactly as it was, duplicates included. */
  lemma {:induction false} WithoutWhatKeepsOthers(q: seq<Message>, what: int)
    requires forall m :: m in q ==> m.what != what
    ensures WithoutWhat(q, what) == q
  {
    if q != [] {
      assert q[0] in q;
      assert forall m :: m in q[1..] ==> m in q;
      WithoutWhatKeepsOthers(q[1..], what);
      assert [q[0]] + q[1..] == q;
    }
  }

  /** How many queued messages carry the code `what`. */
  function CountWhat(q: seq<Message>, what: int): nat
  {
    if q == [] then 0
    else (if q[0].what == what then 1 else 0) + CountWhat(q[1..], what)
  }

  lemma {:induction false} CountWhatAppend(a: seq<Message>, b: seq<Message>, what: int)
    ensures CountWhat(a + b, what) == CountWhat(a, what) + CountWhat(b, what)
  {
    if a == [] {
      assert a + b == b;
    } else {
      assert (a + b)[1..] == a[1..] + b;
      CountWhatAppend(a[1..], b, what);
    }
  }

  lemma {:induction false} CountWhatNone(q: seq<Message>, what: int)
    requires forall m :: m in q ==> m.what != what
    ensures CountWhat(q, what) == 0
  {
    if q != [] {
      assert q[0] in q;
      assert forall m :: m in q[1..] ==> m in q;
      CountWhatNone(q[1..], what);
    }
  }

  /**
   * Removing every message of a code and then sending one message of that
   * code leaves exactly one such message in the queue, and it carries the
   * value just sent; messages of other codes are kept.
   */
  lemma {:induction false} ReplaceLeavesOnePending(q: seq<Message>, what: int, value: bool)
    ensures CountWhat(WithoutWhat(q, what) + [Message(what, value)], what) == 1
    ensures forall m :: m in WithoutWhat(q, what) + [Message(what, value)] && m.what == what ==> m == Message(what, value)
    ensures forall m :: m in q && m.what != what ==> m in WithoutWhat(q, what) + [Message(what, value)]
  {
    var rest := WithoutWhat(q, what);
    CountWhatAppend(rest, [Message(what, value)], what);
    CountWhatNone(rest, what);
    assert [Message(what, value)][1..] == [];
  }

  /** An android.os.Handler, seen only through its queue of pending messages. */
  class Handler {
    var messages: seq<Message>

    constructor ()
      ensures messages == []
    {
      messages := [];
    }

    method RemoveMessages(what: int)
      modifies this
      ensures messages == WithoutWhat(old(messages), what)
    {
      messages := WithoutWhat(messages, what);
    }

    method SendMessage(msg: Message)
      modifies this
      ensures messages == old(messages) + [msg]
    {
      messages := messages + [msg];
    }
  }

  /**
   * The switch behind a SwitchWidgetController. `toggleEvents` records the
   * change notifications the switch hands to its listener: one per change of
   * `checked` made while the controller is listening.
   */
  class SwitchWidget {
    var checked: bool
    var enabled: bool
    var listening: bool
    var toggleEvents: seq<bool>

    constructor (checked: bool, enabled: bool)
      ensures this.checked == checked && this.enabled == enabled
      ensures !listening && toggleEvents == []
    {
      this.checked := checked;
      this.enabled := enabled;
      listening := false;
      toggleEvents := [];
    }

    function IsChecked(): bool
      reads this
    {
      checked
    }

    /** Sets the value; `notified` says whether the listener is told of the change. */
    method SetChecked(value: bool) returns (notified: bool)
      modifies this
      ensures checked == value && enabled == old(enabled) && listening == old(listening)
      ensures notified <==> listening && value != old(checked)
      ensures toggleEvents == old(toggleEvents) + (if notified then [value] else [])
    {
      notified := false;
      if value != checked {
        checked := value;
        if listening {
          toggleEvents := toggleEvents + [value];
          notified := true;
        }
      }
    }

    method SetEnabled(value: bool)
      modifies this
      ensures enabled == value
      ensures checked == old(checked) && listening == old(listening) && toggleEvents == old(toggleEvents)
    {
      enabled := value;
    }

    method StartListening()
      modifies this
      ensures listening
      ensures checked == old(checked) && enabled == old(enabled) && toggleEvents == old(toggleEvents)
    {
      listening := true;
    }

    method StopListening()
      modifies this
      ensures !listening
      ensures checked == old(checked) && enabled == old(enabled) && toggleEvents == old(toggleEvents)
    {
      listening := false;
    }
  }

  /**
   * A LocalBluetoothAdapter: the state it reports, the answer it gives to an
   * enable or disable request, and the requests it has received.
   */
  class LocalAdapter {
    var state: int
    var accepts: bool
    var requests: seq<bool>

    constructor (state: int, accepts: bool)
      ensures this.state == state && this.accepts == accepts && requests == []
    {
      this.state := state;
      this.accepts := accepts;
      requests := [];
    }

    method SetBluetoothEnabled(enabled: bool) returns (status: bool)
      modifies this
      ensures status == accepts
      ensures requests == old(requests) + [enabled]
      ensures state == old(state) && accepts == old(accepts)
    {
      requests := requests + [enabled];
      status := accepts;
    }
  }

  /** A LocalBluetoothManager; its adapter may be missing. */
  class BluetoothManager {
    const adapter: LocalAdapter?

    constructor (adapter: LocalAdapter?)
      ensures this.adapter == adapter
    {
      this.adapter := adapter;
    }
  }
}

/**
 * BluetoothEnabler: keeps the Bluetooth on/off switch in step with the
 * adapter state and turns the radio on or off when the user toggles it.
 */
module Bluetooth {

  import opened BluetoothPlatform

  /** The `what` code of the search-index update message. */
  const EVENT_UPDATE_INDEX: int := 0

  /** The adapter is between on and off: the switch is frozen. */
  predicate IsTransitional(state: int)
  {
    state == STATE_TURNING_ON || state == STATE_TURNING_OFF
  }

  class BluetoothEnabler {
    const widget: SwitchWidget
    const adapter: LocalAdapter?
    const handler: Handler
    var context: Context
    var validListener: bool
    /** Whether the state-change receiver is registered with the context. */
    var receiverRegistered: bool

    /**
     * The receiver is registered exactly while the listener flag is set, the
     * flag is only ever set with an adapter and a listening widget, and the
     * handler holds at most one message, a search-index update.
     */
    ghost predicate Valid()
      reads this, widget, handler
    {
      receiverRegistered == validListener &&
      (validListener ==> adapter != null && widget.listening) &&
      |handler.messages| <= 1 &&
      forall m :: m in handler.messages ==> m.what == EVENT_UPDATE_INDEX
    }

    /**
     * The switch and the queue reflect adapter state `state`, given the
     * checked value and the queue they had before: a transitional state only
     * disables the switch; ON, OFF and every other state set the checked
     * value (true only for ON), enable the switch and leave one pending index
     * update that carries the same value.
     */
    ghost predicate Reflects(state: int, checkedBefore: bool, messagesBefore: seq<Message>)
      reads this, widget, handler
    {
      if IsTransitional(state) then
        !widget.enabled && widget.checked == checkedBefore && handler.messages == messagesBefore
      else
        widget.enabled && widget.checked == (state == STATE_ON) &&
        handler.messages == [Message(EVENT_UPDATE_INDEX, state == STATE_ON)]
    }

    constructor (ctx: Context, switchWidget: SwitchWidget, manager: BluetoothManager?)
      modifies switchWidget
      ensures Valid() && fresh(handler) && handler.messages == []
      ensures widget == switchWidget && context == ctx
      ensures !validListener && !receiverRegistered
      ensures adapter == (if manager == null then null else manager.adapter)
      ensures manager == null ==>
        !widget.enabled && widget.checked == old(switchWidget.checked) &&
        widget.listening == old(switchWidget.listening) && widget.toggleEvents == old(switchWidget.toggleEvents)
      ensures manager != null ==> unchanged(switchWidget)
    {
      context := ctx;
      widget := switchWidget;
      validListener := false;
      receiverRegistered := false;
      handler := new Handler();
      adapter := if manager == null then null else manager.adapter;
      new;
      if manager == null {
        widget.SetEnabled(false);
      }
    }

    method Resume(ctx: Context)
      requires Valid()
      modifies this, widget, handler
      ensures Valid()
      ensures adapter == null ==>
        !widget.enabled && widget.checked == old(widget.checked) && widget.listening == old(widget.listening) &&
        widget.toggleEvents == old(widget.toggleEvents) && unchanged(this) && unchanged(handler)
      ensures adapter != null ==>
        context == ctx && validListener && receiverRegistered && widget.listening &&
        Reflects(adapter.state, old(widget.checked), old(handler.messages))
      ensures old(validListener) || !old(widget.listening) ==> widget.toggleEvents == old(widget.toggleEvents)
    {
      if adapter == null {
        widget.SetEnabled(false);
        return;
      }
      if context != ctx {
        context := ctx;
      }
      HandleStateChanged(adapter.state);
      widget.StartListening();
      receiverRegistered := true;
      validListener := true;
    }

    method Pause()
      requires Valid()
      modifies this, widget
      ensures Valid() && !validListener && !receiverRegistered
      ensures !old(validListener) ==> unchanged(this) && unchanged(widget)
      ensures old(validListener) ==>
        !widget.listening && widget.checked == old(widget.checked) && widget.enabled == old(widget.enabled) &&
        widget.toggleEvents == old(widget.toggleEvents) && context == old(context)
    {
      if adapter == null {
        return;
      }
      if validListener {
        widget.StopListening();
        receiverRegistered := false;
        validListener := false;
      }
    }

    method HandleStateChanged(state: int)
      requires Valid()
      modifies widget, handler
      ensures Valid()
      ensures Reflects(state, old(widget.checked), old(handler.messages))
      ensures widget.listening == old(widget.listening)
      ensures validListener || !widget.listening ==> widget.toggleEvents == old(widget.toggleEvents)
    {
      if state == STATE_TURNING_ON {
        widget.SetEnabled(false);
      } else if state == STATE_ON {
        SetChecked(true);
        widget.SetEnabled(true);
        UpdateSearchIndex(true);
      } else if state == STATE_TURNING_OFF {
        widget.SetEnabled(false);
      } else if state == STATE_OFF {
        SetChecked(false);
        widget.SetEnabled(true);
        UpdateSearchIndex(false);
      } else {
        SetChecked(false);
        widget.SetEnabled(true);
        UpdateSearchIndex(false);
      }
    }

    /**
     * Writes the switch only when the value differs; while the listener is
     * valid the write happens with listening suspended, so the enabler is not
     * notified of its own change and listening is the same afterwards.
     */
    method SetChecked(isChecked: bool)
      requires Valid()
      modifies widget
      ensures Valid()
      ensures widget.checked == isChecked
      ensures widget.enabled == old(widget.enabled) && widget.listening == old(widget.listening)
      ensures isChecked == old(widget.checked) ==> unchanged(widget)
      ensures widget.toggleEvents == old(widget.toggleEvents) +
        (if !validListener && widget.listening && isChecked != old(widget.checked) then [isChecked] else [])
    {
      if isChecked != widget.IsChecked() {
        if validListener {
          widget.StopListening();
        }
        var _ := widget.SetChecked(isChecked);
        if validListener {
          widget.StartListening();
        }
      }
    }

    method UpdateSearchIndex(isBluetoothOn: bool)
      requires Valid()
      modifies handler
      ensures Valid()
      ensures handler.messages == WithoutWhat(old(handler.messages), EVENT_UPDATE_INDEX) + [Message(EVENT_UPDATE_INDEX, isBluetoothOn)]
      ensures handler.messages == [Message(EVENT_UPDATE_INDEX, isBluetoothOn)]
    {
      handler.RemoveMessages(EVENT_UPDATE_INDEX);
      handler.SendMessage(Message(EVENT_UPDATE_INDEX, isBluetoothOn));
    }

    /**
     * The user toggled the switch to `isChecked`; `radioAllowed` is the
     * airplane-mode answer for the Bluetooth radio. Returns whether the toggle
     * stands. Forcing the switch off while it is listening notifies this same
     * callback with `false`, which runs before the outer call goes on: it asks
     * the adapter to disable and disables the switch.
     */
    method OnSwitchToggled(isChecked: bool, radioAllowed: bool) returns (handled: bool)
      requires Valid()
      modifies widget, adapter
      decreases if isChecked then 1 else 0
      ensures Valid()
      ensures widget.listening == old(widget.listening)
      ensures handled <==> !(isChecked && (!radioAllowed || (adapter != null && !adapter.accepts)))
      ensures adapter != null ==> adapter.state == old(adapter.state) && adapter.accepts == old(adapter.accepts)
      // Radio disallowed: the switch is forced off; the nested callback, when it runs, sends the only request.
      ensures isChecked && !radioAllowed ==>
        !widget.checked &&
        widget.enabled == (if old(widget.listening && widget.checked) then false else old(widget.enabled)) &&
        (adapter != null ==>
          adapter.requests == old(adapter.requests) + (if old(widget.listening && widget.checked) then [false] else []))
      // Otherwise the adapter gets this toggle's request, followed by the nested callback's disable request.
      ensures !(isChecked && !radioAllowed) && adapter != null ==>
        adapter.requests == old(adapter.requests) + [isChecked] +
          (if !handled && old(widget.listening && widget.checked) then [false] else [])
      ensures !handled && radioAllowed ==> !widget.checked && widget.enabled
      ensures handled ==>
        !widget.enabled && widget.checked == old(widget.checked) && widget.toggleEvents == old(widget.toggleEvents)
      ensures !handled ==>
        widget.toggleEvents == old(widget.toggleEvents) + (if old(widget.listening && widget.checked) then [false] else [])
    {
      if isChecked && !radioAllowed {
        var notified := widget.SetChecked(false);
        if notified {
          var _ := OnSwitchToggled(false, radioAllowed);
        }
        return false;
      }
      if adapter != null {
        var status := adapter.SetBluetoothEnabled(isChecked);
        if isChecked && !status {
          var notified := widget.SetChecked(false);
          if notified {
            var _ := OnSwitchToggled(false, radioAllowed);
          }
          widget.SetEnabled(true);
          return false;
        }
      }
      widget.SetEnabled(false);
      return true;
    }
  }
}

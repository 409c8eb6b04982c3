/**
 * The Android call-state receiver: one raw telephony broadcast in, at most one
 * call-life-cycle event out, with `lastState` and `isIncomingCall` as the only state.
 *
 * `Receive` is the transition table as a pure function; the class `Receiver`
 * holds the two mutable fields and its methods are proved against `Receive`.
 */
module PhoneState {
  import opened Wrappers

  /** The raw call state the receiver remembers (TelephonyManager.CALL_STATE_IDLE, _RINGING, _OFFHOOK). */
  datatype RawState = Idle | Ringing | OffHook

  /** The call-state names handed to the Flutter side. */
  datatype CallState = CallIdle | CallIncoming | CallStarted | CallEnded
  {
    function Name(): string
    {
      match this
      case CallIdle => "CALL_IDLE"
      case CallIncoming => "CALL_INCOMING"
      case CallStarted => "CALL_STARTED"
      case CallEnded => "CALL_ENDED"
    }
  }

  /** One invocation of the callback: a call-state name and the number the broadcast carried. */
  datatype Event = Event(state: CallState, number: Option<string>)

  /** TelephonyManager.ACTION_PHONE_STATE_CHANGED. */
  const ActionPhoneStateChanged: string := "android.intent.action.PHONE_STATE"

  /** The values of the EXTRA_STATE extra (TelephonyManager.EXTRA_STATE_IDLE, _RINGING, _OFFHOOK). */
  const PhoneStateIdle: string := "IDLE"
  const PhoneStateRinging: string := "RINGING"
  const PhoneStateOffHook: string := "OFFHOOK"

  /** A broadcast: the intent action, the EXTRA_STATE extra and the EXTRA_INCOMING_NUMBER extra. */
  datatype Broadcast = Broadcast(action: string, state: Option<string>, number: Option<string>)

  /** The receiver's two fields. */
  datatype Fields = Fields(lastState: RawState, isIncomingCall: bool)

  /** What a new receiver starts with. */
  const Initial: Fields := Fields(Idle, false)

  /** What one broadcast does: the fields afterwards and the event (if any) sent to the callback. */
  datatype Outcome = Outcome(after: Fields, event: Option<Event>)

  /**
   * The fields of every receiver that only the handlers below have touched: RINGING is only
   * ever recorded together with the incoming flag, and IDLE only with the flag cleared.
   */
  predicate Consistent(f: Fields)
  {
    && (f.lastState == Ringing ==> f.isIncomingCall)
    && (f.lastState == Idle ==> !f.isIncomingCall)
  }

  predicate IsEvent(e: Option<Event>, s: CallState)
  {
    e.Some? && e.value.state == s
  }

  /** handleIdleState */
  function IdleStep(f: Fields, number: Option<string>): Outcome
  {
    Outcome(Fields(Idle, false), if f.lastState == OffHook then Some(Event(CallEnded, number)) else None)
  }

  /** handleRingingState */
  function RingingStep(f: Fields, number: Option<string>): Outcome
  {
    Outcome(Fields(Ringing, true), Some(Event(CallIncoming, number)))
  }

  /** handleOffHookState */
  function OffHookStep(f: Fields, number: Option<string>): Outcome
  {
    match f.lastState
    case Ringing => Outcome(Fields(OffHook, f.isIncomingCall), Some(Event(CallStarted, number)))
    case Idle => Outcome(Fields(OffHook, false), Some(Event(CallStarted, number)))
    case OffHook => Outcome(Fields(OffHook, f.isIncomingCall), None)
  }

  /** onReceive: dispatch on the action and on the state extra; anything else is ignored. */
  function Receive(f: Fields, b: Broadcast): Outcome
  {
    if b.action != ActionPhoneStateChanged then Outcome(f, None)
    else if b.state == Some(PhoneStateIdle) then IdleStep(f, b.number)
    else if b.state == Some(PhoneStateRinging) then RingingStep(f, b.number)
    else if b.state == Some(PhoneStateOffHook) then OffHookStep(f, b.number)
    else Outcome(f, None)
  }

  /** A broadcast of the phone-state action carrying the given state. */
  function Signal(state: string, number: Option<string>): Broadcast
  {
    Broadcast(ActionPhoneStateChanged, Some(state), number)
  }

  /** The fields after a sequence of broadcasts delivered to one receiver. */
  function After(f: Fields, bs: seq<Broadcast>): Fields
  {
    if bs == [] then f else Receive(After(f, bs[..|bs| - 1]), bs[|bs| - 1]).after
  }

  /** The event (or none) produced by each broadcast of the sequence, in delivery order. */
  function Events(f: Fields, bs: seq<Broadcast>): (e: seq<Option<Event>>)
    ensures |e| == |bs|
  {
    if bs == [] then []
    else Events(f, bs[..|bs| - 1]) + [Receive(After(f, bs[..|bs| - 1]), bs[|bs| - 1]).event]
  }

  // ---------------------------------------------------------------------------
  // One broadcast
  // ---------------------------------------------------------------------------

  /** IDLE emits CALL_ENDED exactly when the last state was OFFHOOK, and always resets both fields. */
  lemma IdleSignal(f: Fields, number: Option<string>)
    ensures Receive(f, Signal(PhoneStateIdle, number)).after == Fields(Idle, false)
    ensures Receive(f, Signal(PhoneStateIdle, number)).event.Some? <==> f.lastState == OffHook
    ensures f.lastState == OffHook ==>
              Receive(f, Signal(PhoneStateIdle, number)).event == Some(Event(CallEnded, number))
  {
  }

  /** RINGING emits CALL_INCOMING from every prior state and records an incoming call. */
  lemma RingingSignal(f: Fields, number: Option<string>)
    ensures Receive(f, Signal(PhoneStateRinging, number)) ==
              Outcome(Fields(Ringing, true), Some(Event(CallIncoming, number)))
  {
  }

  /**
   * OFFHOOK emits CALL_STARTED unless the phone was already off the hook; after RINGING it keeps the
   * incoming flag (which a consistent receiver has set), after IDLE it clears it.
   */
  lemma OffHookSignal(f: Fields, number: Option<string>)
    ensures Receive(f, Signal(PhoneStateOffHook, number)).after.lastState == OffHook
    ensures Receive(f, Signal(PhoneStateOffHook, number)).event.Some? <==> f.lastState != OffHook
    ensures f.lastState != OffHook ==>
              Receive(f, Signal(PhoneStateOffHook, number)).event == Some(Event(CallStarted, number))
    ensures f.lastState == Ringing ==>
              Receive(f, Signal(PhoneStateOffHook, number)).after.isIncomingCall == f.isIncomingCall
    ensures f.lastState == Ringing && Consistent(f) ==>
              Receive(f, Signal(PhoneStateOffHook, number)).after.isIncomingCall
    ensures f.lastState == Idle ==> !Receive(f, Signal(PhoneStateOffHook, number)).after.isIncomingCall
  {
  }

  /** OFFHOOK while already off the hook is silent and changes neither field. */
  lemma RepeatedOffHookSilent(f: Fields, number: Option<string>)
    requires f.lastState == OffHook
    ensures Receive(f, Signal(PhoneStateOffHook, number)) == Outcome(f, None)
  {
  }

  /**
   * Every event carries the number of the broadcast that caused it, comes from a phone-state
   * broadcast, and is never CALL_IDLE.
   */
  lemma EventCarriesNumber(f: Fields, b: Broadcast)
    ensures Receive(f, b).event.Some? ==>
              && Receive(f, b).event.value.number == b.number
              && Receive(f, b).event.value.state != CallIdle
              && b.action == ActionPhoneStateChanged
  {
  }

  /** A foreign action, a missing state or an unknown state leaves the receiver as it was and emits nothing. */
  lemma IgnoredBroadcast(f: Fields, b: Broadcast)
    requires b.action != ActionPhoneStateChanged
          || b.state !in {Some(PhoneStateIdle), Some(PhoneStateRinging), Some(PhoneStateOffHook)}
    ensures Receive(f, b) == Outcome(f, None)
  {
  }

  /** CALL_ENDED is emitted exactly for an IDLE broadcast received while off the hook. */
  lemma EndedIff(f: Fields, b: Broadcast)
    ensures IsEvent(Receive(f, b).event, CallEnded) <==>
              b.action == ActionPhoneStateChanged && b.state == Some(PhoneStateIdle) && f.lastState == OffHook
  {
  }

  /** Every transition keeps the fields consistent. */
  lemma ReceivePreservesConsistent(f: Fields, b: Broadcast)
    requires Consistent(f)
    ensures Consistent(Receive(f, b).after)
  {
  }

  // ---------------------------------------------------------------------------
  // Sequences of broadcasts
  // ---------------------------------------------------------------------------

  /** The i-th event is what the i-th broadcast makes of the fields left by the ones before it. */
  lemma {:induction false} EventAt(f: Fields, bs: seq<Broadcast>, i: nat)
    requires i < |bs|
    ensures Events(f, bs)[i] == Receive(After(f, bs[..i]), bs[i]).event
  {
    var n := |bs|;
    if i < n - 1 {
      EventAt(f, bs[..n - 1], i);
      assert bs[..n - 1][..i] == bs[..i];
    } else {
      assert bs[..i] == bs[..n - 1];
    }
  }

  /** Appending broadcasts only appends events: what was already emitted stays as it was. */
  lemma {:induction false} EventsPrefix(f: Fields, bs: seq<Broadcast>, more: seq<Broadcast>)
    ensures Events(f, bs + more)[..|bs|] == Events(f, bs)
  {
    if more != [] {
      var m := |more|;
      assert (bs + more)[..|bs + more| - 1] == bs + more[..m - 1];
      EventsPrefix(f, bs, more[..m - 1]);
    } else {
      assert bs + more == bs;
    }
  }

  /** A receiver that starts consistent stays consistent whatever it is sent. */
  lemma {:induction false} AfterConsistent(f: Fields, bs: seq<Broadcast>)
    requires Consistent(f)
    ensures Consistent(After(f, bs))
  {
    if bs != [] {
      AfterConsistent(f, bs[..|bs| - 1]);
      ReceivePreservesConsistent(After(f, bs[..|bs| - 1]), bs[|bs| - 1]);
    }
  }

  /** Over any sequence, CALL_ENDED at position i means the broadcast there was IDLE and the phone was off the hook just before. */
  lemma EndedIffAt(f: Fields, bs: seq<Broadcast>, i: nat)
    requires i < |bs|
    ensures IsEvent(Events(f, bs)[i], CallEnded) <==>
              bs[i] == Signal(PhoneStateIdle, bs[i].number) && After(f, bs[..i]).lastState == OffHook
  {
    EventAt(f, bs, i);
    EndedIff(After(f, bs[..i]), bs[i]);
  }

  /** A fresh receiver is off the hook only after it has emitted CALL_STARTED. */
  lemma {:induction false} OffHookAfterStarted(bs: seq<Broadcast>)
    requires After(Initial, bs).lastState == OffHook
    ensures exists j :: 0 <= j < |bs| && IsEvent(Events(Initial, bs)[j], CallStarted)
  {
    var n := |bs|;
    var pre := bs[..n - 1];
    var before := After(Initial, pre);
    if before.lastState == OffHook {
      OffHookAfterStarted(pre);
      var j :| 0 <= j < |pre| && IsEvent(Events(Initial, pre)[j], CallStarted);
      assert Events(Initial, bs)[j] == Events(Initial, pre)[j];
    } else {
      assert IsEvent(Events(Initial, bs)[n - 1], CallStarted);
    }
  }

  /** An event already emitted by a prefix of the broadcasts is the same in the whole sequence. */
  lemma EventOfPrefix(f: Fields, bs: seq<Broadcast>, i: nat, j: nat)
    requires j < i <= |bs|
    ensures Events(f, bs)[j] == Events(f, bs[..i])[j]
  {
    EventsPrefix(f, bs[..i], bs[i..]);
    assert bs[..i] + bs[i..] == bs;
  }

  /** From a fresh receiver, every CALL_ENDED is preceded by a CALL_STARTED. */
  lemma EndedOnlyAfterStarted(bs: seq<Broadcast>, i: nat)
    requires i < |bs|
    requires IsEvent(Events(Initial, bs)[i], CallEnded)
    ensures exists j :: 0 <= j < i && IsEvent(Events(Initial, bs)[j], CallStarted)
  {
    EndedIffAt(Initial, bs, i);
    var pre := bs[..i];
    OffHookAfterStarted(pre);
    var j :| 0 <= j < i && IsEvent(Events(Initial, pre)[j], CallStarted);
    EventOfPrefix(Initial, bs, i, j);
  }

  /** An unanswered call (RINGING then IDLE) yields CALL_INCOMING and then nothing, whatever came before. */
  lemma UnansweredRing(f: Fields, ringing: Option<string>, idle: Option<string>)
    ensures Events(f, [Signal(PhoneStateRinging, ringing), Signal(PhoneStateIdle, idle)]) ==
              [Some(Event(CallIncoming, ringing)), None]
    ensures After(f, [Signal(PhoneStateRinging, ringing), Signal(PhoneStateIdle, idle)]) == Initial
  {
    var bs := [Signal(PhoneStateRinging, ringing), Signal(PhoneStateIdle, idle)];
    assert bs[..1] == [bs[0]];
    assert bs[..1][..0] == [];
    assert After(f, bs[..1]) == Fields(Ringing, true);
    assert Events(f, bs[..1]) == [Some(Event(CallIncoming, ringing))];
  }

  /** Any number of OFFHOOK broadcasts while off the hook are all silent and change nothing. */
  lemma {:induction false} OffHookRunSilent(f: Fields, bs: seq<Broadcast>)
    requires f.lastState == OffHook
    requires forall k :: 0 <= k < |bs| ==> bs[k] == Signal(PhoneStateOffHook, bs[k].number)
    ensures After(f, bs) == f
    ensures Events(f, bs) == seq(|bs|, _ => None)
  {
    if bs != [] {
      OffHookRunSilent(f, bs[..|bs| - 1]);
    }
  }

  // ---------------------------------------------------------------------------
  // The receiver object
  // ---------------------------------------------------------------------------

  class Receiver {
    var lastState: RawState
    var isIncomingCall: bool

    function Current(): Fields
      reads this
    {
      Fields(lastState, isIncomingCall)
    }

    ghost predicate Valid()
      reads this
    {
      Consistent(Current())
    }

    constructor ()
      ensures Valid()
      ensures lastState == Idle && !isIncomingCall
    {
      lastState := Idle;
      isIncomingCall := false;
    }

    /**
     * onReceive. `callbackSet` says whether the static callback slot holds a listener: when it
     * does not, the fields change just the same and nothing is delivered.
     */
    method OnReceive(action: string, state: Option<string>, number: Option<string>, callbackSet: bool)
      returns (delivered: Option<Event>)
      requires Valid()
      modifies this
      ensures Valid()
      ensures Current() == Receive(old(Current()), Broadcast(action, state, number)).after
      ensures delivered == if callbackSet then Receive(old(Current()), Broadcast(action, state, number)).event else None
    {
      ReceivePreservesConsistent(Current(), Broadcast(action, state, number));
      delivered := None;
      if action == ActionPhoneStateChanged {
        if state == Some(PhoneStateIdle) {
          delivered := HandleIdleState(number, callbackSet);
        } else if state == Some(PhoneStateRinging) {
          delivered := HandleRingingState(number, callbackSet);
        } else if state == Some(PhoneStateOffHook) {
          delivered := HandleOffHookState(number, callbackSet);
        }
      }
    }

    method HandleIdleState(number: Option<string>, callbackSet: bool) returns (delivered: Option<Event>)
      modifies this
      ensures Current() == IdleStep(old(Current()), number).after
      ensures delivered == if callbackSet then IdleStep(old(Current()), number).event else None
    {
      delivered := None;
      if lastState == OffHook && callbackSet {
        delivered := Some(Event(CallEnded, number));
      }
      lastState := Idle;
      isIncomingCall := false;
    }

    method HandleRingingState(number: Option<string>, callbackSet: bool) returns (delivered: Option<Event>)
      modifies this
      ensures Current() == RingingStep(old(Current()), number).after
      ensures delivered == if callbackSet then RingingStep(old(Current()), number).event else None
    {
      isIncomingCall := true;
      lastState := Ringing;
      delivered := if callbackSet then Some(Event(CallIncoming, number)) else None;
    }

    method HandleOffHookState(number: Option<string>, callbackSet: bool) returns (delivered: Option<Event>)
      modifies this
      ensures Current() == OffHookStep(old(Current()), number).after
      ensures delivered == if callbackSet then OffHookStep(old(Current()), number).event else None
    {
      delivered := None;
      match lastState {
        case Ringing =>
          if callbackSet {
            delivered := Some(Event(CallStarted, number));
          }
        case Idle =>
          isIncomingCall := false;
          if callbackSet {
            delivered := Some(Event(CallStarted, number));
          }
        case OffHook =>
      }
      lastState := OffHook;
    }
  }
}

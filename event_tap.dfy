/**
 * The system event listener: the event mask it registers for and the
 * decision its tap callback takes on every raw event. Creating the tap,
 * enabling it and binding it to run loops are calls into the operating
 * system and are left out; this module keeps what the listener computes.
 */
module EventTap {

  /** A CGEventType raw value (a 32-bit unsigned integer). */
  type EventType = bv32

  const TouchesEvent: EventType := 29
  const FluidGestureSwipe: EventType := 30
  const FluidEdgeSwipe: EventType := 31
  const TapDisabledByTimeout: EventType := 0xFFFF_FFFE
  const TapDisabledByUserInput: EventType := 0xFFFF_FFFF

  /** A CGEventMask (a 64-bit unsigned integer). */
  type EventMask = bv64

  /** `1 << raw` on a 64-bit mask. Swift's shift operator yields 0 once the
      shift amount reaches the width of the type. */
  function Bit(raw: EventType): (b: EventMask)
    ensures raw < 64 ==> b != 0
    ensures raw >= 64 ==> b == 0
  {
    if raw < 64 then (1 as bv64) << (raw as bv64) else 0
  }

  /** Bit `k` of `m` is set. */
  predicate HasBit(m: EventMask, k: EventType) {
    m & Bit(k) != 0
  }

  /** `events.map { 1 << $0.rawValue }.reduce(acc, |)`. The fold only sets
      bits: every bit of `acc` stays set. */
  function Fold(acc: EventMask, events: seq<EventType>): (r: EventMask)
    ensures r & acc == acc
    decreases |events|
  {
    if events == [] then acc else Fold(acc | Bit(events[0]), events[1..])
  }

  /** The mask the listener registers for its events: bit `k` is set iff
      some requested event type has raw value `k`. */
  function Mask(events: seq<EventType>): (m: EventMask)
    ensures forall k: EventType :: k < 64 ==> (HasBit(m, k) <==> k in events)
  {
    FoldBits(events);
    Fold(0, events)
  }

  /** Bit `k` of `acc | Bit(raw)` is set iff it was set in `acc` or `raw` is `k`. */
  lemma OrBit(acc: EventMask, raw: EventType, k: EventType)
    requires k < 64
    ensures (acc | Bit(raw)) & Bit(k) != 0 <==> acc & Bit(k) != 0 || raw == k
  {
  }

  lemma {:induction false} FoldBit(acc: EventMask, events: seq<EventType>, k: EventType)
    requires k < 64
    ensures Fold(acc, events) & Bit(k) != 0 <==> acc & Bit(k) != 0 || k in events
    decreases |events|
  {
    if events != [] {
      OrBit(acc, events[0], k);
      FoldBit(acc | Bit(events[0]), events[1..], k);
      assert events == [events[0]] + events[1..];
    }
  }

  /** Bit `k` of the fold from 0 is set iff some requested event type has
      raw value `k`. */
  lemma MaskBit(events: seq<EventType>, k: EventType)
    requires k < 64
    ensures Fold(0, events) & Bit(k) != 0 <==> k in events
  {
    FoldBit(0, events, k);
    assert (0 as bv64) & Bit(k) == 0;
  }

  lemma FoldBits(events: seq<EventType>)
    ensures forall k: EventType :: k < 64 ==> (HasBit(Fold(0, events), k) <==> k in events)
  {
    forall k: EventType | k < 64
      ensures HasBit(Fold(0, events), k) <==> k in events
    {
      MaskBit(events, k);
    }
  }

  /** The mask of the touch tracker's listener has exactly bit 29 set. */
  lemma TouchesMask()
    ensures Mask([TouchesEvent]) == 0x2000_0000
  {
    assert Fold(0, [TouchesEvent]) == Fold(Bit(TouchesEvent), []);
  }

  /** What the tap callback does with one raw event. */
  datatype TapOutcome =
    | Reenable(enable: bool)  // tapEnable(tap:enable:) with the listener's flag
    | Deliver                 // the decoded NSEvent goes to the action
    | Drop                    // the event does not decode to an NSEvent

  /** A listener for the given event types. */
  class SystemEventListener {
    const events: seq<EventType>
    const mask: EventMask
    var isEnabled: bool

    constructor (events: seq<EventType>)
      ensures this.events == events && mask == Mask(events) && isEnabled
    {
      this.events := events;
      mask := Mask(events);
      isEnabled := true;
    }

    /** Assigning `isEnabled`; its observer passes the new value to the tap. */
    method SetEnabled(enabled: bool)
      modifies this`isEnabled
      ensures isEnabled == enabled
    {
      isEnabled := enabled;
    }

    /** The callback's branch: the two "tap disabled" notifications re-assert
        the listener's own flag and are not delivered; every other event is
        delivered when it decodes (`decodes`) and dropped otherwise. */
    method Callback(kind: EventType, decodes: bool) returns (outcome: TapOutcome)
      ensures kind == TapDisabledByTimeout || kind == TapDisabledByUserInput
          <==> outcome.Reenable?
      ensures outcome.Reenable? ==> outcome.enable == isEnabled
      ensures outcome == Deliver <==> decodes && !outcome.Reenable?
    {
      if kind == TapDisabledByTimeout || kind == TapDisabledByUserInput {
        outcome := Reenable(isEnabled);
      } else if decodes {
        outcome := Deliver;
      } else {
        outcome := Drop;
      }
    }
  }

  /** A listener paused with `isEnabled = false` stays paused when the
      system auto-disables and the callback re-enables the tap. */
  method PausedStaysPaused(events: seq<EventType>, kind: EventType) returns (outcome: TapOutcome)
    requires kind == TapDisabledByTimeout || kind == TapDisabledByUserInput
    ensures outcome == Reenable(false)
  {
    var listener := new SystemEventListener(events);
    listener.SetEnabled(false);
    outcome := listener.Callback(kind, true);
  }
}

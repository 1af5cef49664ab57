/**
 * The indirect touch tracker: it listens for touch events, drops those with
 * fewer than two touches, and forwards the rest, phase by phase, to the
 * gesture recognizers of the view under the pointer that ask for indirect
 * touches. Window lookup and hit-testing are an input here (the recognizers
 * of the hit view, or None when no window or view is found); the selector
 * calls become a list of (recognizer, handler) calls in the order made.
 */
module Tracker {
  import opened Touches
  import opened EventTap
  import Swipe

  datatype Option<T> = None | Some(value: T)

  /** A gesture recognizer of the hit view: its identity and its optional
      `wantsIndirectTouches` property. */
  datatype RecognizerRef = RecognizerRef(id: nat, wantsIndirectTouches: Option<bool>)

  /** `wantsIndirectTouches ?? false`. */
  predicate Wants(g: RecognizerRef) {
    g.wantsIndirectTouches == Some(true)
  }

  /** The four touch handlers of a gesture recognizer. */
  datatype Handler = TouchesBegan | TouchesMoved | TouchesEnded | TouchesCancelled

  /** The touch phase whose presence makes the tracker call the handler. */
  function PhaseOf(h: Handler): Phase {
    match h
    case TouchesBegan => Phase.Began
    case TouchesMoved => Moved
    case TouchesEnded => Phase.Ended
    case TouchesCancelled => Phase.Cancelled
  }

  /** The position of a handler in the order in which they are called. */
  function Rank(h: Handler): nat {
    match h
    case TouchesBegan => 0
    case TouchesMoved => 1
    case TouchesEnded => 2
    case TouchesCancelled => 3
  }

  datatype Call = Call(recognizer: nat, handler: Handler)

  /** The handlers in the order the tracker tries them. */
  const HandlerOrder: seq<Handler> := [TouchesBegan, TouchesMoved, TouchesEnded, TouchesCancelled]

  /** Some touch of the event is in the handler's phase. */
  predicate Present(e: Event, h: Handler) {
    Count(e, Only(PhaseOf(h))) > 0
  }

  /** The call on recognizer `id` for handler `h`, if its phase is present. */
  function Try(id: nat, e: Event, h: Handler): seq<Call> {
    if Present(e, h) then [Call(id, h)] else []
  }

  predicate Ascending(hs: seq<Handler>) {
    forall i, j :: 0 <= i < j < |hs| ==> Rank(hs[i]) < Rank(hs[j])
  }

  /** The calls on recognizer `id` for the handlers `hs`, tried in turn. */
  function CallsFor(id: nat, e: Event, hs: seq<Handler>): seq<Call>
    decreases |hs|
  {
    if hs == [] then [] else Try(id, e, hs[0]) + CallsFor(id, e, hs[1..])
  }

  /** Each handler tried is called iff its phase is present. */
  lemma {:induction false} CallsForMembership(id: nat, e: Event, hs: seq<Handler>)
    ensures forall c :: c in CallsFor(id, e, hs) <==>
      c.recognizer == id && c.handler in hs && Present(e, c.handler)
    decreases |hs|
  {
    if hs != [] {
      CallsForMembership(id, e, hs[1..]);
      assert forall h :: h in hs <==> h == hs[0] || h in hs[1..];
    }
  }

  /** At most one call per handler tried. */
  lemma {:induction false} CallsForLength(id: nat, e: Event, hs: seq<Handler>)
    ensures |CallsFor(id, e, hs)| <= |hs|
    decreases |hs|
  {
    if hs != [] {
      CallsForLength(id, e, hs[1..]);
    }
  }

  /** Tried in ascending order, the calls come out in ascending order. */
  lemma {:induction false} CallsForAscending(id: nat, e: Event, hs: seq<Handler>)
    requires Ascending(hs)
    ensures forall i, j :: 0 <= i < j < |CallsFor(id, e, hs)| ==>
      Rank(CallsFor(id, e, hs)[i].handler) < Rank(CallsFor(id, e, hs)[j].handler)
    decreases |hs|
  {
    if hs != [] {
      var rest := CallsFor(id, e, hs[1..]);
      assert Ascending(hs[1..]);
      CallsForAscending(id, e, hs[1..]);
      CallsForMembership(id, e, hs[1..]);
      forall c | c in rest ensures Rank(hs[0]) < Rank(c.handler) {
        var k :| 0 <= k < |hs[1..]| && hs[1..][k] == c.handler;
        assert hs[k + 1] == c.handler;
      }
      var r := CallsFor(id, e, hs);
      assert r == Try(id, e, hs[0]) + rest;
      if Present(e, hs[0]) {
        assert forall j :: 0 < j < |r| ==> r[j] == rest[j - 1];
      }
    }
  }

  lemma HandlerOrderFacts()
    ensures Ascending(HandlerOrder)
    ensures forall h: Handler :: h in HandlerOrder
  {
    forall h: Handler ensures h in HandlerOrder {
      assert HandlerOrder[Rank(h)] == h;
    }
    forall i, j | 0 <= i < j < |HandlerOrder| ensures Rank(HandlerOrder[i]) < Rank(HandlerOrder[j]) {
      assert Rank(HandlerOrder[i]) == i && Rank(HandlerOrder[j]) == j;
    }
  }

  /** The calls made on one recognizer that wants indirect touches: each
      handler whose phase some touch of the event has, in the order began,
      moved, ended, cancelled. */
  function HandlerCalls(id: nat, e: Event): (r: seq<Call>)
    ensures forall c :: c in r <==> c.recognizer == id && Present(e, c.handler)
    ensures forall i, j :: 0 <= i < j < |r| ==> Rank(r[i].handler) < Rank(r[j].handler)
    ensures |r| <= 4
  {
    HandlerOrderFacts();
    CallsForLength(id, e, HandlerOrder);
    CallsForMembership(id, e, HandlerOrder);
    CallsForAscending(id, e, HandlerOrder);
    CallsFor(id, e, HandlerOrder)
  }

  /** Trying the handlers of `HandlerOrder` in turn, spelled out. */
  lemma CallsForHandlerOrder(id: nat, e: Event)
    ensures CallsFor(id, e, HandlerOrder) ==
      Try(id, e, TouchesBegan) + Try(id, e, TouchesMoved) +
      Try(id, e, TouchesEnded) + Try(id, e, TouchesCancelled)
  {
    var last := [TouchesCancelled];
    var ended := [TouchesEnded, TouchesCancelled];
    var moved := [TouchesMoved, TouchesEnded, TouchesCancelled];
    assert last[1..] == [] && ended[1..] == last && moved[1..] == ended && HandlerOrder[1..] == moved;
    var b, m, n, c := Try(id, e, TouchesBegan), Try(id, e, TouchesMoved),
      Try(id, e, TouchesEnded), Try(id, e, TouchesCancelled);
    assert CallsFor(id, e, last) == c + [];
    assert CallsFor(id, e, ended) == n + c;
    assert CallsFor(id, e, moved) == m + (n + c);
    assert CallsFor(id, e, HandlerOrder) == b + (m + (n + c));
    assert b + (m + (n + c)) == b + m + n + c;
  }

  /** The four `if` tests of the per-recognizer closure, one after the other. */
  lemma HandlerCallsUnrolled(id: nat, e: Event)
    ensures HandlerCalls(id, e) ==
      Try(id, e, TouchesBegan) + Try(id, e, TouchesMoved) +
      Try(id, e, TouchesEnded) + Try(id, e, TouchesCancelled)
  {
    CallsForHandlerOrder(id, e);
  }

  /** The calls made on the recognizers `gs`, in their order, skipping
      those that do not want indirect touches. */
  function RecognizerCalls(gs: seq<RecognizerRef>, e: Event): (r: seq<Call>)
    ensures |r| <= 4 * |gs|
    ensures (forall g :: g in gs ==> !Wants(g)) ==> r == []
    decreases |gs|
  {
    if gs == [] then []
    else
      var g := gs[|gs| - 1];
      assert forall h :: h in gs[..|gs| - 1] ==> h in gs;
      RecognizerCalls(gs[..|gs| - 1], e) + (if Wants(g) then HandlerCalls(g.id, e) else [])
  }

  /** All calls the tracker makes for one event, given the recognizers of
      the hit view (`hit`). */
  function DispatchCalls(e: Event, hit: Option<seq<RecognizerRef>>): (r: seq<Call>)
    ensures r != [] ==> Count(e, AnyPhase) >= 2 && hit.Some?
    ensures hit.Some? ==> |r| <= 4 * |hit.value|
  {
    if Count(e, AnyPhase) < 2 then []
    else
      match hit
      case None => []
      case Some(gs) => RecognizerCalls(gs, e)
  }

  lemma {:induction false} RecognizerCallsMembership(gs: seq<RecognizerRef>, e: Event, c: Call)
    ensures c in RecognizerCalls(gs, e) <==>
      (exists g :: g in gs && g.id == c.recognizer && Wants(g)) &&
      Present(e, c.handler)
    decreases |gs|
  {
    if gs != [] {
      var init, g := gs[..|gs| - 1], gs[|gs| - 1];
      assert gs == init + [g];
      RecognizerCallsMembership(init, e, c);
      if exists h :: h in gs && h.id == c.recognizer && Wants(h) {
        var h :| h in gs && h.id == c.recognizer && Wants(h);
        assert h in init || h == g;
      }
    }
  }

  /** A call is made iff the event has at least two touches, a view was hit,
      one of its recognizers with that identity wants indirect touches and
      some touch of the event has the handler's phase. */
  lemma DispatchMembership(e: Event, hit: Option<seq<RecognizerRef>>, c: Call)
    ensures c in DispatchCalls(e, hit) <==>
      Count(e, AnyPhase) >= 2 && hit.Some? &&
      (exists g :: g in hit.value && g.id == c.recognizer && Wants(g)) &&
      Present(e, c.handler)
  {
    if Count(e, AnyPhase) >= 2 && hit.Some? {
      RecognizerCallsMembership(hit.value, e, c);
    }
  }

  /** The calls in `calls` made on recognizer `id`, in order. */
  function CallsTo(calls: seq<Call>, id: nat): seq<Call> {
    if calls == [] then []
    else (if calls[0].recognizer == id then [calls[0]] else []) + CallsTo(calls[1..], id)
  }

  lemma {:induction false} CallsToAppend(a: seq<Call>, b: seq<Call>, id: nat)
    ensures CallsTo(a + b, id) == CallsTo(a, id) + CallsTo(b, id)
    decreases |a|
  {
    if a == [] {
      assert a + b == b;
    } else {
      var h := if a[0].recognizer == id then [a[0]] else [];
      assert (a + b)[0] == a[0];
      assert (a + b)[1..] == a[1..] + b;
      assert CallsTo(a + b, id) == h + CallsTo(a[1..] + b, id);
      CallsToAppend(a[1..], b, id);
      assert h + (CallsTo(a[1..], id) + CallsTo(b, id)) == (h + CallsTo(a[1..], id)) + CallsTo(b, id);
    }
  }

  lemma {:induction false} CallsToAll(calls: seq<Call>, id: nat)
    requires forall c :: c in calls ==> c.recognizer == id
    ensures CallsTo(calls, id) == calls
    decreases |calls|
  {
    if calls != [] {
      CallsToAll(calls[1..], id);
    }
  }

  lemma {:induction false} CallsToNone(calls: seq<Call>, id: nat)
    requires forall c :: c in calls ==> c.recognizer != id
    ensures CallsTo(calls, id) == []
    decreases |calls|
  {
    if calls != [] {
      CallsToNone(calls[1..], id);
    }
  }

  predicate DistinctIds(gs: seq<RecognizerRef>) {
    forall i, j :: 0 <= i < j < |gs| ==> gs[i].id != gs[j].id
  }

  /** With distinct identities, no earlier recognizer shares the last one's. */
  lemma LastIdUnique(gs: seq<RecognizerRef>)
    requires DistinctIds(gs) && gs != []
    ensures forall h :: h in gs[..|gs| - 1] ==> h.id != gs[|gs| - 1].id
  {
    forall h | h in gs[..|gs| - 1] ensures h.id != gs[|gs| - 1].id {
      var i :| 0 <= i < |gs| - 1 && gs[..|gs| - 1][i] == h;
      assert gs[i] == h;
    }
  }

  lemma {:induction false} RecognizerCallsTo(gs: seq<RecognizerRef>, e: Event, id: nat)
    requires DistinctIds(gs)
    ensures CallsTo(RecognizerCalls(gs, e), id) ==
      if exists g :: g in gs && g.id == id && Wants(g) then HandlerCalls(id, e) else []
    decreases |gs|
  {
    if gs != [] {
      var init, g := gs[..|gs| - 1], gs[|gs| - 1];
      assert gs == init + [g];
      var mine := if Wants(g) then HandlerCalls(g.id, e) else [];
      RecognizerCallsTo(init, e, id);
      CallsToAppend(RecognizerCalls(init, e), mine, id);
      if g.id == id {
        CallsToAll(mine, id);
        LastIdUnique(gs);
      } else {
        CallsToNone(mine, id);
        if exists h :: h in gs && h.id == id && Wants(h) {
          var h :| h in gs && h.id == id && Wants(h);
          assert h in init;
        }
      }
    }
  }

  /** When the hit view's recognizers have distinct identities, recognizer
      `id` receives its handler calls (each phase present, in the order
      began, moved, ended, cancelled) if the event has two or more touches
      and it wants indirect touches, and nothing otherwise. */
  lemma DispatchTo(e: Event, gs: seq<RecognizerRef>, id: nat)
    requires DistinctIds(gs)
    ensures CallsTo(DispatchCalls(e, Some(gs)), id) ==
      if Count(e, AnyPhase) >= 2 && exists g :: g in gs && g.id == id && Wants(g)
      then HandlerCalls(id, e) else []
  {
    if Count(e, AnyPhase) >= 2 {
      RecognizerCallsTo(gs, e, id);
    }
  }

  /** A forwarded `touchesBegan` always passes the recognizer's guard: a
      touch in phase `.began` is touching. */
  lemma ForwardedBeganIsTouching(e: Event, hit: Option<seq<RecognizerRef>>, id: nat)
    requires Call(id, TouchesBegan) in DispatchCalls(e, hit)
    ensures Count(e, Touching) > 0
  {
    DispatchMembership(e, hit, Call(id, TouchesBegan));
    BeganIsTouching(e);
  }

  /** An event whose touches are all moving calls only `touchesMoved`. */
  lemma {:induction false} OnlyMovedTouches(id: nat, e: Event)
    requires |e| > 0 && forall t :: t in e ==> t.phase == Moved
    ensures HandlerCalls(id, e) == [Call(id, TouchesMoved)]
  {
    NoneMatching(e, Only(Phase.Began));
    NoneMatching(e, Only(Phase.Ended));
    NoneMatching(e, Only(Phase.Cancelled));
    assert Present(e, TouchesMoved) by {
      assert e[0] in Matching(e, Only(Moved));
    }
    HandlerCallsUnrolled(id, e);
  }

  /** Of two recognizers, only the first wants indirect touches. */
  lemma FirstOfTwoWants(g: RecognizerRef, h: RecognizerRef, e: Event)
    requires Wants(g) && !Wants(h)
    ensures RecognizerCalls([g, h], e) == HandlerCalls(g.id, e)
  {
    var gs := [g, h];
    assert gs[..1][..0] == [] && gs[..1] == [g];
    assert RecognizerCalls(gs[..1], e) == [] + HandlerCalls(g.id, e);
  }

  /** The gate counts two or more touches, so a three-finger move is
      forwarded, here to the one recognizer of the view that wants
      indirect touches. */
  lemma ThreeFingersForwarded(e: Event)
    requires |e| == 3 && Distinct(e) && forall t :: t in e ==> t.phase == Moved
    ensures DispatchCalls(e, Some([RecognizerRef(7, Some(true)), RecognizerRef(8, None)]))
      == [Call(7, TouchesMoved)]
  {
    OnlyMovedTouches(7, e);
    FirstOfTwoWants(RecognizerRef(7, Some(true)), RecognizerRef(8, None), e);
    assert Count(e, AnyPhase) == 3;
  }

  class IndirectTouchTracker {
    const listener: SystemEventListener

    /** A tracker listens for touch events only. Binding the listener to the
        main run loop happens asynchronously in the Swift initializer. */
    constructor ()
      ensures fresh(listener)
      ensures listener.events == [TouchesEvent] && listener.mask == Mask([TouchesEvent])
      ensures listener.isEnabled
    {
      listener := new SystemEventListener([TouchesEvent]);
    }

    /** The body of the per-recognizer closure: each of the four handlers
        is called when a touch of the event is in its phase. */
    method Forward(id: nat, event: Event) returns (made: seq<Call>)
      ensures made == HandlerCalls(id, event)
    {
      made := [];
      if Present(event, TouchesBegan) {
        made := made + [Call(id, TouchesBegan)];
      }
      ghost var began := made;
      if Present(event, TouchesMoved) {
        made := made + [Call(id, TouchesMoved)];
      }
      ghost var moved := made;
      if Present(event, TouchesEnded) {
        made := made + [Call(id, TouchesEnded)];
      }
      ghost var ended := made;
      if Present(event, TouchesCancelled) {
        made := made + [Call(id, TouchesCancelled)];
      }
      HandlerCallsUnrolled(id, event);
      assert began == Try(id, event, TouchesBegan);
      assert moved == began + Try(id, event, TouchesMoved);
      assert ended == moved + Try(id, event, TouchesEnded);
      assert made == ended + Try(id, event, TouchesCancelled);
    }

    /** Forwards `event` to the recognizers of the hit view, recognizer by
        recognizer and, for each, handler by handler. */
    method Dispatch(event: Event, hit: Option<seq<RecognizerRef>>) returns (calls: seq<Call>)
      ensures calls == DispatchCalls(event, hit)
    {
      calls := [];
      if Count(event, AnyPhase) < 2 {
        return;
      }
      if hit.None? {
        return;
      }
      var gs := hit.value;
      var k := 0;
      while k < |gs|
        invariant 0 <= k <= |gs|
        invariant calls == RecognizerCalls(gs[..k], event)
      {
        var g := gs[k];
        var wants := match g.wantsIndirectTouches case Some(b) => b case None => false;
        if wants {
          var made := Forward(g.id, event);
          calls := calls + made;
        }
        assert gs[..k + 1][..k] == gs[..k];
        k := k + 1;
      }
      assert gs[..k] == gs;
    }
  }

  /** The process-wide tracker behind the class property
      `NSGestureRecognizer.wantsIndirectTouches`. */
  class IndirectTouchSupport {
    var tracker: IndirectTouchTracker?

    /** The process starts without a tracker, so the flag reads false. */
    constructor ()
      ensures tracker == null && !WantsIndirectTouches()
    {
      tracker := null;
    }

    /** The getter: a tracker exists. */
    function WantsIndirectTouches(): (w: bool)
      reads this
      ensures w <==> tracker != null
    {
      tracker != null
    }

    /** The setter creates a tracker when turned on without one, drops it
        when turned off with one, and otherwise changes nothing. */
    method SetWantsIndirectTouches(newValue: bool)
      modifies this`tracker
      ensures WantsIndirectTouches() == newValue
      ensures old(tracker) != null && newValue ==> tracker == old(tracker)
      ensures old(tracker) == null && !newValue ==> tracker == null
      ensures old(tracker) == null && newValue ==> fresh(tracker)
    {
      if tracker != null && !newValue {
        tracker := null;
      } else if tracker == null && newValue {
        tracker := new IndirectTouchTracker();
      }
    }
  }

  /** Whatever assignments are made to the flag, in whatever order, the
      getter returns the last value assigned, starting from false. */
  method AssignFlags(values: seq<bool>) returns (initially: bool, seen: seq<bool>)
    ensures !initially
    ensures |seen| == |values|
    ensures forall k :: 0 <= k < |values| ==> seen[k] == values[k]
  {
    var support := new IndirectTouchSupport();
    initially := support.WantsIndirectTouches();
    seen := [];
    var k := 0;
    while k < |values|
      invariant 0 <= k <= |values| && |seen| == k
      invariant forall i :: 0 <= i < k ==> seen[i] == values[i]
    {
      support.SetWantsIndirectTouches(values[k]);
      seen := seen + [support.WantsIndirectTouches()];
      k := k + 1;
    }
  }

  /** The router forwards a three-finger move to a recognizer that wants
      indirect touches, and the recognizer, which needs exactly two touches,
      fails the gesture. `began` is the sample that began it. */
  method ThreeFingerMoveFails(began: Event, e: Event) returns (calls: seq<Call>, state: Swipe.State)
    requires Count(began, Touching) > 0
    requires |e| == 3 && Distinct(e) && forall t :: t in e ==> t.phase == Moved
    ensures calls == [Call(7, TouchesMoved)] && state == Swipe.Failed
  {
    var r := new Swipe.TouchSwipeRecognizer();
    r.TouchesBegan(began, 0.0);
    calls := DispatchCalls(e, Some([RecognizerRef(7, Some(r.wantsIndirectTouches)), RecognizerRef(8, None)]));
    ThreeFingersForwarded(e);
    if Call(7, TouchesMoved) in calls {
      r.TouchesMoved(e, 1.0);
    }
    state := r.state;
  }
}

/** Optional gesture callbacks bound to the current geometry (`useHandler` and
    `useHandlers` in use-hooks.ts). A wrapper is kept as the values its closure
    captures, which are also the dependencies `React.useCallback` is given;
    invoking it is `Call`. */
module Handlers {
  import opened Wrappers
  import opened Geometry

  /** A wrapper produced by `useHandler`: the optional callback and the geometry it closes over. */
  datatype Wrapper<T> = Wrapper(handler: Option<Payload -> T>, geometry: Snapshot)

  /** What one invocation of a wrapper does: the payloads passed to the callback,
      in order, and the value the wrapper returns (`None` for "no callback"). */
  datatype Invocation<T> = Invocation(calls: seq<Payload>, result: Option<T>)

  /** `useHandler(handler, {currentSize, currentPosition, currentRotation})`. */
  function UseHandler<T>(handler: Option<Payload -> T>, geometry: Snapshot): Wrapper<T>
  {
    Wrapper(handler, geometry)
  }

  /** Invoking a wrapper: `handler && handler({position, rotation, size})`.
      An absent callback is not called and nothing is returned; a present one is
      called exactly once, with the captured geometry, and its result is returned. */
  function Call<T>(w: Wrapper<T>): (inv: Invocation<T>)
    ensures w.handler.None? ==> inv.calls == [] && inv.result == None
    ensures w.handler.Some? ==>
      && |inv.calls| == 1
      && inv.calls[0].position == w.geometry.currentPosition
      && inv.calls[0].rotation == w.geometry.currentRotation
      && inv.calls[0].size == w.geometry.currentSize
      && inv.result == Some(w.handler.value(inv.calls[0]))
  {
    match w.handler
    case None => Invocation([], None)
    case Some(f) =>
      var payload := Payload(w.geometry.currentPosition, w.geometry.currentRotation, w.geometry.currentSize);
      Invocation([payload], Some(f(payload)))
  }

  /** A wrapper re-created for a new snapshot forwards that snapshot, not the earlier one. */
  lemma CallForwardsCurrentSnapshot<T>(f: Payload -> T, g1: Snapshot, g2: Snapshot)
    requires g1 != g2
    ensures Call(UseHandler(Some(f), g1)).calls != Call(UseHandler(Some(f), g2)).calls
    ensures Call(UseHandler(Some(f), g2)).result == Some(f(Payload(g2.currentPosition, g2.currentRotation, g2.currentSize)))
  {
  }

  /** The three gestures and their three phases. */
  datatype Gesture = Drag | Resize | Rotate
  datatype Stage = Start | Move | End
  datatype Phase = Phase(gesture: Gesture, stage: Stage)

  /** The nine optional callbacks a component passes in. */
  datatype Callbacks<T> = Callbacks(
    onDrag: Option<Payload -> T>, onDragStart: Option<Payload -> T>, onDragEnd: Option<Payload -> T>,
    onResize: Option<Payload -> T>, onResizeStart: Option<Payload -> T>, onResizeEnd: Option<Payload -> T>,
    onRotate: Option<Payload -> T>, onRotateStart: Option<Payload -> T>, onRotateEnd: Option<Payload -> T>)

  /** The nine wrappers `useHandlers` returns. */
  datatype HandlerSet<T> = HandlerSet(
    handleDrag: Wrapper<T>, handleDragEnd: Wrapper<T>, handleDragStart: Wrapper<T>,
    handleResize: Wrapper<T>, handleResizeEnd: Wrapper<T>, handleResizeStart: Wrapper<T>,
    handleRotate: Wrapper<T>, handleRotateEnd: Wrapper<T>, handleRotateStart: Wrapper<T>)

  /** The callback slot named after a phase: `on` + gesture + stage ("Move" is unnamed). */
  function CallbackFor<T>(cbs: Callbacks<T>, p: Phase): Option<Payload -> T> {
    match p
    case Phase(Drag, Move) => cbs.onDrag
    case Phase(Drag, Start) => cbs.onDragStart
    case Phase(Drag, End) => cbs.onDragEnd
    case Phase(Resize, Move) => cbs.onResize
    case Phase(Resize, Start) => cbs.onResizeStart
    case Phase(Resize, End) => cbs.onResizeEnd
    case Phase(Rotate, Move) => cbs.onRotate
    case Phase(Rotate, Start) => cbs.onRotateStart
    case Phase(Rotate, End) => cbs.onRotateEnd
  }

  /** The wrapper named after a phase: `handle` + gesture + stage. */
  function HandlerFor<T>(hs: HandlerSet<T>, p: Phase): Wrapper<T> {
    match p
    case Phase(Drag, Move) => hs.handleDrag
    case Phase(Drag, Start) => hs.handleDragStart
    case Phase(Drag, End) => hs.handleDragEnd
    case Phase(Resize, Move) => hs.handleResize
    case Phase(Resize, Start) => hs.handleResizeStart
    case Phase(Resize, End) => hs.handleResizeEnd
    case Phase(Rotate, Move) => hs.handleRotate
    case Phase(Rotate, Start) => hs.handleRotateStart
    case Phase(Rotate, End) => hs.handleRotateEnd
  }

  /** `useHandlers`: every `handleX` wraps `onX` (and no other callback), over one shared snapshot. */
  function UseHandlers<T>(geometry: Snapshot, cbs: Callbacks<T>): (hs: HandlerSet<T>)
    ensures forall p: Phase :: HandlerFor(hs, p).handler == CallbackFor(cbs, p)
    ensures forall p: Phase :: HandlerFor(hs, p).geometry == geometry
  {
    HandlerSet(
      UseHandler(cbs.onDrag, geometry), UseHandler(cbs.onDragEnd, geometry), UseHandler(cbs.onDragStart, geometry),
      UseHandler(cbs.onResize, geometry), UseHandler(cbs.onResizeEnd, geometry), UseHandler(cbs.onResizeStart, geometry),
      UseHandler(cbs.onRotate, geometry), UseHandler(cbs.onRotateEnd, geometry), UseHandler(cbs.onRotateStart, geometry))
  }

  /** The nine names are nine different slots: each phase reads its own callback. */
  lemma PhasesHaveDistinctSlots<T>(cbs: Callbacks<T>, p: Phase, f: Payload -> T)
    ensures CallbackFor(SetCallback(cbs, p, Some(f)), p) == Some(f)
    ensures forall q: Phase :: q != p ==> CallbackFor(SetCallback(cbs, p, Some(f)), q) == CallbackFor(cbs, q)
  {
  }

  /** `cbs` with the slot of phase `p` replaced. */
  function SetCallback<T>(cbs: Callbacks<T>, p: Phase, c: Option<Payload -> T>): Callbacks<T> {
    match p
    case Phase(Drag, Move) => cbs.(onDrag := c)
    case Phase(Drag, Start) => cbs.(onDragStart := c)
    case Phase(Drag, End) => cbs.(onDragEnd := c)
    case Phase(Resize, Move) => cbs.(onResize := c)
    case Phase(Resize, Start) => cbs.(onResizeStart := c)
    case Phase(Resize, End) => cbs.(onResizeEnd := c)
    case Phase(Rotate, Move) => cbs.(onRotate := c)
    case Phase(Rotate, Start) => cbs.(onRotateStart := c)
    case Phase(Rotate, End) => cbs.(onRotateEnd := c)
  }

  /** Invoking the wrapper of a phase calls that phase's callback once with the
      shared snapshot, or, when the component gave none, calls nothing. */
  lemma HandlerCallsItsOwnCallback<T>(geometry: Snapshot, cbs: Callbacks<T>, p: Phase)
    ensures var inv := Call(HandlerFor(UseHandlers(geometry, cbs), p));
      && (CallbackFor(cbs, p).None? ==> inv.calls == [] && inv.result == None)
      && (CallbackFor(cbs, p).Some? ==>
            inv.calls == [Payload(geometry.currentPosition, geometry.currentRotation, geometry.currentSize)]
            && inv.result == Some(CallbackFor(cbs, p).value(inv.calls[0])))
  {
  }
}

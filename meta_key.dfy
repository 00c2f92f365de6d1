/** The modifier-key tracker (`useMeta` in use-hooks.ts): one boolean state cell,
    set by a key-down of the watched key, cleared by its key-up, and cleared by
    every window focus or blur so that a key-up lost while the window had no
    focus cannot leave the key "stuck". */
module MetaKey {
  import opened Wrappers
  import Platform

  /** A JavaScript value as the conditional operator sees it (only truthiness matters). */
  datatype JsValue = Undefined | Bool(b: bool) | Str(s: string) | Function

  predicate Truthy(v: JsValue) {
    match v
    case Undefined => false
    case Bool(b) => b
    case Str(s) => s != ""
    case Function => true
  }

  /** `cond ? "Meta" : "Control"`. */
  function SelectKey(cond: JsValue): string {
    if Truthy(cond) then "Meta" else "Control"
  }

  /** The condition of the watched-key choice is the arrow function `isOSX` itself,
      which is never called: a function value. */
  const IsOSXReference: JsValue := Function

  /** The watched key as the hook computes it: "Meta", whatever the platform. */
  function WatchedKey(): (key: string)
    ensures key == "Meta" && key != "Control"
  {
    SelectKey(IsOSXReference)
  }

  /** Calling `isOSX()` would watch "Control" off macOS; the hook as written does not. */
  lemma WatchedKeyIgnoresPlatform(appVersion: Option<string>)
    ensures SelectKey(Bool(Platform.IsOSX(appVersion))) == "Control" <==> !Platform.IsOSX(appVersion)
    ensures WatchedKey() == "Meta"
  {
  }

  /** The window events the hook listens to. */
  datatype Event = KeyDown(key: string) | KeyUp(key: string) | Focus | Blur

  /** One handler run on the state cell, for a hook watching `watched`. */
  function Step(held: bool, watched: string, e: Event): bool {
    match e
    case KeyDown(k) => if k == watched then true else held
    case KeyUp(k) => if k == watched then false else held
    case Focus => false
    case Blur => false
  }

  /** The state after the events `events`, delivered in order, starting from `held`. */
  function Run(held: bool, watched: string, events: seq<Event>): bool
    decreases |events|
  {
    if events == [] then held
    else Step(Run(held, watched, events[..|events| - 1]), watched, events[|events| - 1])
  }

  /** An event that can change the state: the watched key going down or up, focus, blur. */
  predicate Relevant(watched: string, e: Event) {
    e == KeyDown(watched) || e == KeyUp(watched) || e.Focus? || e.Blur?
  }

  /** No event of `events` from index `from` on can change the state. */
  ghost predicate QuietFrom(watched: string, events: seq<Event>, from: nat) {
    forall j :: from <= j < |events| ==> !Relevant(watched, events[j])
  }

  /** Reference meaning of "held": the last state-changing event is a key-down of
      the watched key, or there is none and the key was held at the start. */
  ghost predicate HeldBySpec(held: bool, watched: string, events: seq<Event>) {
    (exists i :: 0 <= i < |events| && events[i] == KeyDown(watched) && QuietFrom(watched, events, i + 1))
    || (held && QuietFrom(watched, events, 0))
  }

  lemma RunSnoc(held: bool, watched: string, events: seq<Event>, e: Event)
    ensures Run(held, watched, events + [e]) == Step(Run(held, watched, events), watched, e)
  {
    assert (events + [e])[..|events|] == events;
  }

  /** The fold agrees with the reference meaning on every event sequence. */
  lemma {:induction false} RunMatchesSpec(held: bool, watched: string, events: seq<Event>)
    ensures Run(held, watched, events) == HeldBySpec(held, watched, events)
    decreases |events|
  {
    if events != [] {
      var n := |events|;
      var init, e := events[..n - 1], events[n - 1];
      RunMatchesSpec(held, watched, init);
      if e == KeyDown(watched) {
        assert QuietFrom(watched, events, n);
      } else if Relevant(watched, e) {
        assert !Run(held, watched, events);
        assert !QuietFrom(watched, events, 0);
        forall i | 0 <= i < n && events[i] == KeyDown(watched)
          ensures !QuietFrom(watched, events, i + 1)
        {
          assert i < n - 1 && Relevant(watched, events[n - 1]);
        }
      } else {
        assert Run(held, watched, events) == Run(held, watched, init);
        assert QuietFrom(watched, events, 0) == QuietFrom(watched, init, 0);
        if HeldBySpec(held, watched, events) {
          if i :| 0 <= i < n && events[i] == KeyDown(watched) && QuietFrom(watched, events, i + 1) {
            assert init[i] == KeyDown(watched) && QuietFrom(watched, init, i + 1);
          }
        }
        if HeldBySpec(held, watched, init) {
          if i :| 0 <= i < n - 1 && init[i] == KeyDown(watched) && QuietFrom(watched, init, i + 1) {
            assert events[i] == KeyDown(watched) && QuietFrom(watched, events, i + 1);
          }
        }
      }
    }
  }

  /** The stuck-key defence: after a focus or blur, with no later key-down of the
      watched key, the key reads as not held, whatever came before. */
  lemma ResetForcesRelease(held: bool, watched: string, events: seq<Event>, r: nat)
    requires r < |events| && (events[r].Focus? || events[r].Blur?)
    requires forall j :: r < j < |events| ==> events[j] != KeyDown(watched)
    ensures !Run(held, watched, events)
  {
    RunMatchesSpec(held, watched, events);
    assert Relevant(watched, events[r]);
    forall i | 0 <= i < |events| && events[i] == KeyDown(watched)
      ensures !QuietFrom(watched, events, i + 1)
    {
      assert i < r;
    }
  }

  /** The events of `events` that can change the state, in order. */
  function KeepRelevant(watched: string, events: seq<Event>): (kept: seq<Event>)
    decreases |events|
    ensures forall j :: 0 <= j < |kept| ==> Relevant(watched, kept[j])
  {
    if events == [] then []
    else
      var init, e := events[..|events| - 1], events[|events| - 1];
      if Relevant(watched, e) then KeepRelevant(watched, init) + [e] else KeepRelevant(watched, init)
  }

  /** Every other key, "Control" included, is ignored: dropping them changes nothing. */
  lemma {:induction false} IrrelevantEventsIgnored(held: bool, watched: string, events: seq<Event>)
    ensures Run(held, watched, KeepRelevant(watched, events)) == Run(held, watched, events)
    decreases |events|
  {
    if events != [] {
      var init, e := events[..|events| - 1], events[|events| - 1];
      IrrelevantEventsIgnored(held, watched, init);
      if Relevant(watched, e) {
        RunSnoc(held, watched, KeepRelevant(watched, init), e);
      }
    }
  }

  /** Since the watched key is "Meta", a "Control" key-down never changes the state. */
  lemma ControlKeyDownIgnored(held: bool, events: seq<Event>)
    ensures Run(held, WatchedKey(), events + [KeyDown("Control")]) == Run(held, WatchedKey(), events)
  {
    RunSnoc(held, WatchedKey(), events, KeyDown("Control"));
  }

  /** A key-down of the watched key holds it from either state; a second one changes nothing. */
  lemma KeyDownIdempotent(held: bool, watched: string, events: seq<Event>)
    ensures Run(held, watched, events + [KeyDown(watched)])
    ensures Run(held, watched, events + [KeyDown(watched), KeyDown(watched)]) == Run(held, watched, events + [KeyDown(watched)])
  {
    RunSnoc(held, watched, events, KeyDown(watched));
    assert events + [KeyDown(watched), KeyDown(watched)] == (events + [KeyDown(watched)]) + [KeyDown(watched)];
    RunSnoc(held, watched, events + [KeyDown(watched)], KeyDown(watched));
  }

  /** A key-up of the watched key releases it from either state. */
  lemma KeyUpReleases(held: bool, watched: string, events: seq<Event>)
    ensures !Run(held, watched, events + [KeyUp(watched)])
  {
    RunSnoc(held, watched, events, KeyUp(watched));
  }

  /** The state cell of one mounted `useMeta` hook. */
  class MetaTracker {
    /** The key compared against `KeyboardEvent.key`. */
    const key: string
    /** The `metaKey` state the hook returns. */
    var metaKey: bool
    /** The events handled so far, in delivery order. */
    ghost var history: seq<Event>

    ghost predicate Valid()
      reads this
    {
      metaKey == Run(false, key, history)
    }

    /** Mount: the state starts as not held. */
    constructor ()
      ensures Valid() && history == []
      ensures key == WatchedKey() && !metaKey
    {
      key := WatchedKey();
      metaKey := false;
      history := [];
    }

    /** `handleKeyDown`: the watched key sets the state, any other key leaves it. */
    method HandleKeyDown(eventKey: string)
      requires Valid()
      modifies this
      ensures Valid() && history == old(history) + [KeyDown(eventKey)]
      ensures metaKey == (eventKey == key || old(metaKey))
    {
      RunSnoc(false, key, history, KeyDown(eventKey));
      assert Run(false, key, history + [KeyDown(eventKey)]) == (eventKey == key || metaKey);
      if eventKey == key {
        metaKey := true;
      }
      history := history + [KeyDown(eventKey)];
    }

    /** `handleKeyUp`: the watched key clears the state, any other key leaves it. */
    method HandleKeyUp(eventKey: string)
      requires Valid()
      modifies this
      ensures Valid() && history == old(history) + [KeyUp(eventKey)]
      ensures metaKey == (eventKey != key && old(metaKey))
    {
      RunSnoc(false, key, history, KeyUp(eventKey));
      assert Run(false, key, history + [KeyUp(eventKey)]) == (eventKey != key && metaKey);
      if eventKey == key {
        metaKey := false;
      }
      history := history + [KeyUp(eventKey)];
    }

    /** `handleFocus`, the one listener installed for both "focus" and "blur": clears the state. */
    method HandleFocus(fired: Event)
      requires Valid() && (fired == Focus || fired == Blur)
      modifies this
      ensures Valid() && history == old(history) + [fired]
      ensures !metaKey
    {
      RunSnoc(false, key, history, fired);
      metaKey := false;
      history := history + [fired];
    }

    /** The window's listeners: each event goes to the handler registered for its type. */
    method Dispatch(e: Event)
      requires Valid()
      modifies this
      ensures Valid() && history == old(history) + [e]
      ensures metaKey == Step(old(metaKey), key, e)
    {
      match e
      case KeyDown(k) => HandleKeyDown(k);
      case KeyUp(k) => HandleKeyUp(k);
      case Focus => HandleFocus(e);
      case Blur => HandleFocus(e);
    }
  }

  /** The event sequences of the hook's intended behaviour, replayed on one tracker. */
  method TrackerScenario()
  {
    var t := new MetaTracker();
    t.Dispatch(KeyDown("a"));
    assert !t.metaKey;
    t.Dispatch(KeyDown("Control"));
    assert !t.metaKey;
    t.Dispatch(KeyDown("Meta"));
    assert t.metaKey;
    t.Dispatch(KeyDown("Meta"));
    assert t.metaKey;
    t.Dispatch(Blur);
    assert !t.metaKey;
  }
}

/** GLFW input collection: bit masks for mouse buttons and modifier keys, a
    per-key table of the event index at which each key was pressed, and the
    `Handler` state machine that turns every GLFW callback into an `Event`,
    keeping two views of the input: everything, and only what the child
    handler (for instance ImGui) did not capture.

    The child handler's capture decision is a parameter of each callback; the
    window is an opaque handle; cursor coordinates are integers. */
module GlfwInput {
  import opened Wrappers

  // ---------------------------------------------------------------------------
  // GLFW constants (the values of GLFW 3's public header).
  // ---------------------------------------------------------------------------

  const Release := 0
  const Press := 1
  const Repeat := 2

  const KeyUnknown := -1
  const KeyA := 65
  const KeyD := 68
  const KeyCapsLock := 280
  const KeyNumLock := 282
  const KeyLeftShift := 340
  const KeyLeftControl := 341
  const KeyLeftAlt := 342
  const KeyLeftSuper := 343
  const KeyRightShift := 344
  const KeyRightControl := 345
  const KeyRightAlt := 346
  const KeyRightSuper := 347
  const KeyLast := 348

  // A C++ `int` bit mask is modelled as the set of the positions of its set
  // bits: position k stands for the bit `1 << k`.
  type Mask = set<nat>

  const ModShift: Mask := {0}       // GLFW_MOD_SHIFT     0x0001
  const ModControl: Mask := {1}     // GLFW_MOD_CONTROL   0x0002
  const ModAlt: Mask := {2}         // GLFW_MOD_ALT       0x0004
  const ModSuper: Mask := {3}       // GLFW_MOD_SUPER     0x0008
  const ModCapsLock: Mask := {4}    // GLFW_MOD_CAPS_LOCK 0x0010
  const ModNumLock: Mask := {5}     // GLFW_MOD_NUM_LOCK  0x0020

  const MouseButtonLast := 7

  /** Number of entries of a key table built for `KeyLast` (keys 0..KeyLast). */
  const TableSize := KeyLast + 1

  // ---------------------------------------------------------------------------
  // Bit masks
  // ---------------------------------------------------------------------------

  /** `HasBits`: every bit of `bits` is set in `mask`. */
  function HasBits(mask: Mask, bits: Mask): (r: bool)
    ensures r <==> forall k <- bits :: k in mask
  {
    bits <= mask
  }

  /** `SetBits(mask, bits)` updates the mask in place; here the updated value is
      returned. The bits of `bits` end up set, all others keep their value. */
  method SetBits(mask: Mask, bits: Mask) returns (updated: Mask)
    ensures forall k :: k in updated <==> k in mask || k in bits
    ensures HasBits(updated, bits)
  {
    updated := mask + bits;
  }

  /** `ClearBits(mask, bits)`: the bits of `bits` end up clear, all others keep
      their value. */
  method ClearBits(mask: Mask, bits: Mask) returns (updated: Mask)
    ensures forall k :: k in updated <==> k in mask && k !in bits
    ensures updated * bits == {}
  {
    updated := mask - bits;
  }

  /** `MouseButtonMask::ButtonToBits`: `1 << button`, for GLFW's buttons 0..7. */
  function ButtonToBits(button: int): (r: Mask)
    requires 0 <= button <= MouseButtonLast
    ensures forall k :: k in r <==> k == button
  {
    {button}
  }

  /** `MouseButtonMask::HasGlfwButton`: the button's bit is set in the mask. */
  function HasGlfwButton(buttons: Mask, button: int): (r: bool)
    requires 0 <= button <= MouseButtonLast
    ensures r <==> button in buttons
  {
    HasBits(buttons, ButtonToBits(button))
  }

  /** One of the six `GLFW_MOD_*` bits. */
  predicate IsModBit(bit: Mask)
  {
    bit == ModShift || bit == ModControl || bit == ModAlt || bit == ModSuper
    || bit == ModNumLock || bit == ModCapsLock
  }

  /** The keys whose state `Handler::OnGlfwKey` mirrors into the modifier mask. */
  predicate IsModifierKey(key: int)
  {
    KeyLeftShift <= key <= KeyRightSuper || key == KeyNumLock || key == KeyCapsLock
  }

  /** The `GLFW_MOD_*` bit that `Handler::OnGlfwKey` keeps in step with a
      modifier key, if `key` is one. */
  function ModBitForKey(key: int): (r: Option<Mask>)
    ensures r.Some? ==> IsModBit(r.value)
    ensures r.Some? <==> IsModifierKey(key)
  {
    if key == KeyLeftShift || key == KeyRightShift then Some(ModShift)
    else if key == KeyLeftControl || key == KeyRightControl then Some(ModControl)
    else if key == KeyLeftAlt || key == KeyRightAlt then Some(ModAlt)
    else if key == KeyLeftSuper || key == KeyRightSuper then Some(ModSuper)
    else if key == KeyNumLock then Some(ModNumLock)
    else if key == KeyCapsLock then Some(ModCapsLock)
    else None
  }

  /** The modifier mask after a key event. */
  function ModKeysAfter(mods: Mask, key: int, action: int): Mask
  {
    match ModBitForKey(key)
    case None => mods
    case Some(bit) =>
      if action == Press then mods + bit
      else if action == Release then mods - bit
      else mods
  }

  /** A modifier key's press sets its `GLFW_MOD_*` bit and its release clears
      it; a repeat, and any key that is not a modifier, leave the mask alone;
      no other bit ever changes. */
  lemma ModKeysAfterSpec(mods: Mask, key: int, action: int)
    ensures ModBitForKey(key).None? || (action != Press && action != Release)
            ==> ModKeysAfter(mods, key, action) == mods
    ensures ModBitForKey(key).Some? && action == Press
            ==> HasBits(ModKeysAfter(mods, key, action), ModBitForKey(key).value)
    ensures ModBitForKey(key).Some? && action == Release
            ==> ModKeysAfter(mods, key, action) * ModBitForKey(key).value == {}
    ensures forall k | (ModBitForKey(key).None? || k !in ModBitForKey(key).value) ::
              k in ModKeysAfter(mods, key, action) <==> k in mods
  {
  }

  /** Pressing and then releasing a modifier whose bit was clear gives back the
      mask it started from. */
  lemma ModKeyPressThenRelease(mods: Mask, key: int)
    requires ModBitForKey(key).Some? && ModBitForKey(key).value * mods == {}
    ensures ModKeysAfter(ModKeysAfter(mods, key, Press), key, Release) == mods
  {
  }

  /** The button mask after a mouse-button event. */
  function ButtonsAfter(buttons: Mask, button: int, action: int): Mask
    requires 0 <= button <= MouseButtonLast
  {
    if action == Press then buttons + ButtonToBits(button)
    else if action == Release then buttons - ButtonToBits(button)
    else buttons
  }

  /** Press sets and release clears the button's bit; no other button's bit
      changes, and other actions change nothing. */
  lemma ButtonsAfterSpec(buttons: Mask, button: int, action: int, other: int)
    requires 0 <= button <= MouseButtonLast && 0 <= other <= MouseButtonLast
    ensures action == Press ==> HasGlfwButton(ButtonsAfter(buttons, button, action), button)
    ensures action == Release ==> !HasGlfwButton(ButtonsAfter(buttons, button, action), button)
    ensures other != button || (action != Press && action != Release)
            ==> HasGlfwButton(ButtonsAfter(buttons, button, action), other) == HasGlfwButton(buttons, other)
  {
  }

  // ---------------------------------------------------------------------------
  // Events
  // ---------------------------------------------------------------------------

  const TagNone: Mask := {}
  const TagFocus: Mask := {0}
  const TagEnter: Mask := {1}
  const TagCursorPos: Mask := {2}
  const TagMouseButton: Mask := {3}
  const TagScroll: Mask := {4}
  const TagKey: Mask := {5}
  const TagChar: Mask := {6}
  /** `kAllEvents` is `~0` over a 64-bit tag. */
  const TagAllEvents: Mask := set k: nat | k < 64

  /** The data of one GLFW callback (the active member of the source's union). */
  datatype EventData =
    | Focus(focused: int)
    | Enter(entered: int)
    | CursorPos(x: int, y: int, xoffset: int, yoffset: int, buttons: Mask, mods: Mask)
    | MouseButton(button: int, action: int, mods: Mask)
    | Scroll(xoffset: int, yoffset: int, mods: Mask)
    | Key(key: int, scancode: int, action: int, mods: Mask)
    | Char(charval: nat)

  datatype Event = Event(window: nat, childWantsCapture: bool, data: EventData)

  /** The `Event::type` tag that goes with each kind of event data. */
  function TypeTag(d: EventData): Mask
  {
    match d
    case Focus(_) => TagFocus
    case Enter(_) => TagEnter
    case CursorPos(_, _, _, _, _, _) => TagCursorPos
    case MouseButton(_, _, _) => TagMouseButton
    case Scroll(_, _, _) => TagScroll
    case Key(_, _, _, _) => TagKey
    case Char(_) => TagChar
  }

  predicate SameKind(d: EventData, e: EventData)
  {
    && d.Focus? == e.Focus? && d.Enter? == e.Enter? && d.CursorPos? == e.CursorPos?
    && d.MouseButton? == e.MouseButton? && d.Scroll? == e.Scroll? && d.Key? == e.Key?
    && d.Char? == e.Char?
  }

  /** Every tag is a single bit, inside `kAllEvents` and outside `kNone`, and
      different kinds of events have different tags. */
  lemma TypeTagsAreDistinctBits(d: EventData, e: EventData)
    ensures |TypeTag(d)| == 1 && TypeTag(d) != TagNone
    ensures HasBits(TagAllEvents, TypeTag(d))
    ensures TypeTag(d) == TypeTag(e) <==> SameKind(d, e)
  {
  }

  /** The events that no child handler captured, in order: `State::events` is
      always this sub-sequence of `State::all_events`. */
  function Uncaptured(es: seq<Event>): seq<Event>
  {
    if es == [] then []
    else
      var last := es[|es| - 1];
      Uncaptured(es[..|es| - 1]) + if last.childWantsCapture then [] else [last]
  }

  /** `Uncaptured(es)` keeps exactly the uncaptured events of `es`. */
  lemma {:induction false} UncapturedMembers(es: seq<Event>)
    ensures |Uncaptured(es)| <= |es|
    ensures forall e <- Uncaptured(es) :: e in es && !e.childWantsCapture
    ensures forall e <- es :: !e.childWantsCapture ==> e in Uncaptured(es)
  {
    if es != [] {
      var init, last := es[..|es| - 1], es[|es| - 1];
      UncapturedMembers(init);
      assert es == init + [last];
    }
  }

  /** With a child that never captures (`NoOpHandler`), `events == all_events`. */
  lemma {:induction false} UncapturedOfNoCapture(es: seq<Event>)
    requires forall e <- es :: !e.childWantsCapture
    ensures Uncaptured(es) == es
  {
    if es != [] {
      UncapturedOfNoCapture(es[..|es| - 1]);
      assert es[..|es| - 1] + [es[|es| - 1]] == es;
    }
  }

  // ---------------------------------------------------------------------------
  // KeyboardState
  // ---------------------------------------------------------------------------

  /** Two's-complement narrowing of an integer to 32 bits (an `int64` assigned
      to an `int`). */
  function ToInt32(v: int): (r: int)
    ensures -0x8000_0000 <= r < 0x8000_0000
    ensures (v - r) % 0x1_0000_0000 == 0
    ensures 0 <= v < 0x8000_0000 ==> r == v
  {
    var m := v % 0x1_0000_0000;
    if m >= 0x8000_0000 then m - 0x1_0000_0000 else m
  }

  /** The three-way comparison of two pressed-event indices that `Axis`
      documents: -1 when the minus key was pressed later, 1 when the plus key
      was, 0 when both are equal (in particular both released). */
  function AxisOf(stateMinus: int, statePlus: int): (r: int)
    ensures r == -1 <==> stateMinus > statePlus
    ensures r == 0 <==> stateMinus == statePlus
    ensures r == 1 <==> statePlus > stateMinus
  {
    if stateMinus > statePlus then -1
    else if statePlus > stateMinus then 1
    else 0
  }

  /** `KeyboardState::Axis` as written: both indices are narrowed to `int`
      before they are compared. */
  function AxisOfNarrowed(stateMinus: nat, statePlus: nat): (r: int)
    ensures stateMinus < 0x8000_0000 && statePlus < 0x8000_0000 ==> r == AxisOf(stateMinus, statePlus)
  {
    AxisOf(ToInt32(stateMinus), ToInt32(statePlus))
  }

  /** After 2^31 events the narrowing makes a later press look earlier: the
      plus key pressed at event 2^31 while the minus key has been held since
      event 5 gives -1 instead of 1. */
  lemma AxisNarrowingFlipsSign()
    ensures AxisOfNarrowed(5, 0x8000_0000) == -1
    ensures AxisOf(5, 0x8000_0000) == 1
  {
  }

  /** Tracks, per key, the event index at which it was pressed (0: released). */
  class KeyboardState {
    var pressedEventIndex: seq<nat>

    /** Tracks keys `0..maxKey`, all released. */
    constructor (maxKey: int)
      requires maxKey >= -1
      ensures pressedEventIndex == seq(maxKey + 1, _ => 0)
    {
      pressedEventIndex := seq(maxKey + 1, _ => 0);
    }

    /** In the tracked range. A negative key (for instance `KeyUnknown`) is
        converted to a huge unsigned value by the source's comparison with
        `size()`, so it is out of range. */
    predicate Tracked(key: int)
      reads this
    {
      0 <= key < |pressedEventIndex|
    }

    /** The event index at which `key` was pressed; 0 if released or untracked. */
    function PressedEventIndex(key: int): (r: nat)
      reads this
      ensures Tracked(key) ==> r == pressedEventIndex[key]
      ensures !Tracked(key) ==> r == 0
    {
      if Tracked(key) then pressedEventIndex[key] else 0
    }

    /** False for a released key and for a key outside the tracked range. */
    function IsPressed(key: int): (r: bool)
      reads this
      ensures r <==> Tracked(key) && pressedEventIndex[key] != 0
    {
      PressedEventIndex(key) != 0
    }

    /** `Axis` as written in the source: the indices pass through `int`. */
    function AxisAsWritten(keyMinus: int, keyPlus: int): (r: int)
      reads this
      ensures (PressedEventIndex(keyMinus) < 0x8000_0000 && PressedEventIndex(keyPlus) < 0x8000_0000)
              ==> r == Axis(keyMinus, keyPlus)
    {
      AxisOfNarrowed(PressedEventIndex(keyMinus), PressedEventIndex(keyPlus))
    }

    /** `Axis` as documented: -1 if `keyMinus` was pressed after `keyPlus`, 1 if
        `keyPlus` was pressed after `keyMinus`, 0 if both are released;
        untracked keys count as released. */
    function Axis(keyMinus: int, keyPlus: int): (r: int)
      reads this
      ensures r == -1 <==> PressedEventIndex(keyMinus) > PressedEventIndex(keyPlus)
      ensures r == 1 <==> PressedEventIndex(keyPlus) > PressedEventIndex(keyMinus)
      ensures r == 0 <==> PressedEventIndex(keyMinus) == PressedEventIndex(keyPlus)
      ensures !IsPressed(keyMinus) && !IsPressed(keyPlus) ==> r == 0
    {
      AxisOf(PressedEventIndex(keyMinus), PressedEventIndex(keyPlus))
    }

    /** Stores `eventIndex` for a tracked key; no change outside the range. */
    method SetKeyEventIndex(key: int, eventIndex: nat)
      modifies this`pressedEventIndex
      ensures pressedEventIndex == if old(Tracked(key)) then old(pressedEventIndex)[key := eventIndex]
                                   else old(pressedEventIndex)
    {
      if 0 <= key < |pressedEventIndex| {
        pressedEventIndex := pressedEventIndex[key := eventIndex];
      }
    }
  }

  /** `Axis` is antisymmetric in its two keys and 0 on a single key. */
  lemma AxisAntisymmetric(ks: KeyboardState, keyMinus: int, keyPlus: int)
    ensures ks.Axis(keyMinus, keyPlus) == -ks.Axis(keyPlus, keyMinus)
    ensures ks.Axis(keyMinus, keyMinus) == 0
  {
  }

  /** The key table after a key event: press stores the event index, release
      stores 0, any other action (repeat) changes nothing. */
  function KeysAfter(table: seq<nat>, key: int, action: int, eventIndex: nat): (r: seq<nat>)
    ensures |r| == |table|
    ensures forall k | 0 <= k < |table| && k != key :: r[k] == table[k]
    ensures 0 <= key < |table| && action == Press ==> r[key] == eventIndex
    ensures 0 <= key < |table| && action == Release ==> r[key] == 0
    ensures action != Press && action != Release ==> r == table
  {
    if 0 <= key < |table| && (action == Press || action == Release) then
      table[key := if action == Press then eventIndex else 0]
    else table
  }

  // ---------------------------------------------------------------------------
  // State, NoOpHandler and Handler
  // ---------------------------------------------------------------------------

  /** Input state: events and key tables (uncaptured and all), the running
      event index, modifier and button masks and the mouse position (`None`
      for the source's infinite, invalid position). */
  class State {
    var eventIndex: nat
    var events: seq<Event>
    const keys: KeyboardState
    var allEvents: seq<Event>
    const allKeys: KeyboardState
    var modKeys: Mask
    var mouse: Option<(int, int)>
    var mouseButtons: Mask

    constructor ()
      ensures eventIndex == 0 && events == [] && allEvents == []
      ensures fresh(keys) && fresh(allKeys) && keys != allKeys
      ensures keys.pressedEventIndex == seq(TableSize, _ => 0)
      ensures allKeys.pressedEventIndex == seq(TableSize, _ => 0)
      ensures modKeys == {} && mouseButtons == {} && mouse == None
    {
      eventIndex := 0;
      events := [];
      keys := new KeyboardState(KeyLast);
      allEvents := [];
      allKeys := new KeyboardState(KeyLast);
      modKeys := {};
      mouse := None;
      mouseButtons := {};
    }
  }

  /** A child handler that never claims an event. */
  class NoOpHandler {
    constructor () {}
    method ClearEvents() {}
    method OnGlfwWindowFocus(window: nat, focused: int) returns (capture: bool) ensures !capture { capture := false; }
    method OnGlfwCursorEnter(window: nat, entered: int) returns (capture: bool) ensures !capture { capture := false; }
    method OnGlfwCursorPos(window: nat, x: int, y: int) returns (capture: bool) ensures !capture { capture := false; }
    method OnGlfwMouseButton(window: nat, button: int, action: int, mods: int) returns (capture: bool)
      ensures !capture
    {
      capture := false;
    }
    method OnGlfwScroll(window: nat, xoffset: int, yoffset: int) returns (capture: bool) ensures !capture { capture := false; }
    method OnGlfwKey(window: nat, key: int, scancode: int, action: int, mods: int) returns (capture: bool)
      ensures !capture
    {
      capture := false;
    }
    method OnGlfwChar(window: nat, c: nat) returns (capture: bool) ensures !capture { capture := false; }
  }

  /** Appending `e` to the full list extends the uncaptured list by `e` exactly
      when `e` was not captured. */
  lemma UncapturedSnoc(es: seq<Event>, e: Event)
    ensures Uncaptured(es + [e]) == Uncaptured(es) + (if e.childWantsCapture then [] else [e])
  {
    assert (es + [e])[..|es|] == es;
  }

  /** Turns GLFW callbacks into events and tracked state. Each `OnGlfw*` method
      takes the child handler's capture decision for the event as
      `childWantsCapture`, and returns it. */
  class Handler {
    const state: State

    /** `events` is the uncaptured sub-sequence of `allEvents`. */
    ghost predicate EventsValid()
      reads state`events, state`allEvents
    {
      state.events == Uncaptured(state.allEvents)
    }

    /** Both key tables cover keys 0..KeyLast and hold no index from the future. */
    ghost predicate KeysValid()
      reads state`eventIndex, state.keys`pressedEventIndex, state.allKeys`pressedEventIndex
    {
      && state.keys != state.allKeys
      && |state.keys.pressedEventIndex| == TableSize
      && |state.allKeys.pressedEventIndex| == TableSize
      && (forall k | 0 <= k < TableSize :: state.keys.pressedEventIndex[k] <= state.eventIndex)
      && (forall k | 0 <= k < TableSize :: state.allKeys.pressedEventIndex[k] <= state.eventIndex)
    }

    ghost predicate Valid()
      reads state`eventIndex, state`events, state`allEvents
      reads state.keys`pressedEventIndex, state.allKeys`pressedEventIndex
    {
      EventsValid() && KeysValid()
    }

    constructor ()
      ensures Valid() && fresh(state) && fresh(state.keys) && fresh(state.allKeys)
      ensures state.eventIndex == 0 && state.events == [] && state.allEvents == []
      ensures state.mouse == None && state.mouseButtons == {} && state.modKeys == {}
      ensures forall k | 0 <= k < TableSize :: !state.keys.IsPressed(k) && !state.allKeys.IsPressed(k)
    {
      state := new State();
    }

    /** The fields that only key and mouse-button events touch are unchanged. */
    twostate predicate MasksAndKeysUnchanged()
      reads state`modKeys, state`mouseButtons, state.keys`pressedEventIndex, state.allKeys`pressedEventIndex
    {
      && state.modKeys == old(state.modKeys)
      && state.mouseButtons == old(state.mouseButtons)
      && state.keys.pressedEventIndex == old(state.keys.pressedEventIndex)
      && state.allKeys.pressedEventIndex == old(state.allKeys.pressedEventIndex)
    }

    /** One more event: the index advances by one, `e` is appended to
        `allEvents`, and to `events` exactly when it was not captured. */
    twostate predicate Recorded(e: Event)
      reads state`eventIndex, state`events, state`allEvents
    {
      && state.eventIndex == old(state.eventIndex) + 1
      && state.allEvents == old(state.allEvents) + [e]
      && state.events == old(state.events) + (if e.childWantsCapture then [] else [e])
    }

    /** Empties both event lists; the index, key tables, masks and mouse
        position are left as they are. */
    method ClearEvents()
      requires Valid()
      modifies state`events, state`allEvents
      ensures Valid()
      ensures state.events == [] && state.allEvents == []
    {
      state.events := [];
      state.allEvents := [];
    }

    /** The common tail of every callback: `events` receives `e` unless the
        child captured it, `allEvents` always does. */
    method Push(e: Event)
      requires EventsValid()
      modifies state`events, state`allEvents
      ensures EventsValid()
      ensures state.allEvents == old(state.allEvents) + [e]
      ensures state.events == old(state.events) + (if e.childWantsCapture then [] else [e])
    {
      UncapturedSnoc(state.allEvents, e);
      if !e.childWantsCapture {
        state.events := state.events + [e];
      }
      state.allEvents := state.allEvents + [e];
    }

    /** The common head of every callback: the event index advances. */
    method Tick()
      requires KeysValid()
      modifies state`eventIndex
      ensures KeysValid() && state.eventIndex == old(state.eventIndex) + 1
    {
      state.eventIndex := state.eventIndex + 1;
    }

    /** A focus event; gaining focus invalidates the mouse position. */
    method OnGlfwWindowFocus(window: nat, focused: int, childWantsCapture: bool) returns (capture: bool)
      requires Valid()
      modifies state`eventIndex, state`events, state`allEvents, state`mouse
      ensures Valid() && capture == childWantsCapture
      ensures Recorded(Event(window, childWantsCapture, Focus(focused)))
      ensures state.mouse == if focused != 0 then None else old(state.mouse)
    {
      Tick();
      if focused != 0 {
        state.mouse := None;
      }
      Push(Event(window, childWantsCapture, Focus(focused)));
      capture := childWantsCapture;
    }

    method OnGlfwCursorEnter(window: nat, entered: int, childWantsCapture: bool) returns (capture: bool)
      requires Valid()
      modifies state`eventIndex, state`events, state`allEvents
      ensures Valid() && capture == childWantsCapture
      ensures Recorded(Event(window, childWantsCapture, Enter(entered)))
    {
      Tick();
      Push(Event(window, childWantsCapture, Enter(entered)));
      capture := childWantsCapture;
    }

    /** A cursor move; the offset is measured from the previous valid position,
        and is 0 when there was none. */
    method OnGlfwCursorPos(window: nat, x: int, y: int, childWantsCapture: bool) returns (capture: bool)
      requires Valid()
      modifies state`eventIndex, state`events, state`allEvents, state`mouse
      ensures Valid() && capture == childWantsCapture
      ensures var offset := match old(state.mouse)
                            case Some((mx, my)) => (x - mx, y - my)
                            case None => (0, 0);
              Recorded(Event(window, childWantsCapture,
                             CursorPos(x, y, offset.0, offset.1, state.mouseButtons, state.modKeys)))
      ensures state.mouse == Some((x, y))
    {
      Tick();
      var xoffset, yoffset := 0, 0;
      if state.mouse.Some? {
        xoffset := x - state.mouse.value.0;
        yoffset := y - state.mouse.value.1;
      }
      state.mouse := Some((x, y));
      Push(Event(window, childWantsCapture,
                 CursorPos(x, y, xoffset, yoffset, state.mouseButtons, state.modKeys)));
      capture := childWantsCapture;
    }

    /** Press sets the button's bit in the tracked mask, release clears it. */
    method UpdateMouseButtons(button: int, action: int)
      requires 0 <= button <= MouseButtonLast
      modifies state`mouseButtons
      ensures state.mouseButtons == ButtonsAfter(old(state.mouseButtons), button, action)
    {
      if action == Press {
        state.mouseButtons := SetBits(state.mouseButtons, ButtonToBits(button));
      } else if action == Release {
        state.mouseButtons := ClearBits(state.mouseButtons, ButtonToBits(button));
      }
    }

    /** A button event: press sets and release clears the button's bit, whether
        or not the event is captured. The event carries the modifier mask the
        handler tracks, not the one GLFW passes. */
    method OnGlfwMouseButton(window: nat, button: int, action: int, mods: int, childWantsCapture: bool)
      returns (capture: bool)
      requires Valid()
      requires 0 <= button <= MouseButtonLast
      modifies state`eventIndex, state`events, state`allEvents, state`mouseButtons
      ensures Valid() && capture == childWantsCapture
      ensures Recorded(Event(window, childWantsCapture, MouseButton(button, action, state.modKeys)))
      ensures state.mouseButtons == ButtonsAfter(old(state.mouseButtons), button, action)
    {
      Tick();
      UpdateMouseButtons(button, action);
      Push(Event(window, childWantsCapture, MouseButton(button, action, state.modKeys)));
      capture := childWantsCapture;
    }

    method OnGlfwScroll(window: nat, xoffset: int, yoffset: int, childWantsCapture: bool) returns (capture: bool)
      requires Valid()
      modifies state`eventIndex, state`events, state`allEvents
      ensures Valid() && capture == childWantsCapture
      ensures Recorded(Event(window, childWantsCapture, Scroll(xoffset, yoffset, state.modKeys)))
    {
      Tick();
      Push(Event(window, childWantsCapture, Scroll(xoffset, yoffset, state.modKeys)));
      capture := childWantsCapture;
    }

    /** Press stores the current event index for `key` in `table`, release
        stores 0, any other action changes nothing. */
    method UpdateKeyTable(table: KeyboardState, key: int, action: int)
      requires table == state.keys || table == state.allKeys
      requires KeysValid()
      modifies table`pressedEventIndex
      ensures KeysValid()
      ensures table.pressedEventIndex == KeysAfter(old(table.pressedEventIndex), key, action, state.eventIndex)
    {
      if action == Press {
        table.SetKeyEventIndex(key, state.eventIndex);
      } else if action == Release {
        table.SetKeyEventIndex(key, 0);
      }
    }

    /** The `switch` over modifier keys in `OnGlfwKey`. */
    method UpdateModKeys(key: int, action: int)
      modifies state`modKeys
      ensures state.modKeys == ModKeysAfter(old(state.modKeys), key, action)
    {
      var bit := ModBitForKey(key);
      if bit.Some? {
        if action == Press {
          state.modKeys := SetBits(state.modKeys, bit.value);
        }
        if action == Release {
          state.modKeys := ClearBits(state.modKeys, bit.value);
        }
      }
    }

    /** A key event. Modifier keys update the modifier mask whether or not the
        event is captured; `allKeys` always follows press/release, `keys` only
        when the event is not captured. */
    method OnGlfwKey(window: nat, key: int, scancode: int, action: int, mods: int, childWantsCapture: bool)
      returns (capture: bool)
      requires Valid()
      modifies state`eventIndex, state`events, state`allEvents, state`modKeys
      modifies state.keys`pressedEventIndex, state.allKeys`pressedEventIndex
      ensures Valid() && capture == childWantsCapture
      ensures state.modKeys == ModKeysAfter(old(state.modKeys), key, action)
      ensures Recorded(Event(window, childWantsCapture, Key(key, scancode, action, state.modKeys)))
      ensures state.allKeys.pressedEventIndex
                == KeysAfter(old(state.allKeys.pressedEventIndex), key, action, state.eventIndex)
      ensures state.keys.pressedEventIndex
                == if childWantsCapture then old(state.keys.pressedEventIndex)
                   else KeysAfter(old(state.keys.pressedEventIndex), key, action, state.eventIndex)
    {
      Tick();
      UpdateModKeys(key, action);
      var e := Event(window, childWantsCapture, Key(key, scancode, action, state.modKeys));
      if !childWantsCapture {
        UpdateKeyTable(state.keys, key, action);
      }
      UpdateKeyTable(state.allKeys, key, action);
      Push(e);
      capture := childWantsCapture;
    }

    method OnGlfwChar(window: nat, c: nat, childWantsCapture: bool) returns (capture: bool)
      requires Valid()
      modifies state`eventIndex, state`events, state`allEvents
      ensures Valid() && capture == childWantsCapture
      ensures Recorded(Event(window, childWantsCapture, Char(c)))
    {
      Tick();
      Push(Event(window, childWantsCapture, Char(c)));
      capture := childWantsCapture;
    }
  }
}

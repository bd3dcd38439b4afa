/**
 * The shared part of the X11 event handlers: the device registry (device
 * types, device names, button names, pointer id), the decorations every
 * handler applies to a builder (modifiers, focus window, device name and
 * screen) and the two handlers that record a motion and a button event.
 */
module XEventSwitch {
  import opened Wrappers
  import opened Text
  import opened Schema
  import opened Entries
  import opened Maps
  import opened XTypes
  import opened Intervals
  import opened KeyBuilder
  import opened MouseClickBuilder
  import opened MouseScrollBuilder
  import opened MouseMoveBuilder

  // Modifier masks (X.h).
  const ShiftMask: bv32 := 1
  const LockMask: bv32 := 2
  const ControlMask: bv32 := 4
  const Mod1Mask: bv32 := 8
  const Mod2Mask: bv32 := 16
  const Mod3Mask: bv32 := 32
  const Mod4Mask: bv32 := 64
  const Mod5Mask: bv32 := 128

  /** The mask `SetModifierValue` tests for each modifier. */
  function MaskOf(m: ModifierValue): bv32
  {
    match m
    case kShift => ShiftMask
    case kCapsLock => LockMask
    case kControl => ControlMask
    case kAlt => Mod1Mask
    case kNumLock => Mod2Mask
    case kMod3 => Mod3Mask
    case kSuper => Mod4Mask
    case kMod5 => Mod5Mask
  }

  /** The modifiers `SetModifierValue` tests, in the order it tests them. */
  const AllModifiers: seq<ModifierValue> := [kShift, kCapsLock, kControl, kAlt, kNumLock, kMod3, kSuper, kMod5]

  /** The modifiers of `ms` whose mask bit is set in `state`, in the order of `ms`. */
  function Held(state: bv32, ms: seq<ModifierValue>): seq<ModifierValue>
  {
    if ms == [] then []
    else (if state & MaskOf(ms[0]) != 0 then [ms[0]] else []) + Held(state, ms[1..])
  }

  /** The modifiers `SetModifierValue` adds for a modifier state, in the order it adds them. */
  function ModifiersOf(state: bv32): seq<ModifierValue>
  {
    Held(state, AllModifiers)
  }

  lemma {:induction false} HeldMembers(state: bv32, ms: seq<ModifierValue>)
    ensures forall m :: m in Held(state, ms) <==> m in ms && state & MaskOf(m) != 0
  {
    if ms != [] {
      HeldMembers(state, ms[1..]);
      assert ms == [ms[0]] + ms[1..];
    }
  }

  predicate Ascending(ms: seq<ModifierValue>)
  {
    forall j, k :: 0 <= j < k < |ms| ==> ms[j].Underlying() < ms[k].Underlying()
  }

  lemma {:induction false} HeldAscending(state: bv32, ms: seq<ModifierValue>)
    requires Ascending(ms)
    ensures Ascending(Held(state, ms))
  {
    if ms != [] {
      var rest := Held(state, ms[1..]);
      HeldAscending(state, ms[1..]);
      if state & MaskOf(ms[0]) != 0 {
        assert forall k :: 0 <= k < |rest| ==> ms[0].Underlying() < rest[k].Underlying() by {
          HeldMembers(state, ms[1..]);
          forall k | 0 <= k < |rest|
            ensures ms[0].Underlying() < rest[k].Underlying()
          {
            assert rest[k] in ms[1..];
          }
        }
        ConsAscending(ms[0], rest);
      }
    }
  }

  lemma ConsAscending(m: ModifierValue, rest: seq<ModifierValue>)
    requires Ascending(rest)
    requires forall k :: 0 <= k < |rest| ==> m.Underlying() < rest[k].Underlying()
    ensures Ascending([m] + rest)
  {
    var ms := [m] + rest;
    forall j, k | 0 <= j < k < |ms|
      ensures ms[j].Underlying() < ms[k].Underlying()
    {
      assert ms[k] == rest[k - 1];
      if j > 0 {
        assert ms[j] == rest[j - 1];
      }
    }
  }

  /** Only the low byte of the state decides whether a modifier is held. */
  lemma MaskInLowByte(state: bv32, m: ModifierValue)
    ensures state & MaskOf(m) != 0 <==> (state & 0xFF) & MaskOf(m) != 0
  {
  }

  lemma {:induction false} HeldLowByte(state: bv32, ms: seq<ModifierValue>)
    ensures Held(state, ms) == Held(state & 0xFF, ms)
  {
    if ms != [] {
      MaskInLowByte(state, ms[0]);
      HeldLowByte(state, ms[1..]);
    }
  }

  /**
   * A modifier is recorded exactly when its mask bit is set; the modifiers
   * come in ascending order of their underlying value, so none twice; bits
   * above the eight modifier bits are ignored, and a state without modifier
   * bits records none.
   */
  lemma ModifiersOfState(state: bv32)
    ensures forall m :: m in ModifiersOf(state) <==> state & MaskOf(m) != 0
    ensures Ascending(ModifiersOf(state))
    ensures ModifiersOf(state) == ModifiersOf(state & 0xFF)
  {
    HeldMembers(state, AllModifiers);
    forall m
      ensures m in AllModifiers
    {
      match m
      case kShift => assert AllModifiers[0] == m;
      case kCapsLock => assert AllModifiers[1] == m;
      case kControl => assert AllModifiers[2] == m;
      case kAlt => assert AllModifiers[3] == m;
      case kNumLock => assert AllModifiers[4] == m;
      case kMod3 => assert AllModifiers[5] == m;
      case kSuper => assert AllModifiers[6] == m;
      case kMod5 => assert AllModifiers[7] == m;
    }
    HeldAscending(state, AllModifiers);
    HeldLowByte(state, AllModifiers);
  }

  /** A state without modifier bits records no modifier. */
  lemma NoModifiers(state: bv32)
    requires state & 0xFF == 0
    ensures ModifiersOf(state) == []
  {
    HeldLowByte(state, AllModifiers);
    assert state & 0xFF == 0;
  }

  /** The text the builders store for each modifier. */
  function ModifierTexts(values: seq<ModifierValue>): (r: seq<string>)
    ensures |r| == |values|
    ensures forall i :: 0 <= i < |values| ==> r[i] == ToUnderlying(values[i].Underlying())
  {
    seq(|values|, i requires 0 <= i < |values| => ToUnderlying(values[i].Underlying()))
  }

  lemma ModifierTextsStep(values: seq<ModifierValue>, k: nat)
    requires k < |values|
    ensures ModifierTexts(values[..k + 1]) == ModifierTexts(values[..k]) + [ToUnderlying(values[k].Underlying())]
  {
    assert values[..k + 1] == values[..k] + [values[k]];
  }

  /** The window `SetWindowFields` describes: the active window, else the focus window. */
  function FocusWindow(x: XServer): Option<nat>
  {
    if x.activeWindow.Some? then x.activeWindow else x.focusWindow
  }

  /** What `SetWindowFields` learns about the focus window; nothing when there is no window. */
  datatype WindowFields = WindowFields(name: Option<string>, position: Option<Dimensions>, size: Option<Dimensions>)

  function WindowFieldsOf(x: XServer): (w: WindowFields)
    ensures FocusWindow(x).None? ==> w == WindowFields(None, None, None)
  {
    match FocusWindow(x)
    case None => WindowFields(None, None, None)
    case Some(window) => WindowFields(x.windowName(window), x.windowPosition(window), x.windowSize(window))
  }

  /** The active window wins over the focus window whenever there is one. */
  lemma ActiveWindowWins(x: XServer)
    ensures x.activeWindow.Some? ==> FocusWindow(x) == x.activeWindow
    ensures x.activeWindow.None? ==> FocusWindow(x) == x.focusWindow
    ensures FocusWindow(x).Some? ==>
      WindowFieldsOf(x).name == x.windowName(FocusWindow(x).value)
      && WindowFieldsOf(x).size == x.windowSize(FocusWindow(x).value)
  {
  }

  /** Replaces an optional field when a new value is present. */
  function Override<T>(previous: Option<T>, update: Option<T>): Option<T>
  {
    if update.Some? then update else previous
  }

  /** An unsigned dimension as the double the builders store. */
  function DimensionX(d: Option<Dimensions>): Option<Schema.Double>
  {
    if d.Some? then Some(IntToDouble(d.value.width)) else None
  }

  function DimensionY(d: Option<Dimensions>): Option<Schema.Double>
  {
    if d.Some? then Some(IntToDouble(d.value.height)) else None
  }

  /** The fields every recorded event shares. */
  datatype Common = Common(
    interval: Option<int>, timestamp: Schema.Timestamp, device: DeviceType,
    pointer: PointerState, window: WindowFields, deviceName: string)

  /** The fields only some kinds of event have. */
  datatype Extra =
    | MoveExtra
    | ClickExtra(button: int, buttonName: string, action: ButtonAction)
    | ScrollExtra(vertical: Option<Schema.Double>, horizontal: Option<Schema.Double>)
    | KeyExtra(keyButton: int, keyName: string, keyAction: ButtonAction, character: string)

  /** The text a recorded event holds in a column. */
  function ColumnOf(c: Common, extra: Extra, f: Field): string
  {
    match f
    case FInterval => FromInterval(c.interval)
    case FTimestamp => FromTimestamp(Some(c.timestamp))
    case FPositionX => FromDouble(Some(c.pointer.rootX))
    case FPositionY => FromDouble(Some(c.pointer.rootY))
    case FDeviceName => FromString(Some(c.deviceName))
    case FFocusWindowName => FromString(c.window.name)
    case FFocusWindowPositionX => FromDouble(DimensionX(c.window.position))
    case FFocusWindowPositionY => FromDouble(DimensionY(c.window.position))
    case FFocusWindowWidth => FromDouble(DimensionX(c.window.size))
    case FFocusWindowHeight => FromDouble(DimensionY(c.window.size))
    case FScreen => FromInt(Some(c.pointer.screen))
    case FDeviceType => ToUnderlyingOptional(Some(c.device.Underlying()))
    case FScrollVertical => if extra.ScrollExtra? then FromDouble(extra.vertical) else ""
    case FScrollHorizontal => if extra.ScrollExtra? then FromDouble(extra.horizontal) else ""
    case FButtonId =>
      if extra.ClickExtra? then FromInt(Some(extra.button))
      else if extra.KeyExtra? then FromInt(Some(extra.keyButton)) else ""
    case FButtonName =>
      if extra.ClickExtra? then FromString(Some(extra.buttonName))
      else if extra.KeyExtra? then FromString(Some(extra.keyName)) else ""
    case FButtonAction =>
      if extra.ClickExtra? then ToUnderlyingOptional(Some(extra.action.Underlying()))
      else if extra.KeyExtra? then ToUnderlyingOptional(Some(extra.keyAction.Underlying())) else ""
    case FCharacter => if extra.KeyExtra? then FromString(Some(extra.character)) else ""
  }

  function RowOf(columns: seq<Field>, c: Common, extra: Extra): (r: seq<string>)
    ensures |r| == |columns|
    ensures forall i :: 0 <= i < |columns| ==> r[i] == ColumnOf(c, extra, columns[i])
  {
    seq(|columns|, i requires 0 <= i < |columns| => ColumnOf(c, extra, columns[i]))
  }

  /** The columns of each kind of entry. */
  function ColumnsOf(entryType: EntryType): (columns: seq<Field>)
    ensures |columns| >= 12
    ensures columns[0] == FInterval && columns[4] == FDeviceName && columns[11] == FDeviceType
    ensures columns[8] == FFocusWindowWidth && columns[9] == FFocusWindowHeight
    ensures entryType == kMouseClick || entryType == kKey ==>
      |columns| >= 15 && columns[12] == FButtonId && columns[13] == FButtonName && columns[14] == FButtonAction
    ensures entryType == kKey ==> |columns| == 16 && columns[15] == FCharacter
  {
    match entryType
    case kMouseMove => MouseMoveColumns
    case kMouseClick => MouseClickColumns
    case kMouseScroll => MouseScrollColumns
    case kKey => KeyColumns
  }

  /** The entry a recorded event appends to the data. */
  function Recorded(entryType: EntryType, c: Common, extra: Extra): Entry
  {
    Entry(entryType, RowOf(ColumnsOf(entryType), c, extra), ModifierTexts(ModifiersOf(c.pointer.modifierState)))
  }

  /** Column `i` of a recorded event holds the text of the `i`-th field of its kind. */
  lemma RecordedColumn(entryType: EntryType, c: Common, extra: Extra, i: nat)
    requires i < |ColumnsOf(entryType)|
    ensures i < |Recorded(entryType, c, extra).data|
    ensures Recorded(entryType, c, extra).data[i] == ColumnOf(c, extra, ColumnsOf(entryType)[i])
  {
  }

  /** The texts of the columns every recorded event fills from `c`. */
  lemma CommonColumns(c: Common, extra: Extra)
    ensures ColumnOf(c, extra, FInterval) == FromInterval(c.interval)
    ensures ColumnOf(c, extra, FDeviceName) == c.deviceName
    ensures ColumnOf(c, extra, FDeviceType) == ToUnderlying(c.device.Underlying())
    ensures ColumnOf(c, extra, FFocusWindowWidth) == FromDouble(DimensionX(c.window.size))
    ensures ColumnOf(c, extra, FFocusWindowHeight) == FromDouble(DimensionY(c.window.size))
  {
  }

  /** The button columns of a click or key: its number as decimal text and its name. */
  lemma ButtonColumns(c: Common, extra: Extra)
    requires extra.ClickExtra? || extra.KeyExtra?
    ensures ColumnOf(c, extra, FButtonId) == IntToString(if extra.ClickExtra? then extra.button else extra.keyButton)
    ensures ColumnOf(c, extra, FButtonName) == (if extra.ClickExtra? then extra.buttonName else extra.keyName)
  {
  }

  /** The action column of a click or key is the action's underlying number. */
  lemma ActionColumn(c: Common, extra: Extra)
    requires extra.ClickExtra? || extra.KeyExtra?
    ensures ColumnOf(c, extra, FButtonAction)
      == ToUnderlying((if extra.ClickExtra? then extra.action else extra.keyAction).Underlying())
  {
  }

  /**
   * What every recorded event holds where: the interval first, the device
   * name fifth, and one modifier text per modifier held.
   */
  lemma RecordedLayout(entryType: EntryType, c: Common, extra: Extra)
    ensures |Recorded(entryType, c, extra).data| >= 12
    ensures Recorded(entryType, c, extra).data[0] == FromInterval(c.interval)
    ensures Recorded(entryType, c, extra).data[4] == c.deviceName
    ensures |Recorded(entryType, c, extra).modifiers| == |ModifiersOf(c.pointer.modifierState)|
  {
    assert |Recorded(entryType, c, extra).data| >= 12
      && Recorded(entryType, c, extra).data[0] == FromInterval(c.interval)
      && Recorded(entryType, c, extra).data[4] == c.deviceName by {
      RecordedColumn(entryType, c, extra, 0);
      RecordedColumn(entryType, c, extra, 4);
      CommonColumns(c, extra);
    }
  }

  /** Every recorded event holds its device type as the underlying number, in the twelfth column. */
  lemma RecordedDeviceType(entryType: EntryType, c: Common, extra: Extra)
    ensures |Recorded(entryType, c, extra).data| >= 12
    ensures ParseInt(Recorded(entryType, c, extra).data[11]) == Some(c.device.Underlying() as int)
  {
    var text := ToUnderlying(c.device.Underlying());
    assert |Recorded(entryType, c, extra).data| >= 12 && Recorded(entryType, c, extra).data[11] == text by {
      RecordedColumn(entryType, c, extra, 11);
      CommonColumns(c, extra);
    }
    assert ParseInt(text) == Some(c.device.Underlying() as int) by {
      ToUnderlyingReadsBack(c.device.Underlying());
    }
  }

  /** The focus window's height column is filled exactly when its width column is. */
  lemma RecordedWindowSize(entryType: EntryType, c: Common, extra: Extra)
    ensures |Recorded(entryType, c, extra).data| >= 12
    ensures Recorded(entryType, c, extra).data[8] == "" <==> Recorded(entryType, c, extra).data[9] == ""
  {
    var width := FromDouble(DimensionX(c.window.size));
    var height := FromDouble(DimensionY(c.window.size));
    assert |Recorded(entryType, c, extra).data| >= 12
      && Recorded(entryType, c, extra).data[8] == width && Recorded(entryType, c, extra).data[9] == height by {
      RecordedColumn(entryType, c, extra, 8);
      RecordedColumn(entryType, c, extra, 9);
      CommonColumns(c, extra);
    }
    assert width == "" <==> height == "" by {
      if c.window.size.Some? {
        IntToDoubleNonEmpty(c.window.size.value.width);
        IntToDoubleNonEmpty(c.window.size.value.height);
      }
    }
  }

  /** A recorded click or key holds the button's name. */
  lemma RecordedButtonLayout(entryType: EntryType, c: Common, extra: Extra)
    requires (entryType == kMouseClick && extra.ClickExtra?) || (entryType == kKey && extra.KeyExtra?)
    ensures |Recorded(entryType, c, extra).data| >= 15
    ensures Recorded(entryType, c, extra).data[13] == (if extra.ClickExtra? then extra.buttonName else extra.keyName)
  {
    assert |Recorded(entryType, c, extra).data| >= 15
      && Recorded(entryType, c, extra).data[13] == (if extra.ClickExtra? then extra.buttonName else extra.keyName) by {
      RecordedColumn(entryType, c, extra, 13);
      ButtonColumns(c, extra);
    }
  }

  /** A recorded key holds its character in the last of its sixteen columns. */
  lemma RecordedKeyCharacter(c: Common, extra: Extra)
    requires extra.KeyExtra?
    ensures |Recorded(kKey, c, extra).data| == 16
    ensures Recorded(kKey, c, extra).data[15] == extra.character
  {
    assert |Recorded(kKey, c, extra).data| == 16
      && Recorded(kKey, c, extra).data[15] == ColumnOf(c, extra, FCharacter) by {
      RecordedColumn(kKey, c, extra, 15);
    }
  }

  /** A recorded click or key holds its action as the underlying number. */
  lemma RecordedAction(entryType: EntryType, c: Common, extra: Extra)
    requires (entryType == kMouseClick && extra.ClickExtra?) || (entryType == kKey && extra.KeyExtra?)
    ensures |Recorded(entryType, c, extra).data| >= 15
    ensures ParseInt(Recorded(entryType, c, extra).data[14])
      == Some((if extra.ClickExtra? then extra.action else extra.keyAction).Underlying() as int)
  {
    var action := if extra.ClickExtra? then extra.action else extra.keyAction;
    var text := ToUnderlying(action.Underlying());
    assert |Recorded(entryType, c, extra).data| >= 15 && Recorded(entryType, c, extra).data[14] == text by {
      RecordedColumn(entryType, c, extra, 14);
      ActionColumn(c, extra);
    }
    assert ParseInt(text) == Some(action.Underlying() as int) by {
      ToUnderlyingReadsBack(action.Underlying());
    }
  }

  /** A recorded click holds the button's number, as decimal text. */
  lemma RecordedClickButton(c: Common, extra: Extra)
    requires extra.ClickExtra?
    ensures ParseInt(Recorded(kMouseClick, c, extra).data[12]) == Some(extra.button)
  {
    var text := IntToString(extra.button);
    assert |Recorded(kMouseClick, c, extra).data| >= 15 && Recorded(kMouseClick, c, extra).data[12] == text by {
      RecordedColumn(kMouseClick, c, extra, 12);
      ButtonColumns(c, extra);
    }
    assert ParseInt(text) == Some(extra.button) by {
      ParseIntOfIntToString(extra.button);
    }
  }

  lemma IntToDoubleNonEmpty(i: int)
    ensures IntToDouble(i).text != ""
  {
    IntToDoubleReadsBack(i);
  }

  /** A mouse-move builder holding exactly the fields of `c`. */
  predicate MoveHolds(b: MouseMove, c: Common)
    reads b
  {
    b.interval == c.interval && b.timestamp == Some(c.timestamp) && b.device == Some(c.device)
    && b.positionX == Some(c.pointer.rootX) && b.positionY == Some(c.pointer.rootY)
    && b.deviceName == Some(c.deviceName) && b.screen == Some(c.pointer.screen)
    && b.focusWindowName == c.window.name
    && b.focusWindowPositionX == DimensionX(c.window.position) && b.focusWindowPositionY == DimensionY(c.window.position)
    && b.focusWindowWidth == DimensionX(c.window.size) && b.focusWindowHeight == DimensionY(c.window.size)
    && b.modifiers == ModifierTexts(ModifiersOf(c.pointer.modifierState))
  }

  /** A builder holding the fields of `c` builds the entry of a recorded mouse move. */
  lemma MoveRowOf(b: MouseMove, c: Common)
    requires MoveHolds(b, c)
    ensures Entry(kMouseMove, b.Row(), b.modifiers) == Recorded(kMouseMove, c, MoveExtra)
  {
    forall f: Field
      ensures b.Column(f) == ColumnOf(c, MoveExtra, f)
    {
    }
    assert b.Row() == RowOf(MouseMoveColumns, c, MoveExtra);
    assert ColumnsOf(kMouseMove) == MouseMoveColumns;
  }

  predicate ClickHolds(b: MouseClick, c: Common, extra: Extra)
    reads b
    requires extra.ClickExtra?
  {
    b.interval == c.interval && b.timestamp == Some(c.timestamp) && b.device == Some(c.device)
    && b.positionX == Some(c.pointer.rootX) && b.positionY == Some(c.pointer.rootY)
    && b.deviceName == Some(c.deviceName) && b.screen == Some(c.pointer.screen)
    && b.focusWindowName == c.window.name
    && b.focusWindowPositionX == DimensionX(c.window.position) && b.focusWindowPositionY == DimensionY(c.window.position)
    && b.focusWindowWidth == DimensionX(c.window.size) && b.focusWindowHeight == DimensionY(c.window.size)
    && b.modifiers == ModifierTexts(ModifiersOf(c.pointer.modifierState))
    && b.button == Some(extra.button) && b.name == Some(extra.buttonName) && b.action == Some(extra.action)
  }

  /** Each column of a builder holding the fields of `c` and `extra` has the recorded text. */
  lemma ClickColumnsAgree(b: MouseClick, c: Common, extra: Extra)
    requires extra.ClickExtra? && ClickHolds(b, c, extra)
    ensures forall f :: b.Column(f) == ColumnOf(c, extra, f)
  {
    forall f: Field
      ensures b.Column(f) == ColumnOf(c, extra, f)
    {
    }
  }

  lemma ClickRowOf(b: MouseClick, c: Common, extra: Extra)
    requires extra.ClickExtra? && ClickHolds(b, c, extra)
    ensures Entry(kMouseClick, b.Row(), b.modifiers) == Recorded(kMouseClick, c, extra)
  {
    var row := RowOf(MouseClickColumns, c, extra);
    assert b.Row() == row by {
      ClickColumnsAgree(b, c, extra);
      forall i | 0 <= i < |row|
        ensures b.Row()[i] == row[i]
      {
      }
    }
    assert ColumnsOf(kMouseClick) == MouseClickColumns;
  }

  predicate ScrollHolds(b: MouseScroll, c: Common, extra: Extra)
    reads b
    requires extra.ScrollExtra?
  {
    b.interval == c.interval && b.timestamp == Some(c.timestamp) && b.device == Some(c.device)
    && b.positionX == Some(c.pointer.rootX) && b.positionY == Some(c.pointer.rootY)
    && b.deviceName == Some(c.deviceName) && b.screen == Some(c.pointer.screen)
    && b.focusWindowName == c.window.name
    && b.focusWindowPositionX == DimensionX(c.window.position) && b.focusWindowPositionY == DimensionY(c.window.position)
    && b.focusWindowWidth == DimensionX(c.window.size) && b.focusWindowHeight == DimensionY(c.window.size)
    && b.modifiers == ModifierTexts(ModifiersOf(c.pointer.modifierState))
    && b.vertical == extra.vertical && b.horizontal == extra.horizontal
  }

  /** Each column of a builder holding the fields of `c` and `extra` has the recorded text. */
  lemma ScrollColumnsAgree(b: MouseScroll, c: Common, extra: Extra)
    requires extra.ScrollExtra? && ScrollHolds(b, c, extra)
    ensures forall f :: b.Column(f) == ColumnOf(c, extra, f)
  {
    forall f: Field
      ensures b.Column(f) == ColumnOf(c, extra, f)
    {
    }
  }

  lemma ScrollRowOf(b: MouseScroll, c: Common, extra: Extra)
    requires extra.ScrollExtra? && ScrollHolds(b, c, extra)
    ensures Entry(kMouseScroll, b.Row(), b.modifiers) == Recorded(kMouseScroll, c, extra)
  {
    var row := RowOf(MouseScrollColumns, c, extra);
    assert b.Row() == row by {
      ScrollColumnsAgree(b, c, extra);
      forall i | 0 <= i < |row|
        ensures b.Row()[i] == row[i]
      {
      }
    }
    assert ColumnsOf(kMouseScroll) == MouseScrollColumns;
  }

  predicate KeyHolds(b: Key, c: Common, extra: Extra)
    reads b
    requires extra.KeyExtra?
  {
    b.interval == c.interval && b.timestamp == Some(c.timestamp) && b.device == Some(c.device)
    && b.positionX == Some(c.pointer.rootX) && b.positionY == Some(c.pointer.rootY)
    && b.deviceName == Some(c.deviceName) && b.screen == Some(c.pointer.screen)
    && b.focusWindowName == c.window.name
    && b.focusWindowPositionX == DimensionX(c.window.position) && b.focusWindowPositionY == DimensionY(c.window.position)
    && b.focusWindowWidth == DimensionX(c.window.size) && b.focusWindowHeight == DimensionY(c.window.size)
    && b.modifiers == ModifierTexts(ModifiersOf(c.pointer.modifierState))
    && b.button == Some(extra.keyButton) && b.name == Some(extra.keyName) && b.action == Some(extra.keyAction)
    && b.character == Some(extra.character)
  }

  /** Each column of a builder holding the fields of `c` and `extra` has the recorded text. */
  lemma KeyColumnsAgree(b: Key, c: Common, extra: Extra)
    requires extra.KeyExtra? && KeyHolds(b, c, extra)
    ensures forall f :: b.Column(f) == ColumnOf(c, extra, f)
  {
    forall f: Field
      ensures b.Column(f) == ColumnOf(c, extra, f)
    {
    }
  }

  lemma KeyRowOf(b: Key, c: Common, extra: Extra)
    requires extra.KeyExtra? && KeyHolds(b, c, extra)
    ensures Entry(kKey, b.Row(), b.modifiers) == Recorded(kKey, c, extra)
  {
    var row := RowOf(KeyColumns, c, extra);
    assert b.Row() == row by {
      KeyColumnsAgree(b, c, extra);
      forall i | 0 <= i < |row|
        ensures b.Row()[i] == row[i]
      {
      }
    }
    assert ColumnsOf(kKey) == KeyColumns;
  }

  /** `Build` on a builder holding the fields of `c`: the recorded mouse move is appended. */
  method RecordMove(builder: MouseMove, ghost c: Common, data: Data)
    requires MoveHolds(builder, c)
    modifies data
    ensures data.entries == old(data.entries) + [Recorded(kMouseMove, c, MoveExtra)]
  {
    builder.Build(data);
    MoveRowOf(builder, c);
  }

  method RecordClick(builder: MouseClick, ghost c: Common, ghost extra: Extra, data: Data)
    requires extra.ClickExtra? && ClickHolds(builder, c, extra)
    modifies data
    ensures data.entries == old(data.entries) + [Recorded(kMouseClick, c, extra)]
  {
    builder.Build(data);
    ClickRowOf(builder, c, extra);
  }

  method RecordScroll(builder: MouseScroll, ghost c: Common, ghost extra: Extra, data: Data)
    requires extra.ScrollExtra? && ScrollHolds(builder, c, extra)
    modifies data
    ensures data.entries == old(data.entries) + [Recorded(kMouseScroll, c, extra)]
  {
    builder.Build(data);
    ScrollRowOf(builder, c, extra);
  }

  method RecordKey(builder: Key, ghost c: Common, ghost extra: Extra, data: Data)
    requires extra.KeyExtra? && KeyHolds(builder, c, extra)
    modifies data
    ensures data.entries == old(data.entries) + [Recorded(kKey, c, extra)]
  {
    builder.Build(data);
    KeyRowOf(builder, c, extra);
  }


  /** The device registry and button names shared by all handlers. */
  class EventSwitch {
    var buttonMap: map<int, map<int, string>>
    var devices: map<int, DeviceType>
    var idToName: map<int, string>
    var pointerId: int

    /** Devices and their names are always registered together. */
    ghost predicate Valid()
      reads this`devices, this`idToName
    {
      devices.Keys == idToName.Keys
    }

    constructor()
      ensures Valid()
      ensures buttonMap == map[] && devices == map[] && idToName == map[] && pointerId == 0
    {
      buttonMap := map[];
      devices := map[];
      idToName := map[];
      pointerId := 0;
    }

    predicate HasDevice(deviceId: int)
      reads this`devices
    {
      deviceId in devices
    }

    /** `GetDevice`: `at` throws for an unknown device. */
    function GetDevice(deviceId: int): (r: Result<DeviceType, XError>)
      reads this`devices
      ensures r.Ok? <==> HasDevice(deviceId)
      ensures r.Ok? ==> r.value == devices[deviceId]
    {
      if deviceId in devices then Ok(devices[deviceId]) else Err(OutOfRange)
    }

    /** `GetButtonName`: `at` twice, so an unknown device or button throws. */
    function GetButtonName(deviceId: int, button: int): (r: Result<string, XError>)
      reads this`buttonMap
      ensures r.Ok? <==> deviceId in buttonMap && button in buttonMap[deviceId]
      ensures r.Ok? ==> r.value == buttonMap[deviceId][button]
    {
      if deviceId in buttonMap && button in buttonMap[deviceId] then Ok(buttonMap[deviceId][button])
      else Err(OutOfRange)
    }

    /**
     * `SetButtonMap`: every labelled button whose label has a name is stored
     * under the button number the server maps it to; later buttons overwrite
     * earlier ones mapped to the same number.
     */
    method SetButtonMap(labels: seq<int>, deviceId: int, x: XServer)
      requires MappingsFit(x)
      modifies this`buttonMap
      ensures buttonMap == ButtonMapAfter(old(buttonMap), labels, deviceId, x)
    {
      var mapping := x.buttonMapping(deviceId, |labels|);
      if mapping.Some? {
        for i := 0 to |labels|
          invariant buttonMap == ButtonNames(old(buttonMap), deviceId, labels, mapping.value, x.atomName, i)
        {
          if labels[i] != 0 {
            var name := x.atomName(labels[i]);
            if name.Some? {
              buttonMap := SetName(buttonMap, deviceId, mapping.value[i], name.value);
            }
          }
        }
      }
    }

    /**
     * `RefreshDevices`: adopts a pointer id when given, registers the device
     * unless it is already known, and sets the button names from the first
     * button class when it has buttons (under the id the class info carries).
     */
    method RefreshDevices(deviceId: int, pointer: Option<int>, device: DeviceType, name: string,
                          info: XIDeviceInfo, x: XServer)
      requires Valid() && MappingsFit(x)
      modifies this
      ensures Valid()
      ensures pointerId == (if pointer.Some? then pointer.value else old(pointerId))
      ensures devices == TryEmplace(old(devices), deviceId, device)
      ensures idToName == TryEmplace(old(idToName), deviceId, name)
      ensures buttonMap == RefreshedButtonMap(old(buttonMap), info, x)
    {
      if pointer.Some? {
        pointerId := pointer.value;
      }
      devices := TryEmplace(devices, deviceId, device);
      idToName := TryEmplace(idToName, deviceId, name);

      var buttonInfo: Option<seq<int>> := None;
      var i := 0;
      while i < |info.classes|
        invariant 0 <= i <= |info.classes|
        invariant FirstButtonClass(info.classes) == FirstButtonClass(info.classes[i..])
      {
        assert info.classes[i..][0] == info.classes[i];
        if info.classes[i].ButtonClass? {
          buttonInfo := Some(info.classes[i].labels);
          break;
        }
        assert info.classes[i..][1..] == info.classes[i + 1..];
        i := i + 1;
      }
      assert buttonInfo == FirstButtonClass(info.classes);

      if buttonInfo.Some? && |buttonInfo.value| > 0 {
        SetButtonMap(buttonInfo.value, info.deviceid, x);
      }
    }

    /*
     * `SetModifierValue`, `SetWindowFields` and `SetDeviceNameFields`, once
     * per builder they are instantiated for: the modifiers held in the state
     * are appended, the focus window's known fields replace the builder's,
     * and the device name and screen are set (`at` throws for an unknown
     * device).
     */

    method SetModifierValueMove(state: bv32, builder: MouseMove)
      modifies builder`modifiers
      ensures builder.modifiers == old(builder.modifiers) + ModifierTexts(ModifiersOf(state))
    {
      AddModifiersMove(ModifiersOf(state), builder);
    }

    /** The loop of `SetModifierValue`: one `modifier` call per value, in order. */
    method AddModifiersMove(values: seq<ModifierValue>, builder: MouseMove)
      modifies builder`modifiers
      ensures builder.modifiers == old(builder.modifiers) + ModifierTexts(values)
    {
      for k := 0 to |values|
        invariant builder.modifiers == old(builder.modifiers) + ModifierTexts(values[..k])
      {
        ModifierTextsStep(values, k);
        builder.Modifier(values[k]);
      }
      assert values[..|values|] == values;
    }

    method SetWindowFieldsMove(builder: MouseMove, x: XServer)
      modifies builder`focusWindowName, builder`focusWindowPositionX, builder`focusWindowPositionY
      modifies builder`focusWindowWidth, builder`focusWindowHeight
      ensures builder.focusWindowName == Override(old(builder.focusWindowName), WindowFieldsOf(x).name)
      ensures builder.focusWindowPositionX == Override(old(builder.focusWindowPositionX), DimensionX(WindowFieldsOf(x).position))
      ensures builder.focusWindowPositionY == Override(old(builder.focusWindowPositionY), DimensionY(WindowFieldsOf(x).position))
      ensures builder.focusWindowWidth == Override(old(builder.focusWindowWidth), DimensionX(WindowFieldsOf(x).size))
      ensures builder.focusWindowHeight == Override(old(builder.focusWindowHeight), DimensionY(WindowFieldsOf(x).size))
    {
      var window := FocusWindow(x);
      if window.None? {
        return;
      }
      var fields := WindowFieldsOf(x);
      if fields.name.Some? {
        builder.FocusWindowName(fields.name.value);
      }
      if fields.position.Some? {
        builder.FocusWindowPositionX(IntToDouble(fields.position.value.width));
        builder.FocusWindowPositionY(IntToDouble(fields.position.value.height));
      }
      if fields.size.Some? {
        builder.FocusWindowWidth(IntToDouble(fields.size.value.width));
        builder.FocusWindowHeight(IntToDouble(fields.size.value.height));
      }
    }

    method SetDeviceNameFieldsMove(builder: MouseMove, raw: RawEvent, screen: int) returns (r: Result<(), XError>)
      modifies builder`deviceName, builder`screen
      ensures r.Ok? <==> raw.sourceid in idToName
      ensures r.Ok? ==> builder.deviceName == Some(idToName[raw.sourceid]) && builder.screen == Some(screen)
      ensures r.Err? ==> builder.deviceName == old(builder.deviceName) && builder.screen == old(builder.screen)
    {
      if raw.sourceid !in idToName {
        return Err(OutOfRange);
      }
      builder.DeviceName(idToName[raw.sourceid]);
      builder.Screen(screen);
      r := Ok(());
    }

    method SetModifierValueClick(state: bv32, builder: MouseClick)
      modifies builder`modifiers
      ensures builder.modifiers == old(builder.modifiers) + ModifierTexts(ModifiersOf(state))
    {
      AddModifiersClick(ModifiersOf(state), builder);
    }

    /** The loop of `SetModifierValue`: one `modifier` call per value, in order. */
    method AddModifiersClick(values: seq<ModifierValue>, builder: MouseClick)
      modifies builder`modifiers
      ensures builder.modifiers == old(builder.modifiers) + ModifierTexts(values)
    {
      for k := 0 to |values|
        invariant builder.modifiers == old(builder.modifiers) + ModifierTexts(values[..k])
      {
        ModifierTextsStep(values, k);
        builder.Modifier(values[k]);
      }
      assert values[..|values|] == values;
    }

    method SetWindowFieldsClick(builder: MouseClick, x: XServer)
      modifies builder`focusWindowName, builder`focusWindowPositionX, builder`focusWindowPositionY
      modifies builder`focusWindowWidth, builder`focusWindowHeight
      ensures builder.focusWindowName == Override(old(builder.focusWindowName), WindowFieldsOf(x).name)
      ensures builder.focusWindowPositionX == Override(old(builder.focusWindowPositionX), DimensionX(WindowFieldsOf(x).position))
      ensures builder.focusWindowPositionY == Override(old(builder.focusWindowPositionY), DimensionY(WindowFieldsOf(x).position))
      ensures builder.focusWindowWidth == Override(old(builder.focusWindowWidth), DimensionX(WindowFieldsOf(x).size))
      ensures builder.focusWindowHeight == Override(old(builder.focusWindowHeight), DimensionY(WindowFieldsOf(x).size))
    {
      var window := FocusWindow(x);
      if window.None? {
        return;
      }
      var fields := WindowFieldsOf(x);
      if fields.name.Some? {
        builder.FocusWindowName(fields.name.value);
      }
      if fields.position.Some? {
        builder.FocusWindowPositionX(IntToDouble(fields.position.value.width));
        builder.FocusWindowPositionY(IntToDouble(fields.position.value.height));
      }
      if fields.size.Some? {
        builder.FocusWindowWidth(IntToDouble(fields.size.value.width));
        builder.FocusWindowHeight(IntToDouble(fields.size.value.height));
      }
    }

    method SetDeviceNameFieldsClick(builder: MouseClick, raw: RawEvent, screen: int) returns (r: Result<(), XError>)
      modifies builder`deviceName, builder`screen
      ensures r.Ok? <==> raw.sourceid in idToName
      ensures r.Ok? ==> builder.deviceName == Some(idToName[raw.sourceid]) && builder.screen == Some(screen)
      ensures r.Err? ==> builder.deviceName == old(builder.deviceName) && builder.screen == old(builder.screen)
    {
      if raw.sourceid !in idToName {
        return Err(OutOfRange);
      }
      builder.DeviceName(idToName[raw.sourceid]);
      builder.Screen(screen);
      r := Ok(());
    }

    method SetModifierValueScroll(state: bv32, builder: MouseScroll)
      modifies builder`modifiers
      ensures builder.modifiers == old(builder.modifiers) + ModifierTexts(ModifiersOf(state))
    {
      AddModifiersScroll(ModifiersOf(state), builder);
    }

    /** The loop of `SetModifierValue`: one `modifier` call per value, in order. */
    method AddModifiersScroll(values: seq<ModifierValue>, builder: MouseScroll)
      modifies builder`modifiers
      ensures builder.modifiers == old(builder.modifiers) + ModifierTexts(values)
    {
      for k := 0 to |values|
        invariant builder.modifiers == old(builder.modifiers) + ModifierTexts(values[..k])
      {
        ModifierTextsStep(values, k);
        builder.Modifier(values[k]);
      }
      assert values[..|values|] == values;
    }

    method SetWindowFieldsScroll(builder: MouseScroll, x: XServer)
      modifies builder`focusWindowName, builder`focusWindowPositionX, builder`focusWindowPositionY
      modifies builder`focusWindowWidth, builder`focusWindowHeight
      ensures builder.focusWindowName == Override(old(builder.focusWindowName), WindowFieldsOf(x).name)
      ensures builder.focusWindowPositionX == Override(old(builder.focusWindowPositionX), DimensionX(WindowFieldsOf(x).position))
      ensures builder.focusWindowPositionY == Override(old(builder.focusWindowPositionY), DimensionY(WindowFieldsOf(x).position))
      ensures builder.focusWindowWidth == Override(old(builder.focusWindowWidth), DimensionX(WindowFieldsOf(x).size))
      ensures builder.focusWindowHeight == Override(old(builder.focusWindowHeight), DimensionY(WindowFieldsOf(x).size))
    {
      var window := FocusWindow(x);
      if window.None? {
        return;
      }
      var fields := WindowFieldsOf(x);
      if fields.name.Some? {
        builder.FocusWindowName(fields.name.value);
      }
      if fields.position.Some? {
        builder.FocusWindowPositionX(IntToDouble(fields.position.value.width));
        builder.FocusWindowPositionY(IntToDouble(fields.position.value.height));
      }
      if fields.size.Some? {
        builder.FocusWindowWidth(IntToDouble(fields.size.value.width));
        builder.FocusWindowHeight(IntToDouble(fields.size.value.height));
      }
    }

    method SetDeviceNameFieldsScroll(builder: MouseScroll, raw: RawEvent, screen: int) returns (r: Result<(), XError>)
      modifies builder`deviceName, builder`screen
      ensures r.Ok? <==> raw.sourceid in idToName
      ensures r.Ok? ==> builder.deviceName == Some(idToName[raw.sourceid]) && builder.screen == Some(screen)
      ensures r.Err? ==> builder.deviceName == old(builder.deviceName) && builder.screen == old(builder.screen)
    {
      if raw.sourceid !in idToName {
        return Err(OutOfRange);
      }
      builder.DeviceName(idToName[raw.sourceid]);
      builder.Screen(screen);
      r := Ok(());
    }

    method SetModifierValueKey(state: bv32, builder: Key)
      modifies builder`modifiers
      ensures builder.modifiers == old(builder.modifiers) + ModifierTexts(ModifiersOf(state))
    {
      AddModifiersKey(ModifiersOf(state), builder);
    }

    /** The loop of `SetModifierValue`: one `modifier` call per value, in order. */
    method AddModifiersKey(values: seq<ModifierValue>, builder: Key)
      modifies builder`modifiers
      ensures builder.modifiers == old(builder.modifiers) + ModifierTexts(values)
    {
      for k := 0 to |values|
        invariant builder.modifiers == old(builder.modifiers) + ModifierTexts(values[..k])
      {
        ModifierTextsStep(values, k);
        builder.Modifier(values[k]);
      }
      assert values[..|values|] == values;
    }

    method SetWindowFieldsKey(builder: Key, x: XServer)
      modifies builder`focusWindowName, builder`focusWindowPositionX, builder`focusWindowPositionY
      modifies builder`focusWindowWidth, builder`focusWindowHeight
      ensures builder.focusWindowName == Override(old(builder.focusWindowName), WindowFieldsOf(x).name)
      ensures builder.focusWindowPositionX == Override(old(builder.focusWindowPositionX), DimensionX(WindowFieldsOf(x).position))
      ensures builder.focusWindowPositionY == Override(old(builder.focusWindowPositionY), DimensionY(WindowFieldsOf(x).position))
      ensures builder.focusWindowWidth == Override(old(builder.focusWindowWidth), DimensionX(WindowFieldsOf(x).size))
      ensures builder.focusWindowHeight == Override(old(builder.focusWindowHeight), DimensionY(WindowFieldsOf(x).size))
    {
      var window := FocusWindow(x);
      if window.None? {
        return;
      }
      var fields := WindowFieldsOf(x);
      if fields.name.Some? {
        builder.FocusWindowName(fields.name.value);
      }
      if fields.position.Some? {
        builder.FocusWindowPositionX(IntToDouble(fields.position.value.width));
        builder.FocusWindowPositionY(IntToDouble(fields.position.value.height));
      }
      if fields.size.Some? {
        builder.FocusWindowWidth(IntToDouble(fields.size.value.width));
        builder.FocusWindowHeight(IntToDouble(fields.size.value.height));
      }
    }

    method SetDeviceNameFieldsKey(builder: Key, raw: RawEvent, screen: int) returns (r: Result<(), XError>)
      modifies builder`deviceName, builder`screen
      ensures r.Ok? <==> raw.sourceid in idToName
      ensures r.Ok? ==> builder.deviceName == Some(idToName[raw.sourceid]) && builder.screen == Some(screen)
      ensures r.Err? ==> builder.deviceName == old(builder.deviceName) && builder.screen == old(builder.screen)
    {
      if raw.sourceid !in idToName {
        return Err(OutOfRange);
      }
      builder.DeviceName(idToName[raw.sourceid]);
      builder.Screen(screen);
      r := Ok(());
    }

    /** No modifiers and no window fields yet: a builder before the calls every handler makes. */
    static predicate UndecoratedMove(b: MouseMove)
      reads b
    {
      b.focusWindowName.None? && b.focusWindowPositionX.None? && b.focusWindowPositionY.None?
      && b.focusWindowWidth.None? && b.focusWindowHeight.None? && b.modifiers == []
    }

    /**
     * `SetModifierValue`, `SetWindowFields` and `SetDeviceNameFields` in turn,
     * as every handler calls them, on a builder that holds no modifiers and
     * no window fields yet; fails where `SetDeviceNameFields` does.
     */
    method DecorateMove(builder: MouseMove, pointer: PointerState, raw: RawEvent, x: XServer) returns (r: Result<(), XError>)
      requires UndecoratedMove(builder)
      modifies builder`modifiers, builder`focusWindowName, builder`focusWindowPositionX, builder`focusWindowPositionY
      modifies builder`focusWindowWidth, builder`focusWindowHeight, builder`deviceName, builder`screen
      ensures r.Ok? <==> raw.sourceid in idToName
      ensures builder.modifiers == ModifierTexts(ModifiersOf(pointer.modifierState))
      ensures builder.focusWindowName == WindowFieldsOf(x).name
      ensures builder.focusWindowPositionX == DimensionX(WindowFieldsOf(x).position)
      ensures builder.focusWindowPositionY == DimensionY(WindowFieldsOf(x).position)
      ensures builder.focusWindowWidth == DimensionX(WindowFieldsOf(x).size)
      ensures builder.focusWindowHeight == DimensionY(WindowFieldsOf(x).size)
      ensures r.Ok? ==> builder.deviceName == Some(idToName[raw.sourceid]) && builder.screen == Some(pointer.screen)
    {
      SetModifierValueMove(pointer.modifierState, builder);
      SetWindowFieldsMove(builder, x);
      r := SetDeviceNameFieldsMove(builder, raw, pointer.screen);
    }

    /** No modifiers and no window fields yet: a builder before the calls every handler makes. */
    static predicate UndecoratedClick(b: MouseClick)
      reads b
    {
      b.focusWindowName.None? && b.focusWindowPositionX.None? && b.focusWindowPositionY.None?
      && b.focusWindowWidth.None? && b.focusWindowHeight.None? && b.modifiers == []
    }

    /**
     * `SetModifierValue`, `SetWindowFields` and `SetDeviceNameFields` in turn,
     * as every handler calls them, on a builder that holds no modifiers and
     * no window fields yet; fails where `SetDeviceNameFields` does.
     */
    method DecorateClick(builder: MouseClick, pointer: PointerState, raw: RawEvent, x: XServer) returns (r: Result<(), XError>)
      requires UndecoratedClick(builder)
      modifies builder`modifiers, builder`focusWindowName, builder`focusWindowPositionX, builder`focusWindowPositionY
      modifies builder`focusWindowWidth, builder`focusWindowHeight, builder`deviceName, builder`screen
      ensures r.Ok? <==> raw.sourceid in idToName
      ensures builder.modifiers == ModifierTexts(ModifiersOf(pointer.modifierState))
      ensures builder.focusWindowName == WindowFieldsOf(x).name
      ensures builder.focusWindowPositionX == DimensionX(WindowFieldsOf(x).position)
      ensures builder.focusWindowPositionY == DimensionY(WindowFieldsOf(x).position)
      ensures builder.focusWindowWidth == DimensionX(WindowFieldsOf(x).size)
      ensures builder.focusWindowHeight == DimensionY(WindowFieldsOf(x).size)
      ensures r.Ok? ==> builder.deviceName == Some(idToName[raw.sourceid]) && builder.screen == Some(pointer.screen)
    {
      SetModifierValueClick(pointer.modifierState, builder);
      SetWindowFieldsClick(builder, x);
      r := SetDeviceNameFieldsClick(builder, raw, pointer.screen);
    }

    /** No modifiers and no window fields yet: a builder before the calls every handler makes. */
    static predicate UndecoratedScroll(b: MouseScroll)
      reads b
    {
      b.focusWindowName.None? && b.focusWindowPositionX.None? && b.focusWindowPositionY.None?
      && b.focusWindowWidth.None? && b.focusWindowHeight.None? && b.modifiers == []
    }

    /**
     * `SetModifierValue`, `SetWindowFields` and `SetDeviceNameFields` in turn,
     * as every handler calls them, on a builder that holds no modifiers and
     * no window fields yet; fails where `SetDeviceNameFields` does.
     */
    method DecorateScroll(builder: MouseScroll, pointer: PointerState, raw: RawEvent, x: XServer) returns (r: Result<(), XError>)
      requires UndecoratedScroll(builder)
      modifies builder`modifiers, builder`focusWindowName, builder`focusWindowPositionX, builder`focusWindowPositionY
      modifies builder`focusWindowWidth, builder`focusWindowHeight, builder`deviceName, builder`screen
      ensures r.Ok? <==> raw.sourceid in idToName
      ensures builder.modifiers == ModifierTexts(ModifiersOf(pointer.modifierState))
      ensures builder.focusWindowName == WindowFieldsOf(x).name
      ensures builder.focusWindowPositionX == DimensionX(WindowFieldsOf(x).position)
      ensures builder.focusWindowPositionY == DimensionY(WindowFieldsOf(x).position)
      ensures builder.focusWindowWidth == DimensionX(WindowFieldsOf(x).size)
      ensures builder.focusWindowHeight == DimensionY(WindowFieldsOf(x).size)
      ensures r.Ok? ==> builder.deviceName == Some(idToName[raw.sourceid]) && builder.screen == Some(pointer.screen)
    {
      SetModifierValueScroll(pointer.modifierState, builder);
      SetWindowFieldsScroll(builder, x);
      r := SetDeviceNameFieldsScroll(builder, raw, pointer.screen);
    }

    /** No modifiers and no window fields yet: a builder before the calls every handler makes. */
    static predicate UndecoratedKey(b: Key)
      reads b
    {
      b.focusWindowName.None? && b.focusWindowPositionX.None? && b.focusWindowPositionY.None?
      && b.focusWindowWidth.None? && b.focusWindowHeight.None? && b.modifiers == []
    }

    /**
     * `SetModifierValue`, `SetWindowFields` and `SetDeviceNameFields` in turn,
     * as every handler calls them, on a builder that holds no modifiers and
     * no window fields yet; fails where `SetDeviceNameFields` does.
     */
    method DecorateKey(builder: Key, pointer: PointerState, raw: RawEvent, x: XServer) returns (r: Result<(), XError>)
      requires UndecoratedKey(builder)
      modifies builder`modifiers, builder`focusWindowName, builder`focusWindowPositionX, builder`focusWindowPositionY
      modifies builder`focusWindowWidth, builder`focusWindowHeight, builder`deviceName, builder`screen
      ensures r.Ok? <==> raw.sourceid in idToName
      ensures builder.modifiers == ModifierTexts(ModifiersOf(pointer.modifierState))
      ensures builder.focusWindowName == WindowFieldsOf(x).name
      ensures builder.focusWindowPositionX == DimensionX(WindowFieldsOf(x).position)
      ensures builder.focusWindowPositionY == DimensionY(WindowFieldsOf(x).position)
      ensures builder.focusWindowWidth == DimensionX(WindowFieldsOf(x).size)
      ensures builder.focusWindowHeight == DimensionY(WindowFieldsOf(x).size)
      ensures r.Ok? ==> builder.deviceName == Some(idToName[raw.sourceid]) && builder.screen == Some(pointer.screen)
    {
      SetModifierValueKey(pointer.modifierState, builder);
      SetWindowFieldsKey(builder, x);
      r := SetDeviceNameFieldsKey(builder, raw, pointer.screen);
    }

    /**
     * The rest of `AddMotionEvent` once the device is known: the device and
     * pointer position, the calls every handler makes, then `Build`. `c` is
     * the event the chain describes.
     */
    method FinishMove(builder: MouseMove, ghost c: Common, device: DeviceType, pointer: PointerState, raw: RawEvent,
                      x: XServer, data: Data)
      returns (r: Result<(), XError>)
      requires builder.interval == c.interval && builder.timestamp == Some(c.timestamp) && UndecoratedMove(builder)
      requires c.device == device && c.pointer == pointer && c.window == WindowFieldsOf(x)
      requires raw.sourceid in idToName ==> c.deviceName == idToName[raw.sourceid]
      modifies builder, data
      ensures r.Ok? <==> raw.sourceid in idToName
      ensures r.Err? ==> data.entries == old(data.entries)
      ensures r.Ok? ==> data.entries == old(data.entries) + [Recorded(kMouseMove, c, MoveExtra)]
    {
      builder.Device(device);
      builder.PositionX(pointer.rootX);
      builder.PositionY(pointer.rootY);
      r := DecorateMove(builder, pointer, raw, x);
      if r.Err? {
        return;
      }
      RecordMove(builder, c, data);
    }

    /**
     * `AddMotionEvent`: records one mouse move of the event's device at the
     * pointer position, with the interval the clock reports for the event.
     */
    method AddMotionEvent(raw: RawEvent, timestamp: Schema.Timestamp, data: Data, x: XServer, clock: IntervalTracker)
      returns (r: Result<(), XError>)
      requires Valid()
      modifies data, clock
      ensures clock.previous == Some(raw.time)
      ensures r.Ok? <==> HasDevice(raw.sourceid)
      ensures r.Err? ==> data.entries == old(data.entries)
      ensures r.Ok? ==> data.entries == old(data.entries) + [Recorded(kMouseMove,
        Common(IntervalOf(old(clock.previous), raw.time), timestamp, devices[raw.sourceid],
               x.queryPointer(pointerId), WindowFieldsOf(x), idToName[raw.sourceid]), MoveExtra)]
    {
      var pointer := x.queryPointer(pointerId);
      var builder := new MouseMove();
      var interval := clock.GetInterval(raw.time);
      builder.Interval(interval);
      builder.Timestamp(timestamp);
      var device := GetDevice(raw.sourceid);
      if device.Err? {
        return Err(OutOfRange);
      }
      r := FinishMove(builder, Common(IntervalOf(old(clock.previous), raw.time), timestamp, devices[raw.sourceid],
                                      x.queryPointer(pointerId), WindowFieldsOf(x), idToName[raw.sourceid]),
                      device.value, pointer, raw, x, data);
    }

    /** The click's own setters, in the order `AddButtonEvent` calls them. */
    static method SetClickFields(builder: MouseClick, device: DeviceType, pointer: PointerState, action: ButtonAction,
                                 button: int, name: string)
      modifies builder`device, builder`positionX, builder`positionY, builder`action, builder`button, builder`name
      ensures builder.device == Some(device)
      ensures builder.positionX == Some(pointer.rootX) && builder.positionY == Some(pointer.rootY)
      ensures builder.action == Some(action) && builder.button == Some(button) && builder.name == Some(name)
    {
      builder.Device(device);
      builder.PositionX(pointer.rootX);
      builder.PositionY(pointer.rootY);
      builder.Action(action);
      builder.Button(button);
      builder.Name(name);
    }

    /**
     * The rest of `AddButtonEvent`'s chain once the device is known and the
     * button's name has been read; `c` and `extra` are the event it describes.
     */
    method FinishClick(builder: MouseClick, ghost c: Common, ghost extra: Extra, device: DeviceType, action: ButtonAction,
                       button: int, name: string, pointer: PointerState, raw: RawEvent, x: XServer, data: Data)
      returns (r: Result<(), XError>)
      requires builder.interval == c.interval && builder.timestamp == Some(c.timestamp) && UndecoratedClick(builder)
      requires c.device == device && c.pointer == pointer && c.window == WindowFieldsOf(x)
      requires raw.sourceid in idToName ==> c.deviceName == idToName[raw.sourceid]
      requires extra == ClickExtra(button, name, action)
      modifies builder, data
      ensures r.Ok? <==> raw.sourceid in idToName
      ensures r.Err? ==> data.entries == old(data.entries)
      ensures r.Ok? ==> data.entries == old(data.entries) + [Recorded(kMouseClick, c, extra)]
    {
      SetClickFields(builder, device, pointer, action, button, name);
      r := DecorateClick(builder, pointer, raw, x);
      if r.Err? {
        return;
      }
      RecordClick(builder, c, extra, data);
    }

    /** `button_map_[device][button]`: reads the name, storing an empty one if the button is new. */
    method ReadButtonName(deviceId: int, button: int) returns (name: string)
      modifies this`buttonMap
      ensures buttonMap == WithDefaultName(old(buttonMap), deviceId, button)
      ensures name == DefaultName(old(buttonMap), deviceId, button)
    {
      WithDefaultNameReads(buttonMap, deviceId, button);
      buttonMap := WithDefaultName(buttonMap, deviceId, button);
      name := buttonMap[deviceId][button];
    }

    /**
     * `AddButtonEvent`: records one mouse click with the given action and
     * button. The button's name is read with `operator[]`, which stores an
     * empty name for a button not seen before; the read happens after the
     * device lookup, so a missing device leaves the names as they were.
     */
    method AddButtonEvent(raw: RawEvent, timestamp: Schema.Timestamp, data: Data, action: ButtonAction,
                          button: int, x: XServer, clock: IntervalTracker)
      returns (r: Result<(), XError>)
      requires Valid()
      modifies this`buttonMap, data, clock
      ensures clock.previous == Some(raw.time)
      ensures r.Ok? <==> HasDevice(raw.sourceid)
      ensures r.Err? ==> data.entries == old(data.entries) && buttonMap == old(buttonMap)
      ensures r.Ok? ==> buttonMap == WithDefaultName(old(buttonMap), raw.sourceid, button)
      ensures r.Ok? ==> data.entries == old(data.entries) + [Recorded(kMouseClick,
        Common(IntervalOf(old(clock.previous), raw.time), timestamp, old(devices[raw.sourceid]),
               x.queryPointer(old(pointerId)), WindowFieldsOf(x), old(idToName[raw.sourceid])),
        ClickExtra(button, DefaultName(old(buttonMap), raw.sourceid, button), action))]
    {
      var pointer := x.queryPointer(pointerId);
      var builder := new MouseClick();
      var interval := clock.GetInterval(raw.time);
      builder.Interval(interval);
      builder.Timestamp(timestamp);
      var device := GetDevice(raw.sourceid);
      if device.Err? {
        return Err(OutOfRange);
      }
      var name := ReadButtonName(raw.sourceid, button);
      r := FinishClick(builder,
                       Common(IntervalOf(old(clock.previous), raw.time), timestamp, old(devices[raw.sourceid]),
                              x.queryPointer(old(pointerId)), WindowFieldsOf(x), old(idToName[raw.sourceid])),
                       ClickExtra(button, DefaultName(old(buttonMap), raw.sourceid, button), action),
                       device.value, action, button, name, pointer, raw, x, data);
    }
  }

  /** The name `buttonMap[device][button]` reads with `operator[]`: the stored name, or empty. */
  function DefaultName(m: map<int, map<int, string>>, deviceId: int, button: int): string
  {
    if deviceId in m && button in m[deviceId] then m[deviceId][button] else ""
  }

  /** `buttonMap[device][button]` read with `operator[]`: missing levels are created, the name defaults to empty. */
  function WithDefaultName(m: map<int, map<int, string>>, deviceId: int, button: int): map<int, map<int, string>>
  {
    if deviceId in m && button in m[deviceId] then m
    else m[deviceId := (if deviceId in m then m[deviceId] else map[])[button := ""]]
  }

  /**
   * Reading a name with `operator[]` leaves both levels present and reads
   * the stored name, or stores and reads the empty name; nothing else changes.
   */
  lemma WithDefaultNameReads(m: map<int, map<int, string>>, deviceId: int, button: int)
    ensures var r := WithDefaultName(m, deviceId, button);
      deviceId in r && button in r[deviceId] && r[deviceId][button] == DefaultName(m, deviceId, button)
    ensures deviceId in m && button in m[deviceId] ==> WithDefaultName(m, deviceId, button) == m
    ensures !(deviceId in m && button in m[deviceId]) ==> DefaultName(m, deviceId, button) == ""
    ensures forall d, b :: d in m && b in m[d] ==>
      d in WithDefaultName(m, deviceId, button) && b in WithDefaultName(m, deviceId, button)[d]
      && WithDefaultName(m, deviceId, button)[d][b] == m[d][b]
  {
  }

  /** `buttonMap[device][button] = name`. */
  function SetName(m: map<int, map<int, string>>, deviceId: int, button: int, name: string): map<int, map<int, string>>
  {
    var inner := if deviceId in m then m[deviceId] else map[];
    m[deviceId := inner[button := name]]
  }

  /** The button names after the first `n` buttons of a `SetButtonMap` loop. */
  function ButtonNames(m: map<int, map<int, string>>, deviceId: int, labels: seq<int>, mapping: seq<int>,
                       atomName: int -> Option<string>, n: nat): map<int, map<int, string>>
    requires n <= |labels| <= |mapping|
  {
    if n == 0 then m
    else
      var before := ButtonNames(m, deviceId, labels, mapping, atomName, n - 1);
      if labels[n - 1] != 0 && atomName(labels[n - 1]).Some? then
        SetName(before, deviceId, mapping[n - 1], atomName(labels[n - 1]).value)
      else before
  }

  /** The button map after `SetButtonMap`; unchanged when the server has no mapping. */
  function ButtonMapAfter(m: map<int, map<int, string>>, labels: seq<int>, deviceId: int, x: XServer): map<int, map<int, string>>
    requires MappingsFit(x)
  {
    var mapping := x.buttonMapping(deviceId, |labels|);
    if mapping.None? then m else ButtonNames(m, deviceId, labels, mapping.value, x.atomName, |labels|)
  }

  /** The name of the last of the first `n` buttons mapped to `button` that has a named label. */
  function LastNamed(labels: seq<int>, mapping: seq<int>, atomName: int -> Option<string>, button: int, n: nat): Option<string>
    requires n <= |labels| <= |mapping|
  {
    if n == 0 then None
    else if labels[n - 1] != 0 && atomName(labels[n - 1]).Some? && mapping[n - 1] == button then atomName(labels[n - 1])
    else LastNamed(labels, mapping, atomName, button, n - 1)
  }

  /**
   * After `SetButtonMap`, a button is named by the last named label mapped to
   * it; buttons no label maps to, and all other devices, keep their names.
   */
  lemma {:induction false} ButtonNamesLookup(m: map<int, map<int, string>>, deviceId: int, labels: seq<int>, mapping: seq<int>,
                                            atomName: int -> Option<string>, n: nat, button: int)
    requires n <= |labels| <= |mapping|
    ensures var r := ButtonNames(m, deviceId, labels, mapping, atomName, n);
      var last := LastNamed(labels, mapping, atomName, button, n);
      (last.Some? ==> deviceId in r && button in r[deviceId] && r[deviceId][button] == last.value)
      && (last.None? ==>
        (deviceId in r && button in r[deviceId] <==> deviceId in m && button in m[deviceId])
        && (deviceId in m && button in m[deviceId] ==> r[deviceId][button] == m[deviceId][button]))
      && (forall d :: d != deviceId ==> (d in r <==> d in m) && (d in m ==> r[d] == m[d]))
  {
    if n > 0 {
      ButtonNamesLookup(m, deviceId, labels, mapping, atomName, n - 1, button);
    }
  }

  /** The labels of the first button class of a device, if it has one. */
  function FirstButtonClass(classes: seq<ClassInfo>): Option<seq<int>>
  {
    if classes == [] then None
    else if classes[0].ButtonClass? then Some(classes[0].labels)
    else FirstButtonClass(classes[1..])
  }

  /** The button map after `RefreshDevices`: set from the first button class, when that class has buttons. */
  function RefreshedButtonMap(m: map<int, map<int, string>>, info: XIDeviceInfo, x: XServer): map<int, map<int, string>>
    requires MappingsFit(x)
  {
    var first := FirstButtonClass(info.classes);
    if first.Some? && |first.value| > 0 then ButtonMapAfter(m, first.value, info.deviceid, x) else m
  }
}

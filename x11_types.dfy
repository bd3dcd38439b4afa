/**
 * What the X server hands the X11 code: the XInput2 constants it compares
 * against, raw events, device descriptions and class infos, and the replies
 * of the server queries the code makes. The server itself is not modelled:
 * a `XServer` value fixes the reply of every query.
 */
module XTypes {
  import opened Wrappers
  import opened Schema

  // XInput2 event types (XI2.h).
  const XI_DeviceChanged: int := 1
  const XI_KeyPress: int := 2
  const XI_KeyRelease: int := 3
  const XI_HierarchyChanged: int := 11
  const XI_RawKeyPress: int := 13
  const XI_RawKeyRelease: int := 14
  const XI_RawButtonPress: int := 15
  const XI_RawButtonRelease: int := 16
  const XI_RawMotion: int := 17
  const XI_RawTouchBegin: int := 22
  const XI_RawTouchUpdate: int := 23
  const XI_RawTouchEnd: int := 24

  // Event flags (XI2.h): both flags share one bit, told apart by event type.
  const XIKeyRepeat: bv32 := 0x1_0000
  const XIPointerEmulated: bv32 := 0x1_0000

  // Device uses (XI.h for the XInput 1 list, XI2.h for XInput2).
  const IsXPointer: int := 0
  const XISlavePointer: int := 3
  const XISlaveKeyboard: int := 4
  const XIFloatingSlave: int := 5

  /** The `None` atom: a device without a type. */
  const NoneAtom: int := 0

  /** `NoSymbol`: no keysym. */
  const NoSymbol: int := 0

  // Atom names the code compares against (XI.h, xserver-properties.h).
  const XI_MOUSE: string := "MOUSE"
  const XI_KEYBOARD: string := "KEYBOARD"
  const XI_TOUCHPAD: string := "TOUCHPAD"
  const XI_TOUCHSCREEN: string := "TOUCHSCREEN"
  const BTN_LABEL_PROP_BTN_WHEEL_UP: string := "Button Wheel Up"
  const BTN_LABEL_PROP_BTN_WHEEL_DOWN: string := "Button Wheel Down"
  const BTN_LABEL_PROP_BTN_HWHEEL_LEFT: string := "Button Horiz Wheel Left"
  const BTN_LABEL_PROP_BTN_HWHEEL_RIGHT: string := "Button Horiz Wheel Right"
  const AXIS_LABEL_PROP_ABS_X: string := "Abs X"
  const AXIS_LABEL_PROP_ABS_Y: string := "Abs Y"
  const AXIS_LABEL_PROP_REL_X: string := "Rel X"
  const AXIS_LABEL_PROP_REL_Y: string := "Rel Y"

  /** The exception `std::unordered_map::at` throws for a missing key. */
  datatype XError = OutOfRange

  datatype ScrollType = ScrollVertical | ScrollHorizontal

  /** Touch modes: direct (a touchscreen), dependent (a touchpad), or another value. */
  datatype TouchMode = DirectTouch | DependentTouch | OtherTouchMode(mode: int)

  /** One entry of a device's class list; `NullClass` is a null pointer in the list. */
  datatype ClassInfo =
    | NullClass
    | KeyClass
    | ButtonClass(labels: seq<int>)
    | ValuatorClass(number: int, labelAtom: int)
    | ScrollClass(number: int, scrollType: ScrollType)
    | TouchClass(mode: TouchMode)
    | OtherClass(classType: int)

  /** `XIScrollClassInfo` as it is stored in the scroll map. */
  datatype ScrollInfo = ScrollInfo(number: int, scrollType: ScrollType)

  /** `XIDeviceInfo`. */
  datatype XIDeviceInfo = XIDeviceInfo(deviceid: int, use: int, enabled: bool, name: string, classes: seq<ClassInfo>)

  /** `XDeviceInfo` of the XInput 1 device list; `deviceType` is an atom. */
  datatype XDeviceInfo = XDeviceInfo(id: int, use: int, deviceType: int, name: string)

  /**
   * `XIRawEvent`: `mask` and `maskLen` are the valuator mask, `values` the
   * valuator values (doubles truncated to integers, as the valuator maps
   * store them).
   */
  datatype RawEvent = RawEvent(
    evtype: int, sourceid: int, detail: int, flags: bv32, time: int,
    mask: seq<bv8>, maskLen: nat, values: seq<int>)

  /** An event read from the server: its type, whether it carries data, the raw event and its timestamp. */
  datatype InputEvent = InputEvent(hasData: bool, eventType: int, raw: RawEvent, timestamp: Schema.Timestamp)

  datatype Dimensions = Dimensions(width: nat, height: nat)

  /** `QueryPointerResult`: pointer position, effective modifier state and screen. */
  datatype PointerState = PointerState(rootX: Schema.Double, rootY: Schema.Double, modifierState: bv32, screen: int)

  /**
   * The replies of the X11 API the event code calls. `lookup` is the
   * character and keysym `Xutf8LookupString` produces for a key press;
   * `buttonMapping` is `GetDeviceButtonMapping(device, size)`, absent when
   * the server gives none.
   */
  datatype XServer = XServer(
    queryPointer: int -> PointerState,
    activeWindow: Option<nat>,
    focusWindow: Option<nat>,
    windowName: nat -> Option<string>,
    windowPosition: nat -> Option<Dimensions>,
    windowSize: nat -> Option<Dimensions>,
    lookup: (RawEvent, PointerState) -> (string, int),
    keysymName: int -> Option<string>,
    atomName: int -> Option<string>,
    buttonMapping: (int, int) -> Option<seq<int>>,
    inputDevices: seq<XDeviceInfo>,
    xi2Devices: seq<XIDeviceInfo>)

  /** `GetDeviceButtonMapping` returns at least as many entries as were asked for. */
  ghost predicate MappingsFit(x: XServer)
  {
    forall device: int, n: nat :: x.buttonMapping(device, n).Some? ==> |x.buttonMapping(device, n).value| >= n
  }
}

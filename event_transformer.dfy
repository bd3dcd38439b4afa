/**
 * The X11 event transformer: it keeps the device registry and the clock,
 * refreshes the registry when the server reports a device change, and hands
 * every other event to its switches in order until one takes it. The
 * switches are the pointer-and-key switch followed by the touch switch.
 */
module XTransformer {
  import opened Wrappers
  import opened Maps
  import opened Schema
  import opened Entries
  import opened XTypes
  import opened XMasks
  import opened Intervals
  import opened XEventSwitch
  import opened XPointerKey
  import opened XTouch

  /**
   * The device type a type atom's name gives. The touchpad and touchscreen
   * names are swapped, as the source has them; a name that is absent or
   * unknown gives the unknown type.
   */
  function TypeOf(name: Option<string>): DeviceType
  {
    if name == Some(XI_MOUSE) then kMouse
    else if name == Some(XI_KEYBOARD) then kKeyboard
    else if name == Some(XI_TOUCHPAD) then kTouchscreen
    else if name == Some(XI_TOUCHSCREEN) then kTouchpad
    else kUnknown
  }

  /** The four names give the four types, with the touch types crossed, and no other name gives any of them. */
  lemma TypeOfNames(name: Option<string>)
    ensures TypeOf(name) == kMouse <==> name == Some(XI_MOUSE)
    ensures TypeOf(name) == kKeyboard <==> name == Some(XI_KEYBOARD)
    ensures TypeOf(name) == kTouchscreen <==> name == Some(XI_TOUCHPAD)
    ensures TypeOf(name) == kTouchpad <==> name == Some(XI_TOUCHSCREEN)
  {
  }

  /** The two event types that make the transformer refresh its devices instead of recording. */
  predicate ChangesDevices(eventType: int)
  {
    eventType == XI_DeviceChanged || eventType == XI_HierarchyChanged
  }

  /** The XInput2 devices by id, as `emplace` fills the index: the first device listed with an id wins. */
  function Xi2Index(infos: seq<XIDeviceInfo>): map<int, XIDeviceInfo>
  {
    if infos == [] then map[]
    else TryEmplace(Xi2Index(infos[..|infos| - 1]), infos[|infos| - 1].deviceid, infos[|infos| - 1])
  }

  /** The index holds exactly the listed ids. */
  lemma {:induction false} Xi2IndexKeys(infos: seq<XIDeviceInfo>, id: int)
    ensures id in Xi2Index(infos) <==> exists i :: 0 <= i < |infos| && infos[i].deviceid == id
  {
    if infos != [] {
      var prefix := infos[..|infos| - 1];
      Xi2IndexKeys(prefix, id);
      assert forall i :: 0 <= i < |prefix| ==> prefix[i] == infos[i];
      if id in Xi2Index(infos) && id != infos[|infos| - 1].deviceid {
        var i :| 0 <= i < |prefix| && prefix[i].deviceid == id;
        assert infos[i].deviceid == id;
      }
    }
  }

  /** Each id is indexed with the first device listed under it. */
  lemma {:induction false} Xi2IndexFirst(infos: seq<XIDeviceInfo>, i: nat)
    requires i < |infos| && forall j :: 0 <= j < i ==> infos[j].deviceid != infos[i].deviceid
    ensures infos[i].deviceid in Xi2Index(infos) && Xi2Index(infos)[infos[i].deviceid] == infos[i]
  {
    var prefix := infos[..|infos| - 1];
    Xi2IndexKeys(infos, infos[i].deviceid);
    if i < |prefix| {
      Xi2IndexFirst(prefix, i);
    } else {
      Xi2IndexKeys(prefix, infos[i].deviceid);
    }
  }

  /** The position of the first device whose id the XInput2 index lacks, or the list's length. */
  function FirstUnknown(infos: seq<XDeviceInfo>, xi2: map<int, XIDeviceInfo>): (k: nat)
    ensures k <= |infos|
    ensures forall j :: 0 <= j < k ==> infos[j].id in xi2
    ensures k < |infos| ==> infos[k].id !in xi2
  {
    if infos == [] || infos[0].id !in xi2 then 0
    else 1 + FirstUnknown(infos[1..], xi2)
  }

  /** A listed device is registered when its XInput2 twin is enabled and it has a type. */
  predicate Registers(device: XDeviceInfo, xi2: map<int, XIDeviceInfo>)
    requires device.id in xi2
  {
    xi2[device.id].enabled && device.deviceType != NoneAtom
  }

  /** Every listed device has an XInput2 twin. */
  predicate Known(infos: seq<XDeviceInfo>, xi2: map<int, XIDeviceInfo>)
  {
    forall j :: 0 <= j < |infos| ==> infos[j].id in xi2
  }

  /** The registry of types after the devices have been visited: `emplace` keeps the first registration. */
  function DevicesAfter(devices: map<int, DeviceType>, infos: seq<XDeviceInfo>, xi2: map<int, XIDeviceInfo>,
                        atomName: int -> Option<string>): map<int, DeviceType>
    requires Known(infos, xi2)
  {
    if infos == [] then devices
    else
      var d := infos[|infos| - 1];
      var before := DevicesAfter(devices, infos[..|infos| - 1], xi2, atomName);
      if Registers(d, xi2) then TryEmplace(before, d.id, TypeOf(atomName(d.deviceType))) else before
  }

  /** The registry of names after the devices have been visited. */
  function NamesAfter(idToName: map<int, string>, infos: seq<XDeviceInfo>, xi2: map<int, XIDeviceInfo>)
    : map<int, string>
    requires Known(infos, xi2)
  {
    if infos == [] then idToName
    else
      var d := infos[|infos| - 1];
      var before := NamesAfter(idToName, infos[..|infos| - 1], xi2);
      if Registers(d, xi2) then TryEmplace(before, d.id, d.name) else before
  }

  /** The pointer after the devices have been visited: the last one used as the X pointer. */
  function PointerAfter(pointer: Option<int>, infos: seq<XDeviceInfo>): Option<int>
  {
    if infos == [] then pointer
    else if infos[|infos| - 1].use == IsXPointer then Some(infos[|infos| - 1].id)
    else PointerAfter(pointer, infos[..|infos| - 1])
  }

  /**
   * What a refresh changes: the transformer's registry, the shared switch's
   * pointer id and button map, and the pointer-and-key switch's pointer id,
   * scroll map and axis maps.
   */
  datatype Registries = Registries(devices: map<int, DeviceType>, idToName: map<int, string>,
                                   sharedPointer: int, buttonMap: map<int, map<int, string>>,
                                   ownPointer: int, scrollMap: map<int, map<int, ScrollInfo>>,
                                   valuatorX: map<int, Option<int>>, valuatorY: map<int, Option<int>>)

  /**
   * What registering one device does to the registries, given the X pointer
   * seen so far: an enabled device with a type enters the registry unless its
   * id is already there, both switches adopt the pointer when there is one,
   * and the device's button names, scroll classes and axes are stored.
   */
  function RegisterStep(r: Registries, device: XDeviceInfo, seen: Option<int>, xi2: map<int, XIDeviceInfo>,
                        x: XServer): Registries
    requires device.id in xi2 && MappingsFit(x)
  {
    if !Registers(device, xi2) then r
    else
      var info := xi2[device.id];
      var valuators := ValuatorInfos(info.classes);
      Registries(TryEmplace(r.devices, device.id, TypeOf(x.atomName(device.deviceType))),
                 TryEmplace(r.idToName, device.id, device.name),
                 if seen.Some? then seen.value else r.sharedPointer,
                 RefreshedButtonMap(r.buttonMap, info, x),
                 if seen.Some? then seen.value else r.ownPointer,
                 ScrollMapAfter(r.scrollMap, device.id, ScrollInfos(info.classes)),
                 AxisMapAfter(r.valuatorX, device.id, LastAxis(valuators, x.atomName, XAxis)),
                 AxisMapAfter(r.valuatorY, device.id, LastAxis(valuators, x.atomName, YAxis)))
  }

  /**
   * The registries after the devices have been visited, starting from `r`
   * with the X pointer `pointer`: each device is registered with the X
   * pointer seen up to it, that device included.
   */
  function RegistriesAfter(r: Registries, pointer: Option<int>, infos: seq<XDeviceInfo>, xi2: map<int, XIDeviceInfo>,
                           x: XServer): Registries
    requires Known(infos, xi2) && MappingsFit(x)
  {
    if infos == [] then r
    else RegisterStep(RegistriesAfter(r, pointer, infos[..|infos| - 1], xi2, x), infos[|infos| - 1],
                      PointerAfter(pointer, infos), xi2, x)
  }

  /** The transformer's own registries after a refresh are those `DevicesAfter` and `NamesAfter` give. */
  lemma {:induction false} RegistriesAfterRegistry(r: Registries, pointer: Option<int>, infos: seq<XDeviceInfo>,
                                                   xi2: map<int, XIDeviceInfo>, x: XServer)
    requires Known(infos, xi2) && MappingsFit(x)
    ensures RegistriesAfter(r, pointer, infos, xi2, x).devices == DevicesAfter(r.devices, infos, xi2, x.atomName)
    ensures RegistriesAfter(r, pointer, infos, xi2, x).idToName == NamesAfter(r.idToName, infos, xi2)
  {
    if infos != [] {
      RegistriesAfterRegistry(r, pointer, infos[..|infos| - 1], xi2, x);
    }
  }

  /**
   * A refresh touches only the devices it registers: an id that no visited
   * device registers under keeps its scroll classes and both axes.
   */
  lemma {:induction false} RefreshKeepsOthers(r: Registries, pointer: Option<int>, infos: seq<XDeviceInfo>,
                                              xi2: map<int, XIDeviceInfo>, x: XServer, id: int)
    requires Known(infos, xi2) && MappingsFit(x)
    requires forall i :: 0 <= i < |infos| && infos[i].id == id ==> !Registers(infos[i], xi2)
    ensures var after := RegistriesAfter(r, pointer, infos, xi2, x);
      (id in after.devices <==> id in r.devices) && (id in after.scrollMap <==> id in r.scrollMap)
      && ScrollsOf(after.scrollMap, id) == ScrollsOf(r.scrollMap, id)
      && AxisValue(after.valuatorX, id) == AxisValue(r.valuatorX, id)
      && AxisValue(after.valuatorY, id) == AxisValue(r.valuatorY, id)
  {
    if infos != [] {
      var prefix := infos[..|infos| - 1];
      assert forall i :: 0 <= i < |prefix| ==> prefix[i] == infos[i];
      RefreshKeepsOthers(r, pointer, prefix, xi2, x, id);
      RegisterStepKeepsOthers(RegistriesAfter(r, pointer, prefix, xi2, x), infos[|infos| - 1],
                              PointerAfter(pointer, infos), xi2, x, id);
    }
  }

  /**
   * Both switches are handed the same pointer by every registration, so
   * switches that agreed on the pointer id before a refresh agree after it.
   */
  lemma {:induction false} RefreshPointersAgree(r: Registries, pointer: Option<int>, infos: seq<XDeviceInfo>,
                                                xi2: map<int, XIDeviceInfo>, x: XServer)
    requires Known(infos, xi2) && MappingsFit(x) && r.sharedPointer == r.ownPointer
    ensures RegistriesAfter(r, pointer, infos, xi2, x).sharedPointer == RegistriesAfter(r, pointer, infos, xi2, x).ownPointer
  {
    if infos != [] {
      RefreshPointersAgree(r, pointer, infos[..|infos| - 1], xi2, x);
    }
  }

  /** Registering one device touches no other id's registry entry, scroll classes or axes. */
  lemma RegisterStepKeepsOthers(r: Registries, device: XDeviceInfo, seen: Option<int>, xi2: map<int, XIDeviceInfo>,
                                x: XServer, id: int)
    requires device.id in xi2 && MappingsFit(x)
    requires device.id == id ==> !Registers(device, xi2)
    ensures var after := RegisterStep(r, device, seen, xi2, x);
      (id in after.devices <==> id in r.devices) && (id in after.scrollMap <==> id in r.scrollMap)
      && ScrollsOf(after.scrollMap, id) == ScrollsOf(r.scrollMap, id)
      && AxisValue(after.valuatorX, id) == AxisValue(r.valuatorX, id)
      && AxisValue(after.valuatorY, id) == AxisValue(r.valuatorY, id)
  {
  }

  /**
   * A device keeps the type it was first registered with; a device that was
   * not registered is registered exactly when some visited device with its
   * id qualifies, with the type of the first such device.
   */
  lemma {:induction false} DevicesFirstWins(devices: map<int, DeviceType>, infos: seq<XDeviceInfo>,
                                            xi2: map<int, XIDeviceInfo>, atomName: int -> Option<string>, id: int)
    requires Known(infos, xi2)
    ensures var r := DevicesAfter(devices, infos, xi2, atomName);
      (id in devices ==> id in r && r[id] == devices[id])
      && (id !in devices ==>
            (id in r <==> exists i :: 0 <= i < |infos| && infos[i].id == id && Registers(infos[i], xi2))
            && forall i :: 0 <= i < |infos| && infos[i].id == id && Registers(infos[i], xi2)
                 && (forall j :: 0 <= j < i && infos[j].id == id ==> !Registers(infos[j], xi2))
                 ==> id in r && r[id] == TypeOf(atomName(infos[i].deviceType)))
  {
    if infos != [] {
      var prefix := infos[..|infos| - 1];
      DevicesFirstWins(devices, prefix, xi2, atomName, id);
      assert forall i :: 0 <= i < |prefix| ==> prefix[i] == infos[i];
    }
  }

  /** `IndexXi2`'s loop: emplaces every XInput2 device under its id. */
  method IndexXi2(infos: seq<XIDeviceInfo>) returns (xi2: map<int, XIDeviceInfo>)
    ensures xi2 == Xi2Index(infos)
  {
    xi2 := map[];
    for i := 0 to |infos|
      invariant xi2 == Xi2Index(infos[..i])
    {
      assert infos[..i + 1][..i] == infos[..i];
      xi2 := TryEmplace(xi2, infos[i].deviceid, infos[i]);
    }
    assert infos[..|infos|] == infos;
  }

  /**
   * What the switches record for an event, given the registries, the
   * pointers the two switches query, the pointer-and-key switch's maps and
   * the clock's last time: the first switch that takes the event records
   * it; a button whose name is not registered fails.
   */
  function SwitchedRecords(buttonMap: map<int, map<int, string>>, devices: map<int, DeviceType>,
                           idToName: map<int, string>, sharedPointer: int, ownPointer: int,
                           scrollMap: map<int, map<int, ScrollInfo>>, valuatorX: map<int, Option<int>>,
                           valuatorY: map<int, Option<int>>, x: XServer, event: InputEvent, previous: Option<int>,
                           order: seq<int>): Result<seq<Entry>, XError>
    requires devices.Keys == idToName.Keys && WellFormed(event.raw)
  {
    var raw := event.raw;
    var t := event.eventType;
    if t == XI_RawKeyPress || t == XI_RawKeyRelease then
      Ok(KeyRecords(devices, idToName, ownPointer, x, raw, event.timestamp, previous))
    else if t == XI_RawButtonPress || t == XI_RawButtonRelease then
      ButtonOutcome(buttonMap, devices, idToName, sharedPointer, x, raw, event.timestamp, previous,
                    if t == XI_RawButtonPress then kPress else kRelease)
    else if t == XI_RawMotion then
      var moves := MoveRecords(devices, idToName, sharedPointer, x, raw, event.timestamp, previous, valuatorX, valuatorY);
      Ok(moves + ScrollRecords(devices, idToName, ownPointer, x, MotionAfter(devices, raw), event.timestamp,
                               ClockAfter(previous, moves, raw.time), scrollMap, order))
    else Ok(TouchRecords(buttonMap, devices, idToName, sharedPointer, x, event, previous))
  }

  /**
   * The pointer-and-key switch and the touch switch take disjoint event
   * types, so at most one of them records an event; an event neither takes
   * records nothing.
   */
  lemma SwitchesDisjoint(buttonMap: map<int, map<int, string>>, devices: map<int, DeviceType>,
                         idToName: map<int, string>, sharedPointer: int, ownPointer: int,
                         scrollMap: map<int, map<int, ScrollInfo>>, valuatorX: map<int, Option<int>>,
                         valuatorY: map<int, Option<int>>, x: XServer, event: InputEvent, previous: Option<int>,
                         order: seq<int>)
    requires devices.Keys == idToName.Keys && WellFormed(event.raw)
    ensures !(Handled(event.eventType) && IsTouch(event.eventType))
    ensures !Handled(event.eventType) && !IsTouch(event.eventType) ==>
      SwitchedRecords(buttonMap, devices, idToName, sharedPointer, ownPointer, scrollMap, valuatorX, valuatorY, x,
                      event, previous, order) == Ok([])
  {
  }

  /**
   * The transformer: the shared event switch, the two switches, the clock,
   * its own registry of device types and names, and the X pointer when one
   * has been seen.
   */
  class EventTransformer {
    const xs: EventSwitch
    const pointerKey: EventSwitchPointerKey
    const clock: IntervalTracker
    var devices: map<int, DeviceType>
    var idToName: map<int, string>
    var pointer: Option<int>

    /**
     * The transformer's registry and the shared switch's registry agree:
     * both are filled by `emplace` with the same devices, types and names.
     */
    ghost predicate Valid()
      reads this`devices, this`idToName, xs`devices, xs`idToName
    {
      xs.Valid() && xs.devices == devices && xs.idToName == idToName
    }

    /** The state a refresh changes. */
    ghost function Snapshot(): Registries
      reads this`devices, this`idToName, xs`pointerId, xs`buttonMap, pointerKey`pointerId, pointerKey`scrollMap,
            pointerKey`valuatorX, pointerKey`valuatorY
    {
      Registries(devices, idToName, xs.pointerId, xs.buttonMap, pointerKey.pointerId, pointerKey.scrollMap,
                 pointerKey.valuatorX, pointerKey.valuatorY)
    }

    /** A transformer before its first refresh. */
    constructor()
      ensures Valid() && devices == map[] && idToName == map[] && pointer == None
      ensures clock.previous == None && fresh(xs) && fresh(pointerKey) && fresh(clock)
    {
      xs := new EventSwitch();
      pointerKey := new EventSwitchPointerKey();
      clock := new IntervalTracker();
      devices := map[];
      idToName := map[];
      pointer := None;
    }

    /**
     * `RefreshDevices`: visits the XInput 1 device list, records the last X
     * pointer, and registers every enabled device with a type in its own
     * registry and, through the pointer-and-key switch, in the shared one.
     * A device without an XInput2 twin stops the refresh with `at`'s error.
     */
    method RefreshDevices(x: XServer) returns (r: Result<(), XError>)
      requires Valid() && MappingsFit(x)
      modifies this`devices, this`idToName, this`pointer, xs, pointerKey
      ensures Valid()
      ensures var xi2 := Xi2Index(x.xi2Devices);
        var k := FirstUnknown(x.inputDevices, xi2);
        (r.Ok? <==> k == |x.inputDevices|)
        && pointer == PointerAfter(old(pointer), x.inputDevices[..if r.Ok? then k else k + 1])
        && Snapshot() == RegistriesAfter(old(Snapshot()), old(pointer), x.inputDevices[..k], xi2, x)
    {
      var xi2 := IndexXi2(x.xi2Devices);
      var k := VisitDevices(xi2, x);
      if k < |x.inputDevices| {
        return Err(OutOfRange);
      }
      return Ok(());
    }

    /**
     * The loop of `RefreshDevices`: each device in turn is looked at as a
     * pointer and then registered, up to the first device without an
     * XInput2 twin, whose position is returned (the list's length if none).
     */
    method VisitDevices(xi2: map<int, XIDeviceInfo>, x: XServer) returns (k: nat)
      requires Valid() && MappingsFit(x)
      modifies this`devices, this`idToName, this`pointer, xs, pointerKey
      ensures Valid()
      ensures k == FirstUnknown(x.inputDevices, xi2)
      ensures pointer == PointerAfter(old(pointer), x.inputDevices[..if k < |x.inputDevices| then k + 1 else k])
      ensures Snapshot() == RegistriesAfter(old(Snapshot()), old(pointer), x.inputDevices[..k], xi2, x)
    {
      var infos := x.inputDevices;
      ghost var start := Snapshot();
      k := 0;
      while k < |infos| && infos[k].id in xi2
        invariant k <= FirstUnknown(infos, xi2)
        invariant Valid()
        invariant pointer == PointerAfter(old(pointer), infos[..k])
        invariant Snapshot() == RegistriesAfter(start, old(pointer), infos[..k], xi2, x)
      {
        var device := infos[k];
        assert infos[..k + 1][..k] == infos[..k] && infos[..k + 1] == infos[..k] + [device];
        if device.use == IsXPointer {
          pointer := Some(device.id);
        }
        Register(device, xi2, x);
        k := k + 1;
      }
      if k < |infos| {
        // The device without a twin is looked at as a pointer before its lookup fails.
        assert infos[..k + 1][..k] == infos[..k];
        if infos[k].use == IsXPointer {
          pointer := Some(infos[k].id);
        }
      } else {
        assert infos[..k] == infos;
      }
    }

    /**
     * One device of `RefreshDevices`' loop, once its twin is found: an
     * enabled device with a type is registered here and, with the pointer
     * seen so far, through the pointer-and-key switch, so the registries
     * after the devices before it become those after it as well.
     */
    method Register(device: XDeviceInfo, xi2: map<int, XIDeviceInfo>, x: XServer)
      requires Valid() && MappingsFit(x) && device.id in xi2
      modifies this`devices, this`idToName, xs, pointerKey
      ensures Valid() && pointer == old(pointer)
      ensures Snapshot() == RegisterStep(old(Snapshot()), device, pointer, xi2, x)
    {
      var info := xi2[device.id];
      if info.enabled && device.deviceType != NoneAtom {
        var deviceType := TypeOf(x.atomName(device.deviceType));
        devices := TryEmplace(devices, device.id, deviceType);
        idToName := TryEmplace(idToName, device.id, device.name);
        pointerKey.RefreshDevices(device.id, pointer, deviceType, device.name, info, xs, x);
      }
    }

    /**
     * `TransformEvent`: an event without data gives empty data; a device
     * change refreshes the registry and gives empty data, or fails with the
     * refresh's error; any other event goes to the switches, and its data is
     * what they record, or their error.
     */
    method TransformEvent(event: InputEvent, x: XServer, classOrder: seq<int>, order: seq<int>)
      returns (r: Result<Data, XError>)
      requires Valid() && MappingsFit(x)
      requires event.hasData && !ChangesDevices(event.eventType) ==> WellFormed(event.raw)
      requires event.hasData && !ChangesDevices(event.eventType) && event.raw.sourceid in pointerKey.scrollMap ==>
        Lists(classOrder, pointerKey.scrollMap[event.raw.sourceid].Keys)
        && Visits(order, pointerKey.scrollMap[event.raw.sourceid], KeysOf(event.raw))
      modifies this`devices, this`idToName, this`pointer, xs, pointerKey, clock
      ensures Valid()
      ensures r.Ok? ==> fresh(r.value)
      ensures !event.hasData ==>
        r.Ok? && r.value.entries == [] && Snapshot() == old(Snapshot())
        && pointer == old(pointer) && clock.previous == old(clock.previous)
      ensures event.hasData && ChangesDevices(event.eventType) ==>
        var xi2 := Xi2Index(x.xi2Devices);
        var k := FirstUnknown(x.inputDevices, xi2);
        (r.Ok? <==> k == |x.inputDevices|)
        && (r.Ok? ==> r.value.entries == [])
        && Snapshot() == RegistriesAfter(old(Snapshot()), old(pointer), x.inputDevices[..k], xi2, x)
        && pointer == PointerAfter(old(pointer), x.inputDevices[..if r.Ok? then k else k + 1])
        && clock.previous == old(clock.previous)
      ensures event.hasData && !ChangesDevices(event.eventType) ==>
        var outcome := SwitchedRecords(old(xs.buttonMap), old(devices), old(idToName), old(xs.pointerId),
                                       old(pointerKey.pointerId), old(pointerKey.scrollMap), old(pointerKey.valuatorX),
                                       old(pointerKey.valuatorY), x, event, old(clock.previous), order);
        r.Ok? == outcome.Ok? && (r.Ok? ==> r.value.entries == outcome.value)
        && pointer == old(pointer)
        && Snapshot() == old(Snapshot()).(buttonMap := xs.buttonMap, valuatorX := pointerKey.valuatorX,
                                          valuatorY := pointerKey.valuatorY)
        && xs.buttonMap == XTouch.ButtonMapAfter(old(xs.buttonMap), old(devices), event)
        && AtMostDefaulted(pointerKey.valuatorX, old(pointerKey.valuatorX), event.raw.sourceid)
        && AtMostDefaulted(pointerKey.valuatorY, old(pointerKey.valuatorY), event.raw.sourceid)
        && clock.previous == (if outcome.Ok? && outcome.value != [] then Some(event.raw.time) else old(clock.previous))
    {
      var data := new Data();
      if !event.hasData {
        return Ok(data);
      }
      if ChangesDevices(event.eventType) {
        var refreshed := RefreshDevices(x);
        if refreshed.Err? {
          return Err(refreshed.error);
        }
        return Ok(data);
      }
      var dispatched := Dispatch(event, data, x, classOrder, order);
      if dispatched.Err? {
        return Err(dispatched.error);
      }
      return Ok(data);
    }

    /**
     * The switches in order, stopping at the first that takes the event:
     * the pointer-and-key switch, then the touch switch.
     */
    method Dispatch(event: InputEvent, data: Data, x: XServer, classOrder: seq<int>, order: seq<int>)
      returns (r: Result<(), XError>)
      requires Valid() && WellFormed(event.raw)
      requires event.raw.sourceid in pointerKey.scrollMap ==>
        Lists(classOrder, pointerKey.scrollMap[event.raw.sourceid].Keys)
        && Visits(order, pointerKey.scrollMap[event.raw.sourceid], KeysOf(event.raw))
      modifies pointerKey`valuatorX, pointerKey`valuatorY, xs`buttonMap, data, clock
      ensures Valid() && xs.buttonMap == XTouch.ButtonMapAfter(old(xs.buttonMap), xs.devices, event)
      ensures var outcome := SwitchedRecords(old(xs.buttonMap), xs.devices, xs.idToName, xs.pointerId,
                                             pointerKey.pointerId, pointerKey.scrollMap, old(pointerKey.valuatorX),
                                             old(pointerKey.valuatorY), x, event, old(clock.previous), order);
        r.Ok? == outcome.Ok? && data.entries == old(data.entries) + (if outcome.Ok? then outcome.value else [])
      ensures AtMostDefaulted(pointerKey.valuatorX, old(pointerKey.valuatorX), event.raw.sourceid)
        && AtMostDefaulted(pointerKey.valuatorY, old(pointerKey.valuatorY), event.raw.sourceid)
      ensures clock.previous == (if data.entries == old(data.entries) then old(clock.previous) else Some(event.raw.time))
    {
      var t := event.eventType;
      if t == XI_RawKeyPress || t == XI_RawKeyRelease || t == XI_RawButtonPress || t == XI_RawButtonRelease {
        assert XTouch.ButtonMapAfter(xs.buttonMap, xs.devices, event) == xs.buttonMap;
        r := DispatchKeyOrButton(event, data, x, classOrder, order);
      } else if t == XI_RawMotion {
        assert XTouch.ButtonMapAfter(xs.buttonMap, xs.devices, event) == xs.buttonMap;
        DispatchMotion(event, data, x, classOrder, order);
        r := Ok(());
      } else {
        DispatchOther(event, data, x, classOrder, order);
        r := Ok(());
      }
    }

    /** `Dispatch` for a motion, which the pointer-and-key switch takes. */
    method DispatchMotion(event: InputEvent, data: Data, x: XServer, classOrder: seq<int>, order: seq<int>)
      requires Valid() && WellFormed(event.raw) && event.eventType == XI_RawMotion
      requires event.raw.sourceid in pointerKey.scrollMap ==>
        Lists(classOrder, pointerKey.scrollMap[event.raw.sourceid].Keys)
        && Visits(order, pointerKey.scrollMap[event.raw.sourceid], KeysOf(event.raw))
      modifies pointerKey`valuatorX, pointerKey`valuatorY, xs`buttonMap, data, clock
      ensures Valid() && xs.buttonMap == old(xs.buttonMap)
      ensures var outcome := SwitchedRecords(old(xs.buttonMap), xs.devices, xs.idToName, xs.pointerId,
                                             pointerKey.pointerId, pointerKey.scrollMap, old(pointerKey.valuatorX),
                                             old(pointerKey.valuatorY), x, event, old(clock.previous), order);
        outcome.Ok? && data.entries == old(data.entries) + outcome.value
      ensures AtMostDefaulted(pointerKey.valuatorX, old(pointerKey.valuatorX), event.raw.sourceid)
        && AtMostDefaulted(pointerKey.valuatorY, old(pointerKey.valuatorY), event.raw.sourceid)
      ensures clock.previous == (if data.entries == old(data.entries) then old(clock.previous) else Some(event.raw.time))
    {
      ghost var moves := MoveRecords(xs.devices, xs.idToName, xs.pointerId, x, event.raw, event.timestamp,
                                     clock.previous, pointerKey.valuatorX, pointerKey.valuatorY);
      ghost var scrolls := ScrollRecords(xs.devices, xs.idToName, pointerKey.pointerId, x,
                                         MotionAfter(xs.devices, event.raw), event.timestamp,
                                         ClockAfter(clock.previous, moves, event.raw.time), pointerKey.scrollMap, order);
      assert SwitchedRecords(xs.buttonMap, xs.devices, xs.idToName, xs.pointerId, pointerKey.pointerId,
                             pointerKey.scrollMap, pointerKey.valuatorX, pointerKey.valuatorY, x, event,
                             clock.previous, order) == Ok(moves + scrolls);
      var taken := pointerKey.SwitchOnEvent(event, data, xs, x, clock, classOrder, order);
    }

    /** `Dispatch` for every other event: the pointer-and-key switch passes, the touch switch runs. */
    method DispatchOther(event: InputEvent, data: Data, x: XServer, classOrder: seq<int>, order: seq<int>)
      requires Valid() && WellFormed(event.raw)
      requires !Handled(event.eventType)
      requires event.raw.sourceid in pointerKey.scrollMap ==>
        Lists(classOrder, pointerKey.scrollMap[event.raw.sourceid].Keys)
        && Visits(order, pointerKey.scrollMap[event.raw.sourceid], KeysOf(event.raw))
      modifies pointerKey`valuatorX, pointerKey`valuatorY, xs`buttonMap, data, clock
      ensures Valid() && xs.buttonMap == XTouch.ButtonMapAfter(old(xs.buttonMap), xs.devices, event)
      ensures var outcome := SwitchedRecords(old(xs.buttonMap), xs.devices, xs.idToName, xs.pointerId,
                                             pointerKey.pointerId, pointerKey.scrollMap, old(pointerKey.valuatorX),
                                             old(pointerKey.valuatorY), x, event, old(clock.previous), order);
        outcome.Ok? && data.entries == old(data.entries) + outcome.value
      ensures AtMostDefaulted(pointerKey.valuatorX, old(pointerKey.valuatorX), event.raw.sourceid)
        && AtMostDefaulted(pointerKey.valuatorY, old(pointerKey.valuatorY), event.raw.sourceid)
      ensures clock.previous == (if data.entries == old(data.entries) then old(clock.previous) else Some(event.raw.time))
    {
      ghost var touches := TouchRecords(xs.buttonMap, xs.devices, xs.idToName, xs.pointerId, x, event, clock.previous);
      assert SwitchedRecords(xs.buttonMap, xs.devices, xs.idToName, xs.pointerId, pointerKey.pointerId,
                             pointerKey.scrollMap, pointerKey.valuatorX, pointerKey.valuatorY, x, event,
                             clock.previous, order) == Ok(touches);
      XTouch.TouchShape(xs.buttonMap, xs.devices, xs.idToName, xs.pointerId, x, event, clock.previous);
      var taken := pointerKey.SwitchOnEvent(event, data, xs, x, clock, classOrder, order);
      var touched := XTouch.SwitchOnEvent(event, data, xs, x, clock);
    }

    /** `Dispatch` for key and button events, which the pointer-and-key switch takes. */
    method DispatchKeyOrButton(event: InputEvent, data: Data, x: XServer, classOrder: seq<int>, order: seq<int>)
      returns (r: Result<(), XError>)
      requires Valid() && WellFormed(event.raw)
      requires event.eventType == XI_RawKeyPress || event.eventType == XI_RawKeyRelease
        || event.eventType == XI_RawButtonPress || event.eventType == XI_RawButtonRelease
      requires event.raw.sourceid in pointerKey.scrollMap ==>
        Lists(classOrder, pointerKey.scrollMap[event.raw.sourceid].Keys)
        && Visits(order, pointerKey.scrollMap[event.raw.sourceid], KeysOf(event.raw))
      modifies pointerKey`valuatorX, pointerKey`valuatorY, xs`buttonMap, data, clock
      ensures Valid() && xs.buttonMap == old(xs.buttonMap)
      ensures var outcome := SwitchedRecords(old(xs.buttonMap), xs.devices, xs.idToName, xs.pointerId,
                                             pointerKey.pointerId, pointerKey.scrollMap, old(pointerKey.valuatorX),
                                             old(pointerKey.valuatorY), x, event, old(clock.previous), order);
        r.Ok? == outcome.Ok? && data.entries == old(data.entries) + (if outcome.Ok? then outcome.value else [])
      ensures AtMostDefaulted(pointerKey.valuatorX, old(pointerKey.valuatorX), event.raw.sourceid)
        && AtMostDefaulted(pointerKey.valuatorY, old(pointerKey.valuatorY), event.raw.sourceid)
      ensures clock.previous == (if data.entries == old(data.entries) then old(clock.previous) else Some(event.raw.time))
    {
      ghost var outcome := SwitchedRecords(xs.buttonMap, xs.devices, xs.idToName, xs.pointerId,
                                           pointerKey.pointerId, pointerKey.scrollMap, pointerKey.valuatorX,
                                           pointerKey.valuatorY, x, event, clock.previous, order);
      ghost var t := event.eventType;
      if t == XI_RawKeyPress || t == XI_RawKeyRelease {
        assert outcome == Ok(KeyRecords(xs.devices, xs.idToName, pointerKey.pointerId, x, event.raw, event.timestamp,
                                        clock.previous));
      } else {
        assert outcome == ButtonOutcome(xs.buttonMap, xs.devices, xs.idToName, xs.pointerId, x, event.raw,
                                        event.timestamp, clock.previous, if t == XI_RawButtonPress then kPress else kRelease);
      }
      var taken := pointerKey.SwitchOnEvent(event, data, xs, x, clock, classOrder, order);
      if taken.Err? {
        return Err(taken.error);
      }
      return Ok(());
    }
  }
}

/**
 * The X11 handler for pointer and keyboard events: it keeps, per device,
 * the scroll classes and the valuators that carry the x and y axes, and
 * turns raw motion, button and key events into mouse moves, scrolls,
 * clicks and key entries through the shared event switch.
 */
module XPointerKey {
  import opened Wrappers
  import opened Text
  import opened Schema
  import opened Entries
  import opened Maps
  import opened XTypes
  import opened XMasks
  import opened XWrapper
  import opened Intervals
  import opened KeyBuilder
  import opened MouseScrollBuilder
  import opened XEventSwitch

  /** A valuator class as `RefreshDevices` keeps it: its number and its label atom. */
  datatype ValuatorInfo = ValuatorInfo(number: int, labelAtom: int)

  /** The scroll classes of a class list, in order; null entries are skipped. */
  function ScrollInfos(classes: seq<ClassInfo>): seq<ScrollInfo>
  {
    if classes == [] then []
    else
      var c := classes[|classes| - 1];
      ScrollInfos(classes[..|classes| - 1]) + (if c.ScrollClass? then [ScrollInfo(c.number, c.scrollType)] else [])
  }

  /** The valuator classes of a class list, in order; null entries are skipped. */
  function ValuatorInfos(classes: seq<ClassInfo>): seq<ValuatorInfo>
  {
    if classes == [] then []
    else
      var c := classes[|classes| - 1];
      ValuatorInfos(classes[..|classes| - 1]) + (if c.ValuatorClass? then [ValuatorInfo(c.number, c.labelAtom)] else [])
  }

  /** Each scroll class's own number, in class order: `scroll_map_[id][number] = info`, one after the other. */
  function StoreScrolls(inner: map<int, ScrollInfo>, infos: seq<ScrollInfo>): map<int, ScrollInfo>
  {
    if infos == [] then inner
    else
      var info := infos[|infos| - 1];
      StoreScrolls(inner, infos[..|infos| - 1])[info.number := info]
  }

  /** The device's scroll classes, or none yet. */
  function ScrollsOf(scrollMap: map<int, map<int, ScrollInfo>>, deviceId: int): map<int, ScrollInfo>
  {
    if deviceId in scrollMap then scrollMap[deviceId] else map[]
  }

  /** The scroll map after storing `infos` for a device; the device gets an entry only when there is one. */
  function ScrollMapAfter(scrollMap: map<int, map<int, ScrollInfo>>, deviceId: int, infos: seq<ScrollInfo>)
    : map<int, map<int, ScrollInfo>>
  {
    if infos == [] then scrollMap else scrollMap[deviceId := StoreScrolls(ScrollsOf(scrollMap, deviceId), infos)]
  }

  /**
   * A later scroll class with the same number overwrites an earlier one:
   * a number is stored iff it was stored before or some class has it, and it
   * then holds the last class with that number, or the old entry if none.
   */
  lemma {:induction false} StoreScrollsLastWins(inner: map<int, ScrollInfo>, infos: seq<ScrollInfo>, n: int)
    ensures n in StoreScrolls(inner, infos) <==> n in inner || exists i :: 0 <= i < |infos| && infos[i].number == n
    ensures forall i :: (0 <= i < |infos| && infos[i].number == n
      && (forall j :: i < j < |infos| ==> infos[j].number != n)) ==> StoreScrolls(inner, infos)[n] == infos[i]
    ensures (forall i :: 0 <= i < |infos| ==> infos[i].number != n) && n in inner ==>
      StoreScrolls(inner, infos)[n] == inner[n]
  {
    if infos != [] {
      var prefix := infos[..|infos| - 1];
      StoreScrollsLastWins(inner, prefix, n);
      assert forall i :: 0 <= i < |prefix| ==> prefix[i] == infos[i];
      if n in inner || exists i :: 0 <= i < |infos| && infos[i].number == n {
        if infos[|infos| - 1].number != n && n !in inner {
          var i :| 0 <= i < |infos| && infos[i].number == n;
          assert prefix[i].number == n;
        }
      }
    }
  }

  /** Which axis a valuator's label names: ABS_X or REL_X is x, else ABS_Y or REL_Y is y. */
  datatype Axis = XAxis | YAxis

  function AxisOf(name: Option<string>): Option<Axis>
  {
    if name.None? then None
    else if name.value == AXIS_LABEL_PROP_ABS_X || name.value == AXIS_LABEL_PROP_REL_X then Some(XAxis)
    else if name.value == AXIS_LABEL_PROP_ABS_Y || name.value == AXIS_LABEL_PROP_REL_Y then Some(YAxis)
    else None
  }

  /** The number of the last valuator labelled with `axis`, if any. */
  function LastAxis(valuators: seq<ValuatorInfo>, atomName: int -> Option<string>, axis: Axis): Option<int>
  {
    if valuators == [] then None
    else
      var v := valuators[|valuators| - 1];
      if AxisOf(atomName(v.labelAtom)) == Some(axis) then Some(v.number)
      else LastAxis(valuators[..|valuators| - 1], atomName, axis)
  }

  /** `valuator_x_[id] = number` for the last such valuator, or no change. */
  function AxisMapAfter(m: map<int, Option<int>>, deviceId: int, last: Option<int>): map<int, Option<int>>
  {
    if last.Some? then m[deviceId := last] else m
  }

  /**
   * A later valuator for the same axis overwrites an earlier one: the axis
   * is set iff some valuator is labelled with it, and then to the number of
   * the last one.
   */
  lemma {:induction false} LastAxisIsLast(valuators: seq<ValuatorInfo>, atomName: int -> Option<string>, axis: Axis)
    ensures LastAxis(valuators, atomName, axis).None? <==>
      forall i :: 0 <= i < |valuators| ==> AxisOf(atomName(valuators[i].labelAtom)) != Some(axis)
    ensures LastAxis(valuators, atomName, axis).Some? ==>
      exists i :: 0 <= i < |valuators| && AxisOf(atomName(valuators[i].labelAtom)) == Some(axis)
        && valuators[i].number == LastAxis(valuators, atomName, axis).value
        && forall j :: i < j < |valuators| ==> AxisOf(atomName(valuators[j].labelAtom)) != Some(axis)
  {
    if valuators != [] {
      var prefix := valuators[..|valuators| - 1];
      LastAxisIsLast(prefix, atomName, axis);
      assert forall i :: 0 <= i < |prefix| ==> prefix[i] == valuators[i];
    }
  }

  /** A label is one of the two x names or one of the two y names, never both. */
  lemma AxisNamesDisjoint(name: string)
    ensures AxisOf(Some(name)) == Some(YAxis) <==>
      name == AXIS_LABEL_PROP_ABS_Y || name == AXIS_LABEL_PROP_REL_Y
  {
  }

  /** The registered axis valuator of a device: `valuator_x_[id]` when there is an entry. */
  function AxisValue(m: map<int, Option<int>>, deviceId: int): Option<int>
  {
    if deviceId in m then m[deviceId] else None
  }

  /**
   * An axis map that `operator[]` may have touched: it is unchanged or has
   * gained an empty entry for the device, so no device's axis differs.
   */
  predicate AtMostDefaulted(after: map<int, Option<int>>, before: map<int, Option<int>>, deviceId: int): (b: bool)
    ensures b ==> forall d :: AxisValue(after, d) == AxisValue(before, d)
  {
    after == before || after == TryEmplace(before, deviceId, None)
  }

  /** Some valuator of the event is the device's x or y valuator. */
  predicate Tracks(keys: seq<nat>, x: Option<int>, y: Option<int>)
  {
    exists j :: 0 <= j < |keys| && (Some(keys[j] as int) == x || Some(keys[j] as int) == y)
  }

  /** The wheel labels whose buttons are not recorded as clicks. */
  predicate IsWheel(name: string)
  {
    name == BTN_LABEL_PROP_BTN_WHEEL_UP || name == BTN_LABEL_PROP_BTN_WHEEL_DOWN
    || name == BTN_LABEL_PROP_BTN_HWHEEL_LEFT || name == BTN_LABEL_PROP_BTN_HWHEEL_RIGHT
  }

  /** A flag of the raw event is set. */
  predicate Flagged(raw: RawEvent, flag: bv32)
  {
    raw.flags & flag != 0
  }

  /**
   * The key action: release only for `XI_KeyRelease`, otherwise repeat when
   * the repeat flag is set, else press. Raw key events carry
   * `XI_RawKeyRelease`, which is not `XI_KeyRelease`.
   */
  function KeyAction(raw: RawEvent): ButtonAction
  {
    if raw.evtype != XI_KeyRelease then (if Flagged(raw, XIKeyRepeat) then kRepeat else kPress) else kRelease
  }

  /** A raw key release is never recorded as a release: it reads as a press or a repeat. */
  lemma RawReleaseIsNotRelease(raw: RawEvent)
    requires raw.evtype == XI_RawKeyRelease
    ensures KeyAction(raw) != kRelease
    ensures KeyAction(raw) == (if Flagged(raw, XIKeyRepeat) then kRepeat else kPress)
  {
  }

  /** What a key entry holds beyond the common fields: the key code, the keysym's name, the action and the character. */
  function KeyExtraOf(x: XServer, raw: RawEvent, pointer: PointerState): Extra
  {
    var (character, keySym) := LookupCharacter(raw.evtype, x.lookup(raw, pointer), NoSymbol);
    KeyExtra(raw.detail, KeySymToString(x.keysymName, keySym), KeyAction(raw), character)
  }

  /** A key release has no character and no key name; a press has what the lookup gives. */
  lemma KeyExtraLookup(x: XServer, raw: RawEvent, pointer: PointerState)
    ensures raw.evtype != XI_RawKeyPress ==>
      KeyExtraOf(x, raw, pointer).character == "" && KeyExtraOf(x, raw, pointer).keyName == ""
    ensures raw.evtype == XI_RawKeyPress ==> KeyExtraOf(x, raw, pointer).character == x.lookup(raw, pointer).0
  {
  }

  /** `valuators[valuator]` on the valuator map, which reads 0 for a missing key. */
  function ValueAt(valuators: map<int, int>, k: int): int
  {
    if k in valuators then valuators[k] else 0
  }

  /** The scroll classes of the device whose valuators the event carries: `processed_valuators`. */
  function Processed(inner: map<int, ScrollInfo>, valuators: map<int, int>): map<int, ScrollInfo>
  {
    map k | k in inner && k in valuators :: inner[k]
  }

  /**
   * The amount the scroll records in one direction when the processed
   * valuators are visited in `order`: the last valuator of that direction
   * wins; none when no valuator has it.
   */
  function LastAmount(order: seq<int>, processed: map<int, ScrollInfo>, valuators: map<int, int>, t: ScrollType)
    : Option<Schema.Double>
  {
    if order == [] then None
    else
      var k := order[|order| - 1];
      if k in processed && processed[k].scrollType == t then Some(IntToDouble(ValueAt(valuators, k)))
      else LastAmount(order[..|order| - 1], processed, valuators, t)
  }

  /**
   * A direction's amount is present iff some visited valuator has that
   * direction, and then it is the value of the last such valuator.
   */
  lemma LastAmountIsLast(order: seq<int>, processed: map<int, ScrollInfo>, valuators: map<int, int>, t: ScrollType)
    ensures LastAmount(order, processed, valuators, t).None? <==>
      forall i :: 0 <= i < |order| ==> !(order[i] in processed && processed[order[i]].scrollType == t)
    ensures LastAmount(order, processed, valuators, t).Some? ==>
      exists i :: 0 <= i < |order| && order[i] in processed && processed[order[i]].scrollType == t
        && LastAmount(order, processed, valuators, t) == Some(IntToDouble(ValueAt(valuators, order[i])))
        && forall j :: i < j < |order| ==> !(order[j] in processed && processed[order[j]].scrollType == t)
  {
    LastAmountNone(order, processed, valuators, t);
    LastAmountSome(order, processed, valuators, t);
  }

  lemma {:induction false} LastAmountNone(order: seq<int>, processed: map<int, ScrollInfo>, valuators: map<int, int>,
                                          t: ScrollType)
    ensures LastAmount(order, processed, valuators, t).None? <==>
      forall i :: 0 <= i < |order| ==> !(order[i] in processed && processed[order[i]].scrollType == t)
  {
    if order != [] {
      var prefix := order[..|order| - 1];
      LastAmountNone(prefix, processed, valuators, t);
      assert forall i :: 0 <= i < |prefix| ==> prefix[i] == order[i];
    }
  }

  lemma {:induction false} LastAmountSome(order: seq<int>, processed: map<int, ScrollInfo>, valuators: map<int, int>,
                                          t: ScrollType)
    ensures LastAmount(order, processed, valuators, t).Some? ==>
      exists i :: 0 <= i < |order| && order[i] in processed && processed[order[i]].scrollType == t
        && LastAmount(order, processed, valuators, t) == Some(IntToDouble(ValueAt(valuators, order[i])))
        && forall j :: i < j < |order| ==> !(order[j] in processed && processed[order[j]].scrollType == t)
  {
    if order != [] {
      var n := |order| - 1;
      var prefix := order[..n];
      var k := order[n];
      if k in processed && processed[k].scrollType == t {
        assert LastAmount(order, processed, valuators, t) == Some(IntToDouble(ValueAt(valuators, order[n])));
      } else if LastAmount(prefix, processed, valuators, t).Some? {
        LastAmountSome(prefix, processed, valuators, t);
        var i :| 0 <= i < |prefix| && prefix[i] in processed && processed[prefix[i]].scrollType == t
          && LastAmount(prefix, processed, valuators, t) == Some(IntToDouble(ValueAt(valuators, prefix[i])))
          && forall j :: i < j < |prefix| ==> !(prefix[j] in processed && processed[prefix[j]].scrollType == t);
        assert LastAmount(order, processed, valuators, t) == LastAmount(prefix, processed, valuators, t);
        assert order[i] == prefix[i];
        forall j | i < j < |order|
          ensures !(order[j] in processed && processed[order[j]].scrollType == t)
        {
          if j < n {
            assert order[j] == prefix[j];
          }
        }
      }
    }
  }

  /** Every processed valuator is either horizontal or vertical, so a scroll that is recorded has an amount. */
  lemma ScrollHasAmount(order: seq<int>, processed: map<int, ScrollInfo>, valuators: map<int, int>)
    requires order != [] && order[|order| - 1] in processed
    ensures LastAmount(order, processed, valuators, ScrollVertical).Some?
      || LastAmount(order, processed, valuators, ScrollHorizontal).Some?
  {
  }

  /** `order` visits each key of the set once: the iteration order of an unordered map. */
  ghost predicate Lists(order: seq<int>, keys: set<int>)
  {
    (forall k :: k in order <==> k in keys)
    && forall i, j :: 0 <= i < j < |order| ==> order[i] != order[j]
  }

  /** `order` visits the processed valuators, each once. */
  ghost predicate Visits(order: seq<int>, inner: map<int, ScrollInfo>, keys: seq<nat>)
  {
    (forall k :: k in order <==> k in inner && k in keys)
    && forall i, j :: 0 <= i < j < |order| ==> order[i] != order[j]
  }

  /** The event's valuator keys. */
  function KeysOf(raw: RawEvent): seq<nat>
    requires WellFormed(raw)
  {
    SetIndices(raw.mask, raw.maskLen * 8)
  }

  /** The valuator keys come in ascending order, each once. */
  lemma KeysAscending(raw: RawEvent)
    requires WellFormed(raw)
    ensures StrictlyAscending(KeysOf(raw))
  {
    SetIndicesCorrect(raw.mask, raw.maskLen * 8);
  }

  /*
   * What each handler records, as a function of the registry, the pointer
   * id the handler queries, the server's replies, the event and the clock's
   * previous time: no entry, or one.
   */

  /** `KeyEvent`: one key entry for a registered device. */
  function KeyRecords(devices: map<int, DeviceType>, idToName: map<int, string>, pointerId: int, x: XServer,
                      raw: RawEvent, timestamp: Schema.Timestamp, previous: Option<int>): seq<Entry>
    requires devices.Keys == idToName.Keys
  {
    if raw.sourceid !in devices then []
    else
      [Recorded(kKey,
        Common(IntervalOf(previous, raw.time), timestamp, devices[raw.sourceid], x.queryPointer(pointerId),
               WindowFieldsOf(x), idToName[raw.sourceid]),
        KeyExtraOf(x, raw, x.queryPointer(pointerId)))]
  }

  /**
   * `ButtonEvent`: one click for a registered device whose event is not
   * pointer-emulated and whose button is not a wheel; `name` is the button's
   * registered name.
   */
  function ClickRecords(devices: map<int, DeviceType>, idToName: map<int, string>, pointerId: int, x: XServer,
                        raw: RawEvent, timestamp: Schema.Timestamp, previous: Option<int>, action: ButtonAction,
                        name: string): seq<Entry>
    requires devices.Keys == idToName.Keys
  {
    if raw.sourceid !in devices || Flagged(raw, XIPointerEmulated) || IsWheel(name) then []
    else
      [Recorded(kMouseClick,
        Common(IntervalOf(previous, raw.time), timestamp, devices[raw.sourceid], x.queryPointer(pointerId),
               WindowFieldsOf(x), idToName[raw.sourceid]),
        ClickExtra(raw.detail, name, action))]
  }

  /**
   * `ButtonEvent`: the click records of a button whose name is registered,
   * or the failure of reading the name of one that is not.
   */
  function ButtonOutcome(buttonMap: map<int, map<int, string>>, devices: map<int, DeviceType>, idToName: map<int, string>,
                         pointerId: int, x: XServer, raw: RawEvent, timestamp: Schema.Timestamp, previous: Option<int>,
                         action: ButtonAction): Result<seq<Entry>, XError>
    requires devices.Keys == idToName.Keys
  {
    if raw.sourceid in buttonMap && raw.detail in buttonMap[raw.sourceid] then
      Ok(ClickRecords(devices, idToName, pointerId, x, raw, timestamp, previous, action, buttonMap[raw.sourceid][raw.detail]))
    else Err(OutOfRange)
  }

  /**
   * `MotionEvent`: one mouse move for a registered device whose event is not
   * pointer-emulated and carries the device's x or y valuator.
   */
  function MoveRecords(devices: map<int, DeviceType>, idToName: map<int, string>, pointerId: int, x: XServer,
                       raw: RawEvent, timestamp: Schema.Timestamp, previous: Option<int>,
                       valuatorX: map<int, Option<int>>, valuatorY: map<int, Option<int>>): seq<Entry>
    requires devices.Keys == idToName.Keys && WellFormed(raw)
  {
    if raw.sourceid !in devices || Flagged(raw, XIPointerEmulated)
       || !Tracks(KeysOf(raw), AxisValue(valuatorX, raw.sourceid), AxisValue(valuatorY, raw.sourceid)) then []
    else
      [Recorded(kMouseMove,
        Common(IntervalOf(previous, raw.time), timestamp, devices[raw.sourceid], x.queryPointer(pointerId),
               WindowFieldsOf(x), idToName[raw.sourceid]),
        MoveExtra)]
  }

  /**
   * `ScrollEvent`: one scroll for a registered device with scroll classes,
   * whose event is not pointer-emulated and carries one of those classes'
   * valuators; each direction holds the value of the last valuator of that
   * direction in `order`, read as the pointer-and-key `GetValuators` reads.
   */
  function ScrollRecords(devices: map<int, DeviceType>, idToName: map<int, string>, pointerId: int, x: XServer,
                         raw: RawEvent, timestamp: Schema.Timestamp, previous: Option<int>,
                         scrollMap: map<int, map<int, ScrollInfo>>, order: seq<int>): seq<Entry>
    requires devices.Keys == idToName.Keys && WellFormed(raw)
  {
    var valuators := BumpedValuators(KeysOf(raw), FirstValue(raw));
    if raw.sourceid !in devices || raw.sourceid !in scrollMap || Flagged(raw, XIPointerEmulated)
       || Processed(scrollMap[raw.sourceid], valuators) == map[] then []
    else
      var processed := Processed(scrollMap[raw.sourceid], valuators);
      [Recorded(kMouseScroll,
        Common(IntervalOf(previous, raw.time), timestamp, devices[raw.sourceid], x.queryPointer(pointerId),
               WindowFieldsOf(x), idToName[raw.sourceid]),
        ScrollExtra(LastAmount(order, processed, valuators, ScrollVertical),
                    LastAmount(order, processed, valuators, ScrollHorizontal)))]
  }

  /** The key builder's own setters, in the order `KeyEvent` calls them after the interval. */
  method SetKeyFields(builder: Key, pointer: PointerState, device: DeviceType, timestamp: Schema.Timestamp,
                      action: ButtonAction, button: int, character: string, name: string)
    modifies builder`positionX, builder`positionY, builder`device, builder`timestamp
    modifies builder`action, builder`button, builder`character, builder`name
    ensures builder.positionX == Some(pointer.rootX) && builder.positionY == Some(pointer.rootY)
    ensures builder.device == Some(device) && builder.timestamp == Some(timestamp)
    ensures builder.action == Some(action) && builder.button == Some(button)
    ensures builder.character == Some(character) && builder.name == Some(name)
  {
    builder.PositionX(pointer.rootX);
    builder.PositionY(pointer.rootY);
    builder.Device(device);
    builder.Timestamp(timestamp);
    builder.Action(action);
    builder.Button(button);
    builder.Character(character);
    builder.Name(name);
  }

  /**
   * The rest of `KeyEvent` once the interval is set: the key's own fields,
   * the calls every handler makes, then `Build`; `c` and `extra` are the
   * key event the chain describes.
   */
  method FinishKey(builder: Key, ghost c: Common, ghost extra: Extra, xs: EventSwitch, pointer: PointerState,
                   raw: RawEvent, x: XServer, timestamp: Schema.Timestamp, action: ButtonAction,
                   character: string, name: string, data: Data)
    requires xs.Valid() && xs.HasDevice(raw.sourceid) && c.timestamp == timestamp
    requires builder.interval == c.interval && EventSwitch.UndecoratedKey(builder)
    requires c.device == xs.devices[raw.sourceid] && c.pointer == pointer && c.window == WindowFieldsOf(x)
    requires c.deviceName == xs.idToName[raw.sourceid]
    requires extra == KeyExtra(raw.detail, name, action, character)
    modifies builder, data
    ensures data.entries == old(data.entries) + [Recorded(kKey, c, extra)]
  {
    SetKeyFields(builder, pointer, xs.devices[raw.sourceid], timestamp, action, raw.detail, character, name);
    var r := xs.DecorateKey(builder, pointer, raw, x);
    assert r.Ok?;
    RecordKey(builder, c, extra, data);
  }

  /** The scroll builder's fields after the amounts, in the order `ScrollEvent` sets them. */
  method SetScrollFields(builder: MouseScroll, interval: Option<int>, timestamp: Schema.Timestamp, device: DeviceType,
                         pointer: PointerState)
    modifies builder`interval, builder`timestamp, builder`device, builder`positionX, builder`positionY
    ensures builder.interval == interval && builder.timestamp == Some(timestamp) && builder.device == Some(device)
    ensures builder.positionX == Some(pointer.rootX) && builder.positionY == Some(pointer.rootY)
  {
    builder.Interval(interval);
    builder.Timestamp(timestamp);
    builder.Device(device);
    builder.PositionX(pointer.rootX);
    builder.PositionY(pointer.rootY);
  }

  /**
   * The rest of `ScrollEvent` once the amounts are set and the interval is
   * known: the common fields, the calls every handler makes, then `Build`.
   */
  method FinishScroll(builder: MouseScroll, ghost c: Common, ghost extra: Extra, xs: EventSwitch, pointer: PointerState,
                      raw: RawEvent, x: XServer, interval: Option<int>, timestamp: Schema.Timestamp, data: Data)
    requires xs.Valid() && xs.HasDevice(raw.sourceid) && c.timestamp == timestamp
    requires extra.ScrollExtra? && builder.vertical == extra.vertical && builder.horizontal == extra.horizontal
    requires EventSwitch.UndecoratedScroll(builder) && c.interval == interval
    requires c.device == xs.devices[raw.sourceid] && c.pointer == pointer && c.window == WindowFieldsOf(x)
    requires c.deviceName == xs.idToName[raw.sourceid]
    modifies builder, data
    ensures data.entries == old(data.entries) + [Recorded(kMouseScroll, c, extra)]
  {
    SetScrollFields(builder, interval, timestamp, xs.devices[raw.sourceid], pointer);
    var r := xs.DecorateScroll(builder, pointer, raw, x);
    assert r.Ok?;
    RecordScroll(builder, c, extra, data);
  }

  /** `MotionEvent` ignores events of unknown devices and pointer-emulated events. */
  predicate MotionDropped(devices: map<int, DeviceType>, raw: RawEvent)
  {
    raw.sourceid !in devices || Flagged(raw, XIPointerEmulated)
  }

  /**
   * The event as `ScrollEvent` sees it after `MotionEvent`: when the motion
   * handler read the valuators, the shared first value has been advanced
   * once per valuator.
   */
  function MotionAfter(devices: map<int, DeviceType>, raw: RawEvent): (r: RawEvent)
    requires WellFormed(raw)
    ensures WellFormed(r) && r.sourceid == raw.sourceid && KeysOf(r) == KeysOf(raw)
  {
    if MotionDropped(devices, raw) then raw else AfterBump(raw)
  }

  /** The clock's last time after a handler: advanced to the event's time exactly when it recorded something. */
  function ClockAfter(previous: Option<int>, recorded: seq<Entry>, time: int): Option<int>
  {
    if recorded == [] then previous else Some(time)
  }

  /** The event types the pointer-and-key handler takes. */
  predicate Handled(eventType: int)
  {
    eventType == XI_RawMotion || eventType == XI_RawButtonPress || eventType == XI_RawButtonRelease
    || eventType == XI_RawKeyPress || eventType == XI_RawKeyRelease
  }

  /**
   * A scroll is recorded, as a single entry, exactly when the device is
   * registered and has scroll classes, the event is not pointer-emulated and
   * one of the event's valuators is a scroll class of the device.
   */
  lemma ScrollRecordedIff(devices: map<int, DeviceType>, idToName: map<int, string>, pointerId: int, x: XServer,
                          raw: RawEvent, timestamp: Schema.Timestamp, previous: Option<int>,
                          scrollMap: map<int, map<int, ScrollInfo>>, order: seq<int>)
    requires devices.Keys == idToName.Keys && WellFormed(raw)
    ensures var r := ScrollRecords(devices, idToName, pointerId, x, raw, timestamp, previous, scrollMap, order);
      |r| <= 1
      && (r != [] <==>
            (raw.sourceid in devices && raw.sourceid in scrollMap && !Flagged(raw, XIPointerEmulated)
             && exists j :: 0 <= j < |KeysOf(raw)| && KeysOf(raw)[j] in scrollMap[raw.sourceid]))
  {
    var keys := KeysOf(raw);
    KeysAscending(raw);
    BumpedValuatorsAt(keys, FirstValue(raw));
    if raw.sourceid in scrollMap {
      var processed := Processed(scrollMap[raw.sourceid], BumpedValuators(keys, FirstValue(raw)));
      if exists j :: 0 <= j < |keys| && keys[j] in scrollMap[raw.sourceid] {
        var j :| 0 <= j < |keys| && keys[j] in scrollMap[raw.sourceid];
        assert keys[j] in processed;
      } else {
        assert processed.Keys == {};
      }
    }
  }

  /**
   * A scroll records an amount in one direction exactly when some valuator
   * of the event is a scroll class of that direction.
   */
  lemma ScrollAmountIff(inner: map<int, ScrollInfo>, keys: seq<nat>, first: int, order: seq<int>, t: ScrollType)
    requires StrictlyAscending(keys) && Visits(order, inner, keys)
    ensures var valuators := BumpedValuators(keys, first);
      LastAmount(order, Processed(inner, valuators), valuators, t).Some?
      <==> exists j :: 0 <= j < |keys| && keys[j] in inner && inner[keys[j]].scrollType == t
  {
    var valuators := BumpedValuators(keys, first);
    var processed := Processed(inner, valuators);
    BumpedValuatorsAt(keys, first);
    LastAmountIsLast(order, processed, valuators, t);
    if exists j :: 0 <= j < |keys| && keys[j] in inner && inner[keys[j]].scrollType == t {
      var j :| 0 <= j < |keys| && keys[j] in inner && inner[keys[j]].scrollType == t;
      var i :| 0 <= i < |order| && order[i] == keys[j];
      assert order[i] in processed;
    }
  }

  /**
   * The amount a scroll records in one direction is the event's first value
   * plus the position among the event's valuators of the last valuator of
   * that direction visited; not that valuator's own value, since
   * `(*values)++` advances the first value instead of the pointer.
   */
  lemma ScrollAmountValue(inner: map<int, ScrollInfo>, keys: seq<nat>, first: int, order: seq<int>, t: ScrollType)
    requires StrictlyAscending(keys)
    ensures var valuators := BumpedValuators(keys, first);
      var amount := LastAmount(order, Processed(inner, valuators), valuators, t);
      amount.Some? ==> exists j :: 0 <= j < |keys| && keys[j] in inner && inner[keys[j]].scrollType == t
                                   && amount == Some(IntToDouble(first + j))
  {
    var valuators := BumpedValuators(keys, first);
    var processed := Processed(inner, valuators);
    var amount := LastAmount(order, processed, valuators, t);
    if amount.Some? {
      LastAmountSome(order, processed, valuators, t);
      var i :| 0 <= i < |order| && order[i] in processed && processed[order[i]].scrollType == t
        && amount == Some(IntToDouble(ValueAt(valuators, order[i])));
      var k := order[i];
      assert k in inner && k in valuators && inner[k].scrollType == t;
      assert exists j :: 0 <= j < |keys| && keys[j] == k && valuators[k] == first + j by {
        BumpedValuatorsAt(keys, first);
        assert k in set k | k in keys;
      }
      var j :| 0 <= j < |keys| && keys[j] == k && valuators[k] == first + j;
      assert ValueAt(valuators, k) == first + j;
    }
  }

  /** A scroll that processes some valuator has an amount in at least one direction. */
  lemma ScrollAmountPresent(inner: map<int, ScrollInfo>, keys: seq<nat>, first: int, order: seq<int>)
    requires StrictlyAscending(keys) && Visits(order, inner, keys)
    ensures var valuators := BumpedValuators(keys, first);
      var processed := Processed(inner, valuators);
      processed != map[] ==>
        LastAmount(order, processed, valuators, ScrollVertical).Some?
        || LastAmount(order, processed, valuators, ScrollHorizontal).Some?
  {
    var valuators := BumpedValuators(keys, first);
    var processed := Processed(inner, valuators);
    BumpedValuatorsAt(keys, first);
    if order == [] {
      assert processed.Keys == {};
    } else {
      var k := order[|order| - 1];
      assert k in order;
      assert k in valuators;
      ScrollHasAmount(order, processed, valuators);
    }
  }

  /**
   * A motion event with one valuator, number 0 and value 1, from a
   * registered device whose valuator 0 is a vertical scroll class: the
   * scroll that follows the motion reads 2, since the motion handler has
   * already advanced the shared first value once.
   */
  lemma OneValuatorScrollReadsAdvanced(devices: map<int, DeviceType>, raw: RawEvent)
    requires raw.mask == [1] && raw.maskLen == 1 && raw.values == [1]
    requires raw.sourceid in devices && !Flagged(raw, XIPointerEmulated)
    ensures WellFormed(raw) && KeysOf(raw) == [0]
    ensures var after := MotionAfter(devices, raw);
      var valuators := BumpedValuators(KeysOf(after), FirstValue(after));
      var inner := map[0 := ScrollInfo(0, ScrollVertical)];
      LastAmount([0], Processed(inner, valuators), valuators, ScrollVertical) == Some(IntToDouble(2))
      && LastAmount([0], Processed(inner, valuators), valuators, ScrollHorizontal) == None
  {
    assert SetIndices(raw.mask, 8) == [0] by {
      assert SetIndices(raw.mask, 1) == [0];
      assert SetIndices(raw.mask, 2) == [0];
      assert SetIndices(raw.mask, 3) == [0];
      assert SetIndices(raw.mask, 4) == [0];
      assert SetIndices(raw.mask, 5) == [0];
      assert SetIndices(raw.mask, 6) == [0];
      assert SetIndices(raw.mask, 7) == [0];
    }
  }

  /**
   * When a motion handler records a move for an event, the scroll the same
   * event records next comes zero time units after it.
   */
  lemma ScrollAfterMoveIsImmediate(devices: map<int, DeviceType>, idToName: map<int, string>, pointerId: int,
                                   x: XServer, raw: RawEvent, timestamp: Schema.Timestamp, previous: Option<int>,
                                   moves: seq<Entry>, scrollMap: map<int, map<int, ScrollInfo>>, order: seq<int>)
    requires devices.Keys == idToName.Keys && WellFormed(raw) && moves != []
    ensures var r := ScrollRecords(devices, idToName, pointerId, x, MotionAfter(devices, raw), timestamp,
                                   ClockAfter(previous, moves, raw.time), scrollMap, order);
      r != [] ==> ParseInt(r[0].data[0]) == Some(0)
  {
    var after := MotionAfter(devices, raw);
    var r := ScrollRecords(devices, idToName, pointerId, x, after, timestamp, Some(raw.time), scrollMap, order);
    if r != [] {
      var valuators := BumpedValuators(KeysOf(after), FirstValue(after));
      var c := Common(IntervalOf(Some(raw.time), after.time), timestamp, devices[after.sourceid],
                      x.queryPointer(pointerId), WindowFieldsOf(x), idToName[after.sourceid]);
      var processed := Processed(scrollMap[after.sourceid], valuators);
      RecordedLayout(kMouseScroll, c, ScrollExtra(LastAmount(order, processed, valuators, ScrollVertical),
                                                  LastAmount(order, processed, valuators, ScrollHorizontal)));
      FromIntReadsBack(Some(0));
    }
  }

  /**
   * The pointer-and-key handler's own state: per device, the scroll classes
   * by valuator number and the valuators carrying the x and y axes (an
   * entry may hold no valuator, as `operator[]` leaves it), and the pointer
   * it queries for key and scroll events.
   */
  class EventSwitchPointerKey {
    var scrollMap: map<int, map<int, ScrollInfo>>
    var valuatorX: map<int, Option<int>>
    var valuatorY: map<int, Option<int>>
    var pointerId: int

    constructor()
      ensures scrollMap == map[] && valuatorX == map[] && valuatorY == map[] && pointerId == 0
    {
      scrollMap := map[];
      valuatorX := map[];
      valuatorY := map[];
      pointerId := 0;
    }

    /**
     * `RefreshDevices`: refreshes the shared registry, adopts a pointer id
     * when given, stores the device's scroll classes by number and records
     * the last valuator labelled with each axis.
     */
    method RefreshDevices(deviceId: int, pointer: Option<int>, device: DeviceType, name: string,
                          info: XIDeviceInfo, xs: EventSwitch, x: XServer)
      requires xs.Valid() && MappingsFit(x)
      modifies this, xs
      ensures xs.Valid()
      ensures xs.pointerId == (if pointer.Some? then pointer.value else old(xs.pointerId))
      ensures xs.devices == TryEmplace(old(xs.devices), deviceId, device)
      ensures xs.idToName == TryEmplace(old(xs.idToName), deviceId, name)
      ensures xs.buttonMap == RefreshedButtonMap(old(xs.buttonMap), info, x)
      ensures pointerId == (if pointer.Some? then pointer.value else old(pointerId))
      ensures scrollMap == ScrollMapAfter(old(scrollMap), deviceId, ScrollInfos(info.classes))
      ensures valuatorX == AxisMapAfter(old(valuatorX), deviceId, LastAxis(ValuatorInfos(info.classes), x.atomName, XAxis))
      ensures valuatorY == AxisMapAfter(old(valuatorY), deviceId, LastAxis(ValuatorInfos(info.classes), x.atomName, YAxis))
    {
      xs.RefreshDevices(deviceId, pointer, device, name, info, x);
      if pointer.Some? {
        pointerId := pointer.value;
      }
      var scrollInfos, valuatorInfos := SplitClasses(info.classes);
      StoreScrollInfos(deviceId, scrollInfos);
      StoreAxes(deviceId, valuatorInfos, x.atomName);
    }

    /** The first loop of `RefreshDevices`: the scroll and valuator classes, in order, null entries skipped. */
    static method SplitClasses(classes: seq<ClassInfo>) returns (scrollInfos: seq<ScrollInfo>, valuatorInfos: seq<ValuatorInfo>)
      ensures scrollInfos == ScrollInfos(classes) && valuatorInfos == ValuatorInfos(classes)
    {
      scrollInfos := [];
      valuatorInfos := [];
      for i := 0 to |classes|
        invariant scrollInfos == ScrollInfos(classes[..i])
        invariant valuatorInfos == ValuatorInfos(classes[..i])
      {
        assert classes[..i + 1][..i] == classes[..i];
        var c := classes[i];
        if c.ScrollClass? {
          scrollInfos := scrollInfos + [ScrollInfo(c.number, c.scrollType)];
        } else if c.ValuatorClass? {
          valuatorInfos := valuatorInfos + [ValuatorInfo(c.number, c.labelAtom)];
        }
      }
      assert classes[..|classes|] == classes;
    }

    /** `scroll_map_[id][number] = info` for each scroll class in turn. */
    method StoreScrollInfos(deviceId: int, scrollInfos: seq<ScrollInfo>)
      modifies this`scrollMap
      ensures scrollMap == ScrollMapAfter(old(scrollMap), deviceId, scrollInfos)
    {
      for j := 0 to |scrollInfos|
        invariant scrollMap == ScrollMapAfter(old(scrollMap), deviceId, scrollInfos[..j])
      {
        assert scrollInfos[..j + 1][..j] == scrollInfos[..j];
        var inner := if deviceId in scrollMap then scrollMap[deviceId] else map[];
        scrollMap := scrollMap[deviceId := inner[scrollInfos[j].number := scrollInfos[j]]];
      }
      assert scrollInfos[..|scrollInfos|] == scrollInfos;
    }

    /** `valuator_x_[id]` or `valuator_y_[id] = number` for each valuator whose label names an axis. */
    method StoreAxes(deviceId: int, valuatorInfos: seq<ValuatorInfo>, atomName: int -> Option<string>)
      modifies this`valuatorX, this`valuatorY
      ensures valuatorX == AxisMapAfter(old(valuatorX), deviceId, LastAxis(valuatorInfos, atomName, XAxis))
      ensures valuatorY == AxisMapAfter(old(valuatorY), deviceId, LastAxis(valuatorInfos, atomName, YAxis))
    {
      for j := 0 to |valuatorInfos|
        invariant valuatorX == AxisMapAfter(old(valuatorX), deviceId, LastAxis(valuatorInfos[..j], atomName, XAxis))
        invariant valuatorY == AxisMapAfter(old(valuatorY), deviceId, LastAxis(valuatorInfos[..j], atomName, YAxis))
      {
        assert valuatorInfos[..j + 1][..j] == valuatorInfos[..j];
        var axisName := atomName(valuatorInfos[j].labelAtom);
        if axisName.Some? {
          if axisName.value == AXIS_LABEL_PROP_ABS_X || axisName.value == AXIS_LABEL_PROP_REL_X {
            valuatorX := valuatorX[deviceId := Some(valuatorInfos[j].number)];
          } else if axisName.value == AXIS_LABEL_PROP_ABS_Y || axisName.value == AXIS_LABEL_PROP_REL_Y {
            valuatorY := valuatorY[deviceId := Some(valuatorInfos[j].number)];
          }
        }
      }
      assert valuatorInfos[..|valuatorInfos|] == valuatorInfos;
    }

    /**
     * `KeyEvent`: a key event of a registered device is recorded with the
     * pointer state of this handler's pointer, the key action and the
     * character and keysym the lookup gives; an unknown device is ignored
     * and the clock is not read.
     */
    method KeyEvent(raw: RawEvent, timestamp: Schema.Timestamp, data: Data, xs: EventSwitch, x: XServer,
                    clock: IntervalTracker)
      requires xs.Valid()
      modifies data, clock
      ensures data.entries == old(data.entries)
        + KeyRecords(xs.devices, xs.idToName, pointerId, x, raw, timestamp, old(clock.previous))
      ensures clock.previous == (if xs.HasDevice(raw.sourceid) then Some(raw.time) else old(clock.previous))
      ensures clock.previous == (if data.entries == old(data.entries) then old(clock.previous) else Some(raw.time))
    {
      if !xs.HasDevice(raw.sourceid) {
        return;
      }
      var pointer := x.queryPointer(pointerId);
      var (character, keySym) := LookupCharacter(raw.evtype, x.lookup(raw, pointer), NoSymbol);
      var action := kRelease;
      if raw.evtype != XI_KeyRelease {
        action := if Flagged(raw, XIKeyRepeat) then kRepeat else kPress;
      }
      var name := KeySymToString(x.keysymName, keySym);

      var builder := new Key();
      var interval := clock.GetInterval(raw.time);
      builder.Interval(interval);
      FinishKey(builder,
                Common(interval, timestamp, xs.devices[raw.sourceid], pointer, WindowFieldsOf(x), xs.idToName[raw.sourceid]),
                KeyExtraOf(x, raw, pointer), xs, pointer, raw, x, timestamp, action, character, name, data);
    }

    /** The click `ButtonEvent` hands to `AddButtonEvent` once the button's name is known to exist. */
    static method EmitClick(raw: RawEvent, timestamp: Schema.Timestamp, data: Data, action: ButtonAction,
                            xs: EventSwitch, x: XServer, clock: IntervalTracker)
      requires xs.Valid() && xs.HasDevice(raw.sourceid) && xs.GetButtonName(raw.sourceid, raw.detail).Ok?
      requires !Flagged(raw, XIPointerEmulated) && !IsWheel(xs.GetButtonName(raw.sourceid, raw.detail).value)
      modifies xs`buttonMap, data, clock
      ensures xs.buttonMap == old(xs.buttonMap) && clock.previous == Some(raw.time)
      ensures data.entries == old(data.entries) + ClickRecords(xs.devices, xs.idToName, xs.pointerId, x, raw, timestamp,
        old(clock.previous), action, xs.buttonMap[raw.sourceid][raw.detail])
      ensures ClickRecords(xs.devices, xs.idToName, xs.pointerId, x, raw, timestamp,
        old(clock.previous), action, xs.buttonMap[raw.sourceid][raw.detail]) != []
    {
      WithDefaultNameReads(xs.buttonMap, raw.sourceid, raw.detail);
      var added := xs.AddButtonEvent(raw, timestamp, data, action, raw.detail, x, clock);
      assert added.Ok?;
    }

    /**
     * `ButtonEvent`: the button's name is read with `at` before anything
     * else, so an unknown device or button fails; otherwise a click is
     * recorded unless the device is unknown, the event is pointer-emulated
     * or the button is a wheel. The names are not changed: the click reads
     * a name that exists.
     */
    static method ButtonEvent(raw: RawEvent, timestamp: Schema.Timestamp, data: Data, action: ButtonAction,
                              xs: EventSwitch, x: XServer, clock: IntervalTracker)
      returns (r: Result<(), XError>)
      requires xs.Valid()
      modifies xs`buttonMap, data, clock
      ensures xs.buttonMap == old(xs.buttonMap)
      ensures var outcome := ButtonOutcome(xs.buttonMap, xs.devices, xs.idToName, xs.pointerId, x, raw, timestamp,
                                           old(clock.previous), action);
        && r.Ok? == outcome.Ok?
        && data.entries == old(data.entries) + (if outcome.Ok? then outcome.value else [])
        && clock.previous == (if outcome.Ok? && outcome.value != [] then Some(raw.time) else old(clock.previous))
      ensures clock.previous == (if data.entries == old(data.entries) then old(clock.previous) else Some(raw.time))
    {
      var button := xs.GetButtonName(raw.sourceid, raw.detail);
      if button.Err? {
        return Err(OutOfRange);
      }
      if !xs.HasDevice(raw.sourceid) || Flagged(raw, XIPointerEmulated) || IsWheel(button.value) {
        return Ok(());
      }
      EmitClick(raw, timestamp, data, action, xs, x, clock);
      r := Ok(());
    }

    /**
     * `processed_valuators`: the device's scroll classes whose valuator the
     * event carries, visited in `classOrder`, the order of the unordered map
     * of scroll classes.
     */
    static method ProcessValuators(inner: map<int, ScrollInfo>, valuators: map<int, int>, classOrder: seq<int>)
      returns (processed: map<int, ScrollInfo>)
      requires Lists(classOrder, inner.Keys)
      ensures processed == Processed(inner, valuators)
    {
      processed := map[];
      for i := 0 to |classOrder|
        invariant processed.Keys == (set k | k in classOrder[..i]) * valuators.Keys
        invariant forall k :: k in processed ==> k in inner && processed[k] == inner[k]
      {
        var v := classOrder[i];
        if v in valuators {
          processed := TryEmplace(processed, v, inner[v]);
        }
        assert classOrder[..i + 1] == classOrder[..i] + [v];
      }
      assert classOrder[..|classOrder|] == classOrder;
      forall k
        ensures k in processed <==> k in Processed(inner, valuators)
      {
        assert k in classOrder <==> k in inner;
      }
    }

    /**
     * The second loop of `ScrollEvent`: each processed valuator in `order`
     * sets the amount of its direction, so the last one of each direction
     * wins and a direction without one stays unset.
     */
    static method ApplyAmounts(builder: MouseScroll, order: seq<int>, processed: map<int, ScrollInfo>,
                               valuators: map<int, int>)
      requires builder.vertical.None? && builder.horizontal.None?
      requires forall k :: k in order ==> k in processed && k in valuators
      modifies builder`vertical, builder`horizontal
      ensures builder.vertical == LastAmount(order, processed, valuators, ScrollVertical)
      ensures builder.horizontal == LastAmount(order, processed, valuators, ScrollHorizontal)
    {
      for i := 0 to |order|
        invariant builder.vertical == LastAmount(order[..i], processed, valuators, ScrollVertical)
        invariant builder.horizontal == LastAmount(order[..i], processed, valuators, ScrollHorizontal)
      {
        assert order[..i + 1][..i] == order[..i];
        var v := order[i];
        if processed[v].scrollType == ScrollHorizontal {
          builder.Horizontal(IntToDouble(valuators[v]));
        } else {
          builder.Vertical(IntToDouble(valuators[v]));
        }
      }
      assert order[..|order|] == order;
    }

    /**
     * The middle of `ScrollEvent`: reads the valuators, keeps the scroll
     * classes the event carries, and, unless there are none, sets the
     * amounts from them visited in `order`.
     */
    static method SetAmounts(builder: MouseScroll, raw: RawEvent, inner: map<int, ScrollInfo>, classOrder: seq<int>,
                             order: seq<int>)
      returns (processed: map<int, ScrollInfo>)
      requires WellFormed(raw) && Lists(classOrder, inner.Keys) && Visits(order, inner, KeysOf(raw))
      requires builder.vertical.None? && builder.horizontal.None?
      modifies builder`vertical, builder`horizontal
      ensures processed == Processed(inner, BumpedValuators(KeysOf(raw), FirstValue(raw)))
      ensures processed != map[] ==>
        builder.vertical == LastAmount(order, processed, BumpedValuators(KeysOf(raw), FirstValue(raw)), ScrollVertical)
        && builder.horizontal == LastAmount(order, processed, BumpedValuators(KeysOf(raw), FirstValue(raw)), ScrollHorizontal)
    {
      var keys, valuators, after := GetValuatorsBumped(raw);
      processed := ProcessValuators(inner, valuators, classOrder);
      if processed == map[] {
        return;
      }
      KeysAscending(raw);
      BumpedValuatorsAt(keys, FirstValue(raw));
      ApplyAmounts(builder, order, processed, valuators);
    }

    /**
     * `ScrollEvent`: a scroll of a registered device with scroll classes,
     * not pointer-emulated, is recorded when the event carries one of those
     * classes' valuators; `classOrder` and `order` are the orders in which
     * the unordered maps of the device's scroll classes and of the processed
     * valuators are visited.
     */
    method ScrollEvent(raw: RawEvent, timestamp: Schema.Timestamp, data: Data, xs: EventSwitch, x: XServer,
                       clock: IntervalTracker, classOrder: seq<int>, order: seq<int>)
      requires xs.Valid() && WellFormed(raw)
      requires raw.sourceid in scrollMap ==>
        Lists(classOrder, scrollMap[raw.sourceid].Keys) && Visits(order, scrollMap[raw.sourceid], KeysOf(raw))
      modifies data, clock
      ensures data.entries == old(data.entries)
        + ScrollRecords(xs.devices, xs.idToName, pointerId, x, raw, timestamp, old(clock.previous), scrollMap, order)
      ensures clock.previous == (if data.entries == old(data.entries) then old(clock.previous) else Some(raw.time))
      ensures unchanged(xs)
    {
      if !xs.HasDevice(raw.sourceid) || raw.sourceid !in scrollMap || Flagged(raw, XIPointerEmulated) {
        return;
      }
      var builder := new MouseScroll();
      var processed := SetAmounts(builder, raw, scrollMap[raw.sourceid], classOrder, order);
      if processed == map[] {
        return;
      }
      var pointer := x.queryPointer(pointerId);
      var interval := clock.GetInterval(raw.time);
      FinishScroll(builder,
                   Common(interval, timestamp, xs.devices[raw.sourceid], pointer, WindowFieldsOf(x), xs.idToName[raw.sourceid]),
                   ScrollExtra(builder.vertical, builder.horizontal), xs, pointer, raw, x, interval, timestamp, data);
    }

    /**
     * The loop of `MotionEvent` up to its `break`: looks for the first
     * valuator that is the device's x or y valuator. Comparing with
     * `operator[]` leaves an empty x entry for the device once a valuator is
     * looked at, and an empty y entry once a valuator is not the x one.
     */
    method FindAxisValuator(deviceId: int, keys: seq<nat>) returns (found: bool)
      modifies this`valuatorX, this`valuatorY
      ensures found <==> Tracks(keys, AxisValue(old(valuatorX), deviceId), AxisValue(old(valuatorY), deviceId))
      ensures valuatorX == (if |keys| > 0 then TryEmplace(old(valuatorX), deviceId, None) else old(valuatorX))
      ensures valuatorY == (if |keys| > 0 && Some(keys[0] as int) != AxisValue(old(valuatorX), deviceId)
        then TryEmplace(old(valuatorY), deviceId, None) else old(valuatorY))
    {
      found := false;
      var j := 0;
      while j < |keys|
        invariant 0 <= j <= |keys|
        invariant valuatorX == (if j > 0 then TryEmplace(old(valuatorX), deviceId, None) else old(valuatorX))
        invariant valuatorY == (if j > 0 then TryEmplace(old(valuatorY), deviceId, None) else old(valuatorY))
        invariant forall i :: 0 <= i < j ==>
          (Some(keys[i] as int) != AxisValue(old(valuatorX), deviceId)
           && Some(keys[i] as int) != AxisValue(old(valuatorY), deviceId))
      {
        valuatorX := TryEmplace(valuatorX, deviceId, None);
        var matches := Some(keys[j] as int) == valuatorX[deviceId];
        if !matches {
          valuatorY := TryEmplace(valuatorY, deviceId, None);
          matches := Some(keys[j] as int) == valuatorY[deviceId];
        }
        if matches {
          found := true;
          break;
        }
        j := j + 1;
      }
    }

    /**
     * `MotionEvent`: unless the event is dropped, the valuators are read
     * (advancing the shared first value), and a move is recorded when one
     * of them is the device's x or y valuator.
     */
    method MotionEvent(raw: RawEvent, timestamp: Schema.Timestamp, data: Data, xs: EventSwitch, x: XServer,
                       clock: IntervalTracker)
      returns (after: RawEvent)
      requires xs.Valid() && WellFormed(raw)
      modifies this`valuatorX, this`valuatorY, data, clock
      ensures after == MotionAfter(xs.devices, raw)
      ensures valuatorX == (if !MotionDropped(xs.devices, raw) && |KeysOf(raw)| > 0
        then TryEmplace(old(valuatorX), raw.sourceid, None) else old(valuatorX))
      ensures valuatorY == (if !MotionDropped(xs.devices, raw) && |KeysOf(raw)| > 0
                               && Some(KeysOf(raw)[0] as int) != AxisValue(old(valuatorX), raw.sourceid)
        then TryEmplace(old(valuatorY), raw.sourceid, None) else old(valuatorY))
      ensures data.entries == old(data.entries) + MoveRecords(xs.devices, xs.idToName, xs.pointerId, x, raw, timestamp,
        old(clock.previous), old(valuatorX), old(valuatorY))
      ensures clock.previous == (if data.entries == old(data.entries) then old(clock.previous) else Some(raw.time))
      ensures AtMostDefaulted(valuatorX, old(valuatorX), raw.sourceid)
      ensures AtMostDefaulted(valuatorY, old(valuatorY), raw.sourceid)
      ensures unchanged(xs)
    {
      if !xs.HasDevice(raw.sourceid) || Flagged(raw, XIPointerEmulated) {
        return raw;
      }
      var keys, valuators;
      keys, valuators, after := GetValuatorsBumped(raw);
      var found := FindAxisValuator(raw.sourceid, keys);
      if found {
        var moved := xs.AddMotionEvent(raw, timestamp, data, x, clock);
      }
    }

    /**
     * `XI_RawMotion`: `MotionEvent`, then `ScrollEvent` on the event as the
     * motion handler left it.
     */
    method MotionThenScroll(raw: RawEvent, timestamp: Schema.Timestamp, data: Data, xs: EventSwitch, x: XServer,
                            clock: IntervalTracker, classOrder: seq<int>, order: seq<int>)
      requires xs.Valid() && WellFormed(raw)
      requires raw.sourceid in scrollMap ==>
        Lists(classOrder, scrollMap[raw.sourceid].Keys) && Visits(order, scrollMap[raw.sourceid], KeysOf(raw))
      modifies this`valuatorX, this`valuatorY, data, clock
      ensures var moves := MoveRecords(xs.devices, xs.idToName, xs.pointerId, x, raw, timestamp, old(clock.previous),
                                       old(valuatorX), old(valuatorY));
        data.entries == old(data.entries)
          + (moves + ScrollRecords(xs.devices, xs.idToName, pointerId, x, MotionAfter(xs.devices, raw), timestamp,
                                   ClockAfter(old(clock.previous), moves, raw.time), scrollMap, order))
      ensures clock.previous == (if data.entries == old(data.entries) then old(clock.previous) else Some(raw.time))
      ensures AtMostDefaulted(valuatorX, old(valuatorX), raw.sourceid)
      ensures AtMostDefaulted(valuatorY, old(valuatorY), raw.sourceid)
      ensures unchanged(xs)
    {
      ghost var moves := MoveRecords(xs.devices, xs.idToName, xs.pointerId, x, raw, timestamp, clock.previous,
                                     valuatorX, valuatorY);
      var after := MotionEvent(raw, timestamp, data, xs, x, clock);
      assert clock.previous == ClockAfter(old(clock.previous), moves, raw.time) by {
        assert moves == [] <==> data.entries == old(data.entries);
      }
      ghost var touchedX, touchedY := valuatorX, valuatorY;
      ScrollEvent(after, timestamp, data, xs, x, clock, classOrder, order);
      assert valuatorX == touchedX && valuatorY == touchedY;
      forall a: seq<Entry>, b: seq<Entry>, c: seq<Entry>
        ensures a + b + c == a + (b + c)
      {
      }
    }

    /**
     * `SwitchOnEvent`: raw motion is handled as a move and then a scroll,
     * raw button presses and releases as clicks, raw key presses and
     * releases as keys; every other type is declined and changes nothing.
     * The clock advances exactly when an entry is recorded.
     */
    method SwitchOnEvent(event: InputEvent, data: Data, xs: EventSwitch, x: XServer, clock: IntervalTracker,
                         classOrder: seq<int>, order: seq<int>)
      returns (r: Result<bool, XError>)
      requires xs.Valid() && WellFormed(event.raw)
      requires event.raw.sourceid in scrollMap ==>
        Lists(classOrder, scrollMap[event.raw.sourceid].Keys) && Visits(order, scrollMap[event.raw.sourceid], KeysOf(event.raw))
      modifies this`valuatorX, this`valuatorY, xs`buttonMap, data, clock
      ensures r == Ok(false) <==> !Handled(event.eventType)
      ensures !Handled(event.eventType) ==>
        valuatorX == old(valuatorX) && valuatorY == old(valuatorY) && data.entries == old(data.entries)
      ensures AtMostDefaulted(valuatorX, old(valuatorX), event.raw.sourceid)
        && AtMostDefaulted(valuatorY, old(valuatorY), event.raw.sourceid)
      ensures xs.buttonMap == old(xs.buttonMap)
      ensures clock.previous == (if data.entries == old(data.entries) then old(clock.previous) else Some(event.raw.time))
      ensures event.eventType == XI_RawKeyPress || event.eventType == XI_RawKeyRelease ==>
        r == Ok(true) && data.entries == old(data.entries) + KeyRecords(xs.devices, xs.idToName, pointerId, x, event.raw,
                                                       event.timestamp, old(clock.previous))
      ensures event.eventType == XI_RawButtonPress || event.eventType == XI_RawButtonRelease ==>
        var outcome := ButtonOutcome(xs.buttonMap, xs.devices, xs.idToName, xs.pointerId, x, event.raw, event.timestamp,
                                     old(clock.previous), if event.eventType == XI_RawButtonPress then kPress else kRelease);
        r.Ok? == outcome.Ok? && data.entries == old(data.entries) + (if outcome.Ok? then outcome.value else [])
      ensures event.eventType == XI_RawMotion ==>
        var moves := MoveRecords(xs.devices, xs.idToName, xs.pointerId, x, event.raw, event.timestamp, old(clock.previous),
                                 old(valuatorX), old(valuatorY));
        r == Ok(true) && data.entries == old(data.entries)
          + (moves + ScrollRecords(xs.devices, xs.idToName, pointerId, x, MotionAfter(xs.devices, event.raw),
                                   event.timestamp, ClockAfter(old(clock.previous), moves, event.raw.time), scrollMap,
                                   order))
    {
      var raw := event.raw;
      if event.eventType == XI_RawMotion {
        MotionThenScroll(raw, event.timestamp, data, xs, x, clock, classOrder, order);
        return Ok(true);
      } else if event.eventType == XI_RawButtonPress || event.eventType == XI_RawButtonRelease {
        var action := if event.eventType == XI_RawButtonPress then kPress else kRelease;
        var clicked := ButtonEvent(raw, event.timestamp, data, action, xs, x, clock);
        if clicked.Err? {
          return Err(clicked.error);
        }
        return Ok(true);
      } else if event.eventType == XI_RawKeyPress || event.eventType == XI_RawKeyRelease {
        KeyEvent(raw, event.timestamp, data, xs, x, clock);
        return Ok(true);
      }
      return Ok(false);
    }
  }
}

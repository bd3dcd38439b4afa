/**
 * The X11 handler for touch events: a touch begins with a move and a
 * press, moves with a move, and ends with a move and a release, all
 * recorded through the shared event switch for registered devices only.
 * The handler keeps no state of its own, so its operations are methods of
 * the module.
 */
module XTouch {
  import opened Wrappers
  import opened Text
  import opened Schema
  import opened Entries
  import opened XTypes
  import opened Intervals
  import opened XEventSwitch

  /** The event types the touch handler takes. */
  predicate IsTouch(eventType: int)
  {
    eventType == XI_RawTouchBegin || eventType == XI_RawTouchUpdate || eventType == XI_RawTouchEnd
  }

  /** The fields the shared switch records for an event of a registered device. */
  function TouchCommon(devices: map<int, DeviceType>, idToName: map<int, string>, pointerId: int, x: XServer,
                       raw: RawEvent, timestamp: Schema.Timestamp, previous: Option<int>): Common
    requires devices.Keys == idToName.Keys && raw.sourceid in devices
  {
    Common(IntervalOf(previous, raw.time), timestamp, devices[raw.sourceid], x.queryPointer(pointerId),
           WindowFieldsOf(x), idToName[raw.sourceid])
  }

  /** `TouchMotion`: one mouse move for a registered device, nothing otherwise. */
  function MotionRecords(devices: map<int, DeviceType>, idToName: map<int, string>, pointerId: int, x: XServer,
                         raw: RawEvent, timestamp: Schema.Timestamp, previous: Option<int>): seq<Entry>
    requires devices.Keys == idToName.Keys
  {
    if raw.sourceid !in devices then []
    else [Recorded(kMouseMove, TouchCommon(devices, idToName, pointerId, x, raw, timestamp, previous), MoveExtra)]
  }

  /**
   * `TouchButton`: one click of the button the event's detail names, for a
   * registered device; its name is the one registered for that button, or
   * empty.
   */
  function ButtonRecords(buttonMap: map<int, map<int, string>>, devices: map<int, DeviceType>,
                         idToName: map<int, string>, pointerId: int, x: XServer, raw: RawEvent,
                         timestamp: Schema.Timestamp, previous: Option<int>, action: ButtonAction): seq<Entry>
    requires devices.Keys == idToName.Keys
  {
    if raw.sourceid !in devices then []
    else [Recorded(kMouseClick, TouchCommon(devices, idToName, pointerId, x, raw, timestamp, previous),
                   ClickExtra(raw.detail, DefaultName(buttonMap, raw.sourceid, raw.detail), action))]
  }

  /**
   * What `SwitchOnEvent` records for an event: a move for every touch type,
   * followed by a press for a begin and a release for an end; the click is
   * timed against the clock as the move left it.
   */
  function TouchRecords(buttonMap: map<int, map<int, string>>, devices: map<int, DeviceType>,
                        idToName: map<int, string>, pointerId: int, x: XServer, event: InputEvent,
                        previous: Option<int>): seq<Entry>
    requires devices.Keys == idToName.Keys
  {
    var raw := event.raw;
    var moves := MotionRecords(devices, idToName, pointerId, x, raw, event.timestamp, previous);
    var after := if raw.sourceid in devices then Some(raw.time) else previous;
    if event.eventType == XI_RawTouchBegin then
      moves + ButtonRecords(buttonMap, devices, idToName, pointerId, x, raw, event.timestamp, after, kPress)
    else if event.eventType == XI_RawTouchUpdate then moves
    else if event.eventType == XI_RawTouchEnd then
      moves + ButtonRecords(buttonMap, devices, idToName, pointerId, x, raw, event.timestamp, after, kRelease)
    else []
  }

  /** Begin and end read the button's name through `operator[]`, which leaves an empty name behind. */
  function ButtonMapAfter(buttonMap: map<int, map<int, string>>, devices: map<int, DeviceType>, event: InputEvent)
    : map<int, map<int, string>>
  {
    if (event.eventType == XI_RawTouchBegin || event.eventType == XI_RawTouchEnd) && event.raw.sourceid in devices
    then WithDefaultName(buttonMap, event.raw.sourceid, event.raw.detail)
    else buttonMap
  }

  /** `TouchMotion`. */
  method TouchMotion(raw: RawEvent, timestamp: Schema.Timestamp, data: Data, xs: EventSwitch, x: XServer,
                     clock: IntervalTracker)
    requires xs.Valid()
    modifies data, clock
    ensures data.entries == old(data.entries)
      + MotionRecords(xs.devices, xs.idToName, xs.pointerId, x, raw, timestamp, old(clock.previous))
    ensures clock.previous == (if xs.HasDevice(raw.sourceid) then Some(raw.time) else old(clock.previous))
  {
    if xs.HasDevice(raw.sourceid) {
      var added := xs.AddMotionEvent(raw, timestamp, data, x, clock);
    }
  }

  /** `TouchButton`: the button is the event's detail. */
  method TouchButton(raw: RawEvent, timestamp: Schema.Timestamp, data: Data, action: ButtonAction, xs: EventSwitch,
                     x: XServer, clock: IntervalTracker)
    requires xs.Valid()
    modifies xs`buttonMap, data, clock
    ensures data.entries == old(data.entries)
      + ButtonRecords(old(xs.buttonMap), xs.devices, xs.idToName, xs.pointerId, x, raw, timestamp, old(clock.previous),
                      action)
    ensures xs.buttonMap == (if xs.HasDevice(raw.sourceid) then WithDefaultName(old(xs.buttonMap), raw.sourceid, raw.detail)
                             else old(xs.buttonMap))
    ensures clock.previous == (if xs.HasDevice(raw.sourceid) then Some(raw.time) else old(clock.previous))
  {
    if xs.HasDevice(raw.sourceid) {
      var added := xs.AddButtonEvent(raw, timestamp, data, action, raw.detail, x, clock);
    }
  }

  /** A begin or an end: the move, then the click with the given action. */
  method MoveThenClick(raw: RawEvent, timestamp: Schema.Timestamp, data: Data, action: ButtonAction, xs: EventSwitch,
                       x: XServer, clock: IntervalTracker)
    requires xs.Valid()
    modifies xs`buttonMap, data, clock
    ensures data.entries == old(data.entries)
      + (MotionRecords(xs.devices, xs.idToName, xs.pointerId, x, raw, timestamp, old(clock.previous))
         + ButtonRecords(old(xs.buttonMap), xs.devices, xs.idToName, xs.pointerId, x, raw, timestamp,
                         if xs.HasDevice(raw.sourceid) then Some(raw.time) else old(clock.previous), action))
    ensures xs.buttonMap == (if xs.HasDevice(raw.sourceid) then WithDefaultName(old(xs.buttonMap), raw.sourceid, raw.detail)
                             else old(xs.buttonMap))
    ensures clock.previous == (if xs.HasDevice(raw.sourceid) then Some(raw.time) else old(clock.previous))
  {
    TouchMotion(raw, timestamp, data, xs, x, clock);
    TouchButton(raw, timestamp, data, action, xs, x, clock);
    forall a: seq<Entry>, b: seq<Entry>, c: seq<Entry>
      ensures a + b + c == a + (b + c)
    {
    }
  }

  /**
   * `SwitchOnEvent`: takes the three touch types, records their moves and
   * clicks, and reports whether it took the event.
   */
  method SwitchOnEvent(event: InputEvent, data: Data, xs: EventSwitch, x: XServer, clock: IntervalTracker)
    returns (handled: bool)
    requires xs.Valid()
    modifies xs`buttonMap, data, clock
    ensures handled == IsTouch(event.eventType)
    ensures data.entries == old(data.entries)
      + TouchRecords(old(xs.buttonMap), xs.devices, xs.idToName, xs.pointerId, x, event, old(clock.previous))
    ensures xs.buttonMap == ButtonMapAfter(old(xs.buttonMap), xs.devices, event)
    ensures clock.previous ==
      (if IsTouch(event.eventType) && xs.HasDevice(event.raw.sourceid) then Some(event.raw.time) else old(clock.previous))
  {
    handled := true;
    if event.eventType == XI_RawTouchBegin {
      MoveThenClick(event.raw, event.timestamp, data, kPress, xs, x, clock);
    } else if event.eventType == XI_RawTouchUpdate {
      TouchMotion(event.raw, event.timestamp, data, xs, x, clock);
    } else if event.eventType == XI_RawTouchEnd {
      MoveThenClick(event.raw, event.timestamp, data, kRelease, xs, x, clock);
    } else {
      handled := false;
    }
  }

  /**
   * For a registered device a touch records its move first; a begin then
   * records a press and an end a release of the event's detail, timed
   * against the move. An update records only the move, and an unregistered
   * device or another event type records nothing.
   */
  lemma TouchShape(buttonMap: map<int, map<int, string>>, devices: map<int, DeviceType>, idToName: map<int, string>,
                   pointerId: int, x: XServer, event: InputEvent, previous: Option<int>)
    requires devices.Keys == idToName.Keys
    ensures var r := TouchRecords(buttonMap, devices, idToName, pointerId, x, event, previous);
      |r| == (if !IsTouch(event.eventType) || event.raw.sourceid !in devices then 0
              else if event.eventType == XI_RawTouchUpdate then 1 else 2)
      && (|r| >= 1 ==> r[0].entryType == kMouseMove)
      && (|r| == 2 ==>
            r[1] == ButtonRecords(buttonMap, devices, idToName, pointerId, x, event.raw, event.timestamp,
                                  Some(event.raw.time),
                                  if event.eventType == XI_RawTouchBegin then kPress else kRelease)[0])
  {
  }

  /**
   * The click a touch records right after its move comes zero time units
   * after it, and holds the event's detail as the button and the action's
   * number: 0 for a press, 1 for a release.
   */
  lemma TouchClickFields(buttonMap: map<int, map<int, string>>, devices: map<int, DeviceType>,
                         idToName: map<int, string>, pointerId: int, x: XServer, raw: RawEvent,
                         timestamp: Schema.Timestamp, action: ButtonAction)
    requires devices.Keys == idToName.Keys && raw.sourceid in devices
    ensures var r := ButtonRecords(buttonMap, devices, idToName, pointerId, x, raw, timestamp, Some(raw.time), action);
      |r| == 1 && r[0].entryType == kMouseClick
      && ParseInt(r[0].data[0]) == Some(0)
      && ParseInt(r[0].data[12]) == Some(raw.detail)
      && ParseInt(r[0].data[14]) == Some(action.Underlying() as int)
  {
    var c := TouchCommon(devices, idToName, pointerId, x, raw, timestamp, Some(raw.time));
    var extra := ClickExtra(raw.detail, DefaultName(buttonMap, raw.sourceid, raw.detail), action);
    RecordedLayout(kMouseClick, c, extra);
    RecordedAction(kMouseClick, c, extra);
    RecordedClickButton(c, extra);
    FromIntReadsBack(Some(0));
  }
}

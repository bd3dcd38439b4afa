/**
 * The device-refresh switch: three registries (device types, device names
 * and event-type names by number) filled with `emplace`, so that the first
 * registration of a number is kept; lookups that find nothing fail as `at`
 * does. It takes no events and builds no rows.
 */
module XDeviceRefresh {
  import opened Wrappers
  import opened Text
  import opened Schema
  import opened Entries
  import opened Maps
  import opened XTypes

  /** `formatValue`: zero gives the empty text, anything else its decimal text. */
  function FormatValue(value: int): (r: string)
  {
    if value != 0 then IntToString(value) else ""
  }

  /** The empty text stands for zero and only for zero; any other value reads back from its text. */
  lemma FormatValueReadsBack(value: int)
    ensures FormatValue(value) == "" <==> value == 0
    ensures value != 0 ==> ParseInt(FormatValue(value)) == Some(value)
  {
    if value != 0 {
      ParseIntOfIntToString(value);
      assert IntToString(value) != "";
    }
  }

  /** A lookup in a registry, failing as `at` does for a missing number. */
  function At<V>(m: map<int, V>, key: int): (r: Result<V, XError>)
    ensures r.Ok? <==> key in m
    ensures r.Ok? ==> r.value == m[key]
  {
    if key in m then Ok(m[key]) else Err(OutOfRange)
  }

  class DeviceRefresh {
    var devices: map<int, DeviceType>
    var idToName: map<int, string>
    var evtypeToName: map<int, string>

    constructor()
      ensures devices == map[] && idToName == map[] && evtypeToName == map[]
    {
      devices := map[];
      idToName := map[];
      evtypeToName := map[];
    }

    /** `containsDevice`. */
    predicate ContainsDevice(id: int)
      reads this`devices
    {
      id in devices
    }

    /** `refreshDevices`: the type and the name are registered unless the id already has them. */
    method RefreshDevices(id: int, device: DeviceType, name: string, info: XIDeviceInfo)
      modifies this`devices, this`idToName
      ensures devices == TryEmplace(old(devices), id, device)
      ensures idToName == TryEmplace(old(idToName), id, name)
      ensures ContainsDevice(id)
    {
      devices := TryEmplace(devices, id, device);
      idToName := TryEmplace(idToName, id, name);
    }

    /** `getDevice`. */
    method GetDevice(id: int) returns (r: Result<DeviceType, XError>)
      ensures r == At(devices, id)
      ensures r.Ok? <==> ContainsDevice(id)
    {
      if id !in devices {
        return Err(OutOfRange);
      }
      return Ok(devices[id]);
    }

    /** `getNameFromId`. */
    method GetNameFromId(id: int) returns (r: Result<string, XError>)
      ensures r == At(idToName, id)
    {
      if id !in idToName {
        return Err(OutOfRange);
      }
      return Ok(idToName[id]);
    }

    /** `getEvtypeName`. */
    method GetEvtypeName(evtype: int) returns (r: Result<string, XError>)
      ensures r == At(evtypeToName, evtype)
    {
      if evtype !in evtypeToName {
        return Err(OutOfRange);
      }
      return Ok(evtypeToName[evtype]);
    }

    /** `setDevice`: registers the type unless the id already has one. */
    method SetDevice(id: int, device: DeviceType)
      modifies this`devices
      ensures devices == TryEmplace(old(devices), id, device)
    {
      devices := TryEmplace(devices, id, device);
    }

    /** `setNameFromId`: registers the name unless the id already has one. */
    method SetNameFromId(id: int, name: string)
      modifies this`idToName
      ensures idToName == TryEmplace(old(idToName), id, name)
    {
      idToName := TryEmplace(idToName, id, name);
    }

    /** `setEvtypeName`: registers the name unless the event type already has one. */
    method SetEvtypeName(evtype: int, name: string)
      modifies this`evtypeToName
      ensures evtypeToName == TryEmplace(old(evtypeToName), evtype, name)
    {
      evtypeToName := TryEmplace(evtypeToName, evtype, name);
    }

    /** `switchOnEvent`: takes no event and records nothing. */
    method SwitchOnEvent(event: InputEvent, data: Data) returns (taken: bool)
      ensures !taken
    {
      taken := false;
    }

    /** `createSystemData`: a fresh, empty row set. */
    method CreateSystemData(event: InputEvent, name: string) returns (data: Data)
      ensures fresh(data) && data.entries == []
    {
      data := new Data();
    }
  }

  /**
   * Registering the same id twice keeps the first registration: the second
   * type and name are ignored, and the getters return the first ones.
   */
  lemma FirstRegistrationWins(devices: map<int, DeviceType>, id: int, first: DeviceType, second: DeviceType)
    ensures var once := TryEmplace(devices, id, first);
      TryEmplace(once, id, second) == once
      && (id !in devices ==> At(TryEmplace(once, id, second), id) == Ok(first))
  {
  }
}

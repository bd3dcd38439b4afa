/**
 * The Linux transformer's device classification: every enabled slave or
 * floating device is sorted into the keyboard, touchscreen, touchpad or
 * mouse registry by its class list, each registry keeping the first name
 * inserted for an id. Registering a mouse leaves the device loop, so the
 * devices listed after the first mouse are never examined.
 */
module LinuxTransformer {
  import opened Wrappers
  import opened Maps
  import opened XTypes

  datatype DeviceKind = Keyboard | Touchscreen | Touchpad | Mouse

  /** The four registries, id to name. */
  datatype Registry = Registry(
    mouseIds: map<int, string>, keyboardIds: map<int, string>,
    touchscreenIds: map<int, string>, touchpadIds: map<int, string>)

  /** Only enabled slave pointers, slave keyboards and floating slaves are classified. */
  predicate Considered(d: XIDeviceInfo)
  {
    d.enabled && (d.use == XISlavePointer || d.use == XISlaveKeyboard || d.use == XIFloatingSlave)
  }

  /** A class that settles the device's kind on its own and ends the class scan. */
  function Decisive(c: ClassInfo): Option<DeviceKind>
  {
    match c
    case KeyClass => Some(Keyboard)
    case TouchClass(DirectTouch) => Some(Touchscreen)
    case TouchClass(DependentTouch) => Some(Touchpad)
    case _ => None
  }

  /** The kind the first decisive class gives, if any class is decisive. */
  function ClassKind(classes: seq<ClassInfo>): (r: Option<DeviceKind>)
  {
    if classes == [] then None
    else if Decisive(classes[0]).Some? then Decisive(classes[0])
    else ClassKind(classes[1..])
  }

  /** The first decisive class decides: every class before it is not decisive. */
  lemma {:induction false} ClassKindFirst(classes: seq<ClassInfo>)
    ensures ClassKind(classes).Some? <==> exists j :: 0 <= j < |classes| && Decisive(classes[j]).Some?
    ensures ClassKind(classes).Some? ==>
      (exists j :: 0 <= j < |classes| && Decisive(classes[j]) == ClassKind(classes)
         && forall i :: 0 <= i < j ==> Decisive(classes[i]).None?)
  {
    if classes != [] {
      ClassKindFirst(classes[1..]);
      if Decisive(classes[0]).None? {
        if ClassKind(classes).Some? {
          var j :| 0 <= j < |classes[1..]| && Decisive(classes[1..][j]) == ClassKind(classes[1..])
                   && forall i :: 0 <= i < j ==> Decisive(classes[1..][i]).None?;
          assert Decisive(classes[j + 1]) == ClassKind(classes);
          forall i | 0 <= i < j + 1
            ensures Decisive(classes[i]).None?
          {
            if i > 0 {
              assert classes[i] == classes[1..][i - 1];
            }
          }
        }
        if exists j :: 0 <= j < |classes| && Decisive(classes[j]).Some? {
          var j :| 0 <= j < |classes| && Decisive(classes[j]).Some?;
          assert classes[1..][j - 1] == classes[j];
        }
      } else {
        assert Decisive(classes[0]) == ClassKind(classes);
      }
    }
  }

  predicate HasButton(classes: seq<ClassInfo>) { exists j :: 0 <= j < |classes| && classes[j].ButtonClass? }
  predicate HasValuator(classes: seq<ClassInfo>) { exists j :: 0 <= j < |classes| && classes[j].ValuatorClass? }
  predicate HasScroll(classes: seq<ClassInfo>) { exists j :: 0 <= j < |classes| && classes[j].ScrollClass? }

  /**
   * The registry a device goes into: the decisive class's kind, else a mouse
   * when it has button, valuator and scroll classes, else none.
   */
  function KindOf(d: XIDeviceInfo): Option<DeviceKind>
  {
    if !Considered(d) then None
    else if ClassKind(d.classes).Some? then ClassKind(d.classes)
    else if HasButton(d.classes) && HasValuator(d.classes) && HasScroll(d.classes) then Some(Mouse)
    else None
  }

  /** A device is a mouse exactly when it is considered, has no decisive class, and has all three pointer classes. */
  lemma MouseIff(d: XIDeviceInfo)
    ensures KindOf(d) == Some(Mouse) <==>
      (Considered(d) && (forall j :: 0 <= j < |d.classes| ==> Decisive(d.classes[j]).None?)
       && HasButton(d.classes) && HasValuator(d.classes) && HasScroll(d.classes))
  {
    ClassKindFirst(d.classes);
  }

  /** `insert` into the registry of the device's kind; an id already there keeps its name. */
  function Register(r: Registry, d: XIDeviceInfo): Registry
  {
    match KindOf(d)
    case Some(Keyboard) => r.(keyboardIds := TryEmplace(r.keyboardIds, d.deviceid, d.name))
    case Some(Touchscreen) => r.(touchscreenIds := TryEmplace(r.touchscreenIds, d.deviceid, d.name))
    case Some(Touchpad) => r.(touchpadIds := TryEmplace(r.touchpadIds, d.deviceid, d.name))
    case Some(Mouse) => r.(mouseIds := TryEmplace(r.mouseIds, d.deviceid, d.name))
    case None => r
  }

  /** The devices registered one after the other. */
  function RegisterAll(r: Registry, infos: seq<XIDeviceInfo>): Registry
  {
    if infos == [] then r else Register(RegisterAll(r, infos[..|infos| - 1]), infos[|infos| - 1])
  }

  /** The position of the first mouse, or the length of the list when there is none. */
  function FirstMouse(infos: seq<XIDeviceInfo>): (k: nat)
    ensures k <= |infos|
    ensures k < |infos| ==> KindOf(infos[k]) == Some(Mouse)
    ensures forall i :: 0 <= i < k ==> KindOf(infos[i]) != Some(Mouse)
  {
    if infos == [] then 0
    else if KindOf(infos[0]) == Some(Mouse) then 0
    else 1 + FirstMouse(infos[1..])
  }

  /** The devices the loop examines: all of them up to and including the first mouse. */
  function Examined(infos: seq<XIDeviceInfo>): nat
  {
    if FirstMouse(infos) < |infos| then FirstMouse(infos) + 1 else |infos|
  }

  /** The ids in all four registries. */
  function Ids(r: Registry): set<int>
  {
    r.mouseIds.Keys + r.keyboardIds.Keys + r.touchscreenIds.Keys + r.touchpadIds.Keys
  }

  /** One registration adds at most the device's own id, and only when it has a kind. */
  lemma RegisterIds(r: Registry, d: XIDeviceInfo, id: int)
    ensures id in Ids(Register(r, d)) ==> id in Ids(r) || (d.deviceid == id && KindOf(d).Some?)
  {
  }

  /**
   * Registration only adds ids of registered devices: every id in the
   * registries afterwards was there before or belongs to a listed device
   * that has a kind.
   */
  lemma {:induction false} RegisterAllIds(r: Registry, infos: seq<XIDeviceInfo>, id: int)
    ensures id in Ids(RegisterAll(r, infos)) ==>
      id in Ids(r) || exists i :: 0 <= i < |infos| && infos[i].deviceid == id && KindOf(infos[i]).Some?
  {
    if infos != [] {
      var prefix := infos[..|infos| - 1];
      RegisterAllIds(r, prefix, id);
      RegisterIds(RegisterAll(r, prefix), infos[|infos| - 1], id);
      if id in Ids(RegisterAll(r, infos)) && id !in Ids(r) && id !in Ids(RegisterAll(r, prefix)) {
        assert infos[|infos| - 1].deviceid == id && KindOf(infos[|infos| - 1]).Some?;
      } else if id in Ids(RegisterAll(r, infos)) && id !in Ids(r) {
        var i :| 0 <= i < |prefix| && prefix[i].deviceid == id && KindOf(prefix[i]).Some?;
        assert infos[i] == prefix[i];
      }
    }
  }

  /**
   * A device listed after the first mouse is never registered: with empty
   * registries, its id ends up registered only if a device examined before
   * the break has the same id and a kind.
   */
  lemma AfterMouseIgnored(infos: seq<XIDeviceInfo>, id: int)
    ensures id in Ids(RegisterAll(Registry(map[], map[], map[], map[]), infos[..Examined(infos)])) ==>
      exists i :: 0 <= i < Examined(infos) && infos[i].deviceid == id && KindOf(infos[i]).Some?
  {
    var empty := Registry(map[], map[], map[], map[]);
    var seen := infos[..Examined(infos)];
    RegisterAllIds(empty, seen, id);
    if id in Ids(RegisterAll(empty, seen)) {
      assert id !in Ids(empty);
      var i :| 0 <= i < |seen| && seen[i].deviceid == id && KindOf(seen[i]).Some?;
      assert infos[i] == seen[i];
    }
  }

  class EventTransformerLinux {
    var mouseIds: map<int, string>
    var keyboardIds: map<int, string>
    var touchscreenIds: map<int, string>
    var touchpadIds: map<int, string>

    function Registries(): Registry
      reads this`mouseIds, this`keyboardIds, this`touchscreenIds, this`touchpadIds
    {
      Registry(mouseIds, keyboardIds, touchscreenIds, touchpadIds)
    }

    /** The constructor classifies the devices the server lists. */
    constructor(infos: seq<XIDeviceInfo>)
      ensures Registries() == RegisterAll(Registry(map[], map[], map[], map[]), infos[..Examined(infos)])
    {
      mouseIds := map[];
      keyboardIds := map[];
      touchscreenIds := map[];
      touchpadIds := map[];
      new;
      RefreshDeviceIds(infos);
    }

    /**
     * The class scan of one device: stops at the first decisive class with
     * its kind; otherwise scans every class and reports which pointer
     * classes it saw.
     */
    static method ScanClasses(classes: seq<ClassInfo>)
      returns (kind: Option<DeviceKind>, hasButton: bool, hasValuator: bool, hasScroll: bool)
      ensures kind == ClassKind(classes)
      ensures kind.None? ==>
        hasButton == HasButton(classes) && hasValuator == HasValuator(classes) && hasScroll == HasScroll(classes)
    {
      kind, hasButton, hasValuator, hasScroll := None, false, false, false;
      var j := 0;
      while j < |classes|
        invariant j <= |classes|
        invariant ClassKind(classes) == ClassKind(classes[j..])
        invariant hasButton <==> exists i :: 0 <= i < j && classes[i].ButtonClass?
        invariant hasValuator <==> exists i :: 0 <= i < j && classes[i].ValuatorClass?
        invariant hasScroll <==> exists i :: 0 <= i < j && classes[i].ScrollClass?
      {
        assert classes[j..][0] == classes[j];
        assert classes[j..][1..] == classes[j + 1..];
        var c := classes[j];
        if c.KeyClass? {
          kind := Some(Keyboard);
          return;
        } else if c.TouchClass? {
          if c.mode == DirectTouch {
            kind := Some(Touchscreen);
            return;
          } else if c.mode == DependentTouch {
            kind := Some(Touchpad);
            return;
          }
        } else if c.ButtonClass? {
          hasButton := true;
        } else if c.ValuatorClass? {
          hasValuator := true;
        } else if c.ScrollClass? {
          hasScroll := true;
        }
        j := j + 1;
      }
    }

    /** Whether and how the loop body classifies a device. */
    static method Classify(d: XIDeviceInfo) returns (kind: Option<DeviceKind>)
      ensures kind == KindOf(d)
    {
      kind := None;
      if d.enabled && (d.use == XISlavePointer || d.use == XISlaveKeyboard || d.use == XIFloatingSlave) {
        var hasButton, hasValuator, hasScroll;
        kind, hasButton, hasValuator, hasScroll := ScanClasses(d.classes);
        if kind.None? && hasButton && hasValuator && hasScroll {
          kind := Some(Mouse);
        }
      }
    }

    /** The `insert` into the registry of the device's kind. */
    method Insert(d: XIDeviceInfo, kind: Option<DeviceKind>)
      requires kind == KindOf(d)
      modifies this`mouseIds, this`keyboardIds, this`touchscreenIds, this`touchpadIds
      ensures Registries() == Register(old(Registries()), d)
    {
      if kind == Some(Keyboard) {
        keyboardIds := TryEmplace(keyboardIds, d.deviceid, d.name);
      } else if kind == Some(Touchscreen) {
        touchscreenIds := TryEmplace(touchscreenIds, d.deviceid, d.name);
      } else if kind == Some(Touchpad) {
        touchpadIds := TryEmplace(touchpadIds, d.deviceid, d.name);
      } else if kind == Some(Mouse) {
        mouseIds := TryEmplace(mouseIds, d.deviceid, d.name);
      }
    }

    /**
     * `refreshDeviceIds`: classifies the listed devices in order and stops
     * after registering the first mouse.
     */
    method RefreshDeviceIds(infos: seq<XIDeviceInfo>)
      modifies this`mouseIds, this`keyboardIds, this`touchscreenIds, this`touchpadIds
      ensures Registries() == RegisterAll(old(Registries()), infos[..Examined(infos)])
    {
      var i := 0;
      while i < |infos|
        invariant i <= FirstMouse(infos)
        invariant Registries() == RegisterAll(old(Registries()), infos[..i])
      {
        var d := infos[i];
        assert infos[..i + 1][..i] == infos[..i];
        var kind := Classify(d);
        Insert(d, kind);
        if kind == Some(Mouse) {
          return;
        }
        i := i + 1;
      }
      assert infos[..|infos|] == infos;
    }
  }
}

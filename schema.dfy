/**
 * The schema of stored events: the enumerations an event row refers to, their
 * names, and the formatters that turn optional field values into the text of
 * a row (an absent value is always the empty string).
 */
module Schema {
  import opened Wrappers
  import opened Text

  datatype DataType = kString | kInteger | kTimestamp | kInterval | kDouble

  datatype Relation = kOneToOne | kOneToMany | kManyToOne | kManyToMany

  /** Underlying values follow declaration order: press 0, release 1, repeat 2. */
  datatype ButtonAction = kPress | kRelease | kRepeat {
    function Underlying(): nat {
      match this
      case kPress => 0
      case kRelease => 1
      case kRepeat => 2
    }
  }

  /** Underlying values follow declaration order: mouse 0 … unknown 4. */
  datatype DeviceType = kMouse | kKeyboard | kTouchpad | kTouchscreen | kUnknown {
    function Underlying(): nat {
      match this
      case kMouse => 0
      case kKeyboard => 1
      case kTouchpad => 2
      case kTouchscreen => 3
      case kUnknown => 4
    }
  }

  /** The eight X core modifiers, in the order of the modifier mask bits. */
  datatype ModifierValue = kShift | kCapsLock | kControl | kAlt | kNumLock | kMod3 | kSuper | kMod5 {
    function Underlying(): nat {
      match this
      case kShift => 0
      case kCapsLock => 1
      case kControl => 2
      case kAlt => 3
      case kNumLock => 4
      case kMod3 => 5
      case kSuper => 6
      case kMod5 => 7
    }
  }

  datatype EntryType = kKey | kMouseClick | kMouseMove | kMouseScroll {
    function Underlying(): nat {
      match this
      case kKey => 0
      case kMouseClick => 1
      case kMouseMove => 2
      case kMouseScroll => 3
    }
  }

  /** A double as `std::to_string` renders it (fixed notation, six decimals). */
  datatype Double = Double(text: string)

  /** A timestamp as its ISO-8601 formatting renders it. */
  datatype Timestamp = Timestamp(text: string)

  /** The double nearest to an integer, as `std::to_string` prints it. */
  function IntToDouble(i: int): Double
  {
    Double(IntToString(i) + ".000000")
  }

  /** Reading an integer back from its double's text gives the integer. */
  lemma IntToDoubleReadsBack(i: int)
    ensures ParseInt(IntToDouble(i).text) == Some(i)
  {
    ParseIntIgnoresFraction(i);
  }

  lemma ParseIntIgnoresFraction(i: int)
    ensures ParseInt(IntToString(i) + ".000000") == Some(i)
  {
    ParseIntStopsAtNonDigit(i, ".000000");
  }

  /** `std::stoi` of an integer's text followed by a non-digit reads the integer back. */
  lemma ParseIntStopsAtNonDigit(i: int, rest: string)
    requires |rest| > 0 && !IsDigit(rest[0])
    ensures ParseInt(IntToString(i) + rest) == Some(i)
  {
    if i < 0 {
      var digits := NatToString(-i);
      assert IntToString(i) == "-" + digits;
      assert ("-" + digits) + rest == "-" + (digits + rest);
      ParseNegativeStopsAtNonDigit(-i, rest);
    } else {
      assert IntToString(i) == NatToString(i);
      ParseNaturalStopsAtNonDigit(i, rest);
    }
  }

  lemma ParseNaturalStopsAtNonDigit(n: nat, rest: string)
    requires |rest| > 0 && !IsDigit(rest[0])
    ensures ParseInt(NatToString(n) + rest) == Some(n)
  {
    var u := NatToString(n) + rest;
    assert u[0] == NatToString(n)[0];
    ParseDigitsStopsAtNonDigit(n, rest);
    ParseIntUnsigned(u);
  }

  lemma ParseNegativeStopsAtNonDigit(n: nat, rest: string)
    requires |rest| > 0 && !IsDigit(rest[0])
    ensures ParseInt("-" + (NatToString(n) + rest)) == Some(-(n as int))
  {
    var u := NatToString(n) + rest;
    assert u[0] == NatToString(n)[0];
    ParseDigitsStopsAtNonDigit(n, rest);
    ParseIntNegative(u);
  }

  lemma ParseDigitsStopsAtNonDigit(n: nat, rest: string)
    requires |rest| > 0 && !IsDigit(rest[0])
    ensures ParseDigits(NatToString(n) + rest) == Some(n)
  {
    var digits := NatToString(n);
    var u := digits + rest;
    DigitRunOfDigitsThenDot(digits, rest);
    DigitsValueOfNatToString(n);
    assert u[..|digits|] == digits;
  }

  lemma ParseIntUnsigned(u: string)
    requires |u| > 0 && IsDigit(u[0])
    ensures ParseInt(u) == ParseSigned(u)
  {
    DropSpaceNoSpace(u);
  }

  lemma ParseIntNegative(u: string)
    requires |u| > 0 && IsDigit(u[0])
    ensures ParseInt("-" + u) == ParseSigned("-" + u)
    ensures ParseSigned("-" + u) == if ParseDigits(u).Some? then Some(-ParseDigits(u).value) else None
  {
    var t := "-" + u;
    DropSpaceNoSpace(t);
    assert t[1..] == u;
  }

  lemma {:induction false} DigitRunOfDigitsThenDot(digits: string, rest: string)
    requires AllDigits(digits) && |rest| > 0 && !IsDigit(rest[0])
    ensures DigitRun(digits + rest) == |digits|
    decreases |digits|
  {
    if |digits| > 0 {
      assert (digits + rest)[1..] == digits[1..] + rest;
      DigitRunOfDigitsThenDot(digits[1..], rest);
    } else {
      assert digits + rest == rest;
    }
  }

  function GetType(t: DataType): (r: string)
    ensures r in {"String", "Integer", "Timestamp", "Interval", "Double"}
  {
    match t
    case kString => "String"
    case kInteger => "Integer"
    case kTimestamp => "Timestamp"
    case kInterval => "Interval"
    case kDouble => "Double"
  }

  function GetRelation(r: Relation): (name: string)
    ensures name in {"OneToOne", "OneToMany", "ManyToOne", "ManyToMany"}
  {
    match r
    case kOneToOne => "OneToOne"
    case kOneToMany => "OneToMany"
    case kManyToOne => "ManyToOne"
    case kManyToMany => "ManyToMany"
  }

  /** Distinct data types have distinct names. */
  lemma GetTypeInjective(a: DataType, b: DataType)
    ensures GetType(a) == GetType(b) <==> a == b
  {
  }

  lemma GetRelationInjective(a: Relation, b: Relation)
    ensures GetRelation(a) == GetRelation(b) <==> a == b
  {
  }

  /** `std::to_string(std::to_underlying(e))`: the decimal text of an underlying value. */
  function ToUnderlying(underlying: nat): string
  {
    NatToString(underlying)
  }

  /** The underlying text is a run of digits that reads back as the value. */
  lemma ToUnderlyingReadsBack(underlying: nat)
    ensures ParseInt(ToUnderlying(underlying)) == Some(underlying as int)
    ensures AllDigits(ToUnderlying(underlying)) && ToUnderlying(underlying) != ""
  {
    ParseIntOfIntToString(underlying);
  }

  function ToUnderlyingOptional(underlying: Option<nat>): (r: string)
    ensures underlying.None? ==> r == ""
  {
    if underlying.Some? then ToUnderlying(underlying.value) else ""
  }

  /** The optional underlying text is empty exactly when the value is absent, and reads back as the value. */
  lemma ToUnderlyingOptionalReadsBack(underlying: Option<nat>)
    ensures underlying.None? <==> ToUnderlyingOptional(underlying) == ""
    ensures underlying.Some? ==> ParseInt(ToUnderlyingOptional(underlying)) == Some(underlying.value as int)
  {
    if underlying.Some? {
      ToUnderlyingReadsBack(underlying.value);
    }
  }

  /** The underlying value of an optional device type, if there is one. */
  function DeviceUnderlying(device: Option<DeviceType>): Option<nat> {
    match device
    case None => None
    case Some(d) => Some(d.Underlying())
  }

  /** The underlying value of an optional button action, if there is one. */
  function ActionUnderlying(action: Option<ButtonAction>): Option<nat> {
    match action
    case None => None
    case Some(a) => Some(a.Underlying())
  }

  // `optionalToString` with each column's formatter: a present value's text, "" for an absent one.

  function FromString(value: Option<string>): (r: string)
    ensures value.None? ==> r == ""
    ensures value.Some? ==> r == value.value
  {
    if value.Some? then value.value else ""
  }

  function FromInt(value: Option<int>): (r: string)
    ensures value.None? ==> r == ""
  {
    if value.Some? then IntToString(value.value) else ""
  }

  /** Intervals are rendered as their count of microseconds. */
  function FromInterval(value: Option<int>): (r: string)
    ensures value.None? ==> r == ""
  {
    if value.Some? then IntToString(value.value) else ""
  }

  /** Both integer formatters give "" exactly for an absent value, and otherwise text that reads back as it. */
  lemma FromIntReadsBack(value: Option<int>)
    ensures value.None? <==> FromInt(value) == ""
    ensures value.None? <==> FromInterval(value) == ""
    ensures value.Some? ==> ParseInt(FromInt(value)) == Some(value.value)
    ensures value.Some? ==> ParseInt(FromInterval(value)) == Some(value.value)
  {
    ParseIntOfIntToString(value.GetOr(0));
  }

  function FromDouble(value: Option<Double>): (r: string)
    ensures value.None? ==> r == ""
    ensures value.Some? ==> r == value.value.text
  {
    if value.Some? then value.value.text else ""
  }

  function FromTimestamp(value: Option<Timestamp>): (r: string)
    ensures value.None? ==> r == ""
    ensures value.Some? ==> r == value.value.text
  {
    if value.Some? then value.value.text else ""
  }

  function FromButtonAction(action: Option<ButtonAction>): (r: string)
    ensures action.None? <==> r == ""
    ensures action.Some? ==> r in {"Press", "Release", "Repeat"}
  {
    if action.None? then ""
    else
      match action.value
      case kPress => "Press"
      case kRelease => "Release"
      case kRepeat => "Repeat"
  }

  function FromDevice(device: Option<DeviceType>): (r: string)
    ensures device.None? <==> r == ""
    ensures device.Some? ==> r in {"Mouse", "Keyboard", "Touchpad", "Touchscreen", "Unknown"}
  {
    if device.None? then ""
    else
      match device.value
      case kMouse => "Mouse"
      case kKeyboard => "Keyboard"
      case kTouchpad => "Touchpad"
      case kTouchscreen => "Touchscreen"
      case kUnknown => "Unknown"
  }

  function FromModifierValue(modifier: Option<ModifierValue>): (r: string)
    ensures modifier.None? <==> r == ""
    ensures modifier.Some? ==> r in {"Shift", "CapsLock", "Control", "Alt", "NumLock", "Mod3", "Super", "Mod5"}
  {
    if modifier.None? then ""
    else
      match modifier.value
      case kShift => "Shift"
      case kCapsLock => "CapsLock"
      case kControl => "Control"
      case kAlt => "Alt"
      case kNumLock => "NumLock"
      case kMod3 => "Mod3"
      case kSuper => "Super"
      case kMod5 => "Mod5"
  }

  function FromEntryType(entryType: Option<EntryType>): (r: string)
    ensures entryType.None? <==> r == ""
    ensures entryType.Some? ==> r in {"Key", "MouseClick", "MouseMove", "MouseScroll"}
  {
    if entryType.None? then ""
    else
      match entryType.value
      case kKey => "Key"
      case kMouseClick => "MouseClick"
      case kMouseMove => "MouseMove"
      case kMouseScroll => "MouseScroll"
  }

  /** Each enumeration's names are distinct, and distinct from the "" of an absent value. */
  lemma EnumNamesInjective()
    ensures forall a: Option<ButtonAction>, b: Option<ButtonAction> :: FromButtonAction(a) == FromButtonAction(b) ==> a == b
    ensures forall a: Option<DeviceType>, b: Option<DeviceType> :: FromDevice(a) == FromDevice(b) ==> a == b
    ensures forall a: Option<ModifierValue>, b: Option<ModifierValue> :: FromModifierValue(a) == FromModifierValue(b) ==> a == b
    ensures forall a: Option<EntryType>, b: Option<EntryType> :: FromEntryType(a) == FromEntryType(b) ==> a == b
  {
  }

  /** Why reading an underlying value back can fail. */
  datatype UnderlyingError =
    | InvalidArgument       // `std::stoi` found no digits
    | NoEnumerator(n: int)  // a number no enumerator has

  /**
   * `FromUnderlying`: "" is absent; otherwise the text is read with `stoi` and
   * cast to the enumeration. `ofUnderlying` names the enumerator of a value.
   */
  function FromUnderlying<E>(value: string, ofUnderlying: int -> Option<E>): (r: Result<Option<E>, UnderlyingError>)
    ensures value == "" ==> r == Ok(None)
    ensures value != "" && ParseInt(value).None? ==> r == Err(InvalidArgument)
    ensures r.Ok? && r.value.Some? ==> ParseInt(value).Some? && ofUnderlying(ParseInt(value).value) == r.value
    ensures r.Err? && r.error.NoEnumerator? ==>
      value != "" && ParseInt(value) == Some(r.error.n) && ofUnderlying(r.error.n).None?
  {
    if value == "" then Ok(None)
    else
      match ParseInt(value)
      case None => Err(InvalidArgument)
      case Some(n) =>
        match ofUnderlying(n)
        case None => Err(NoEnumerator(n))
        case Some(e) => Ok(Some(e))
  }

  function ButtonActionOf(n: int): (r: Option<ButtonAction>)
    ensures r.Some? ==> r.value.Underlying() == n
  {
    if n == 0 then Some(kPress) else if n == 1 then Some(kRelease) else if n == 2 then Some(kRepeat) else None
  }

  function DeviceTypeOf(n: int): (r: Option<DeviceType>)
    ensures r.Some? ==> r.value.Underlying() == n
  {
    if n == 0 then Some(kMouse) else if n == 1 then Some(kKeyboard) else if n == 2 then Some(kTouchpad)
    else if n == 3 then Some(kTouchscreen) else if n == 4 then Some(kUnknown) else None
  }

  function ModifierValueOf(n: int): (r: Option<ModifierValue>)
    ensures r.Some? ==> r.value.Underlying() == n
  {
    if n == 0 then Some(kShift) else if n == 1 then Some(kCapsLock) else if n == 2 then Some(kControl)
    else if n == 3 then Some(kAlt) else if n == 4 then Some(kNumLock) else if n == 5 then Some(kMod3)
    else if n == 6 then Some(kSuper) else if n == 7 then Some(kMod5) else None
  }

  function EntryTypeOf(n: int): (r: Option<EntryType>)
    ensures r.Some? ==> r.value.Underlying() == n
  {
    if n == 0 then Some(kKey) else if n == 1 then Some(kMouseClick) else if n == 2 then Some(kMouseMove)
    else if n == 3 then Some(kMouseScroll) else None
  }

  /** Reading back the underlying text of an action gives the action. */
  lemma ButtonActionRoundTrip(a: ButtonAction)
    ensures FromUnderlying(ToUnderlying(a.Underlying()), ButtonActionOf) == Ok(Some(a))
  {
    ToUnderlyingReadsBack(a.Underlying());
  }

  lemma DeviceTypeRoundTrip(d: DeviceType)
    ensures FromUnderlying(ToUnderlying(d.Underlying()), DeviceTypeOf) == Ok(Some(d))
  {
    ToUnderlyingReadsBack(d.Underlying());
  }

  lemma ModifierValueRoundTrip(m: ModifierValue)
    ensures FromUnderlying(ToUnderlying(m.Underlying()), ModifierValueOf) == Ok(Some(m))
  {
    ToUnderlyingReadsBack(m.Underlying());
  }

  lemma EntryTypeRoundTrip(e: EntryType)
    ensures FromUnderlying(ToUnderlying(e.Underlying()), EntryTypeOf) == Ok(Some(e))
  {
    ToUnderlyingReadsBack(e.Underlying());
  }
}

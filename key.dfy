/**
 * The key-event builder: setters record optional fields and modifiers, and
 * `Build` turns them into one `kKey` row appended to a `Data`.
 */
module KeyBuilder {
  import opened Wrappers
  import opened Text
  import opened Schema
  import opened Entries

  class Key {
    var interval: Option<int>
    var timestamp: Option<Schema.Timestamp>
    var device: Option<DeviceType>
    var positionX: Option<Schema.Double>
    var positionY: Option<Schema.Double>
    var action: Option<ButtonAction>
    var button: Option<int>
    var name: Option<string>
    var character: Option<string>
    var deviceName: Option<string>
    var focusWindowName: Option<string>
    var focusWindowPositionX: Option<Schema.Double>
    var focusWindowPositionY: Option<Schema.Double>
    var focusWindowWidth: Option<Schema.Double>
    var focusWindowHeight: Option<Schema.Double>
    var screen: Option<int>
    var modifiers: seq<string>

    constructor()
      ensures Unset()
    {
      interval := None;
      timestamp := None;
      device := None;
      positionX := None;
      positionY := None;
      action := None;
      button := None;
      name := None;
      character := None;
      deviceName := None;
      focusWindowName := None;
      focusWindowPositionX := None;
      focusWindowPositionY := None;
      focusWindowWidth := None;
      focusWindowHeight := None;
      screen := None;
      modifiers := [];
    }

    /** No setter has been called yet. */
    predicate Unset()
      reads this
    {
      interval.None? && timestamp.None? && device.None? && positionX.None? && positionY.None?
      && action.None? && button.None? && name.None? && character.None? && deviceName.None?
      && focusWindowName.None? && focusWindowPositionX.None? && focusWindowPositionY.None?
      && focusWindowWidth.None? && focusWindowHeight.None? && screen.None? && modifiers == []
    }

    /** The text stored in a column, looked up by column rather than by position. */
    function Column(field: Field): string
      reads this
    {
      match field
      case FInterval => FromInterval(interval)
      case FTimestamp => FromTimestamp(timestamp)
      case FDeviceType => ToUnderlyingOptional(DeviceUnderlying(device))
      case FPositionX => FromDouble(positionX)
      case FPositionY => FromDouble(positionY)
      case FButtonAction => ToUnderlyingOptional(ActionUnderlying(action))
      case FButtonId => FromInt(button)
      case FButtonName => FromString(name)
      case FCharacter => FromString(character)
      case FDeviceName => FromString(deviceName)
      case FFocusWindowName => FromString(focusWindowName)
      case FFocusWindowPositionX => FromDouble(focusWindowPositionX)
      case FFocusWindowPositionY => FromDouble(focusWindowPositionY)
      case FFocusWindowWidth => FromDouble(focusWindowWidth)
      case FFocusWindowHeight => FromDouble(focusWindowHeight)
      case FScreen => FromInt(screen)
      case _ => ""
    }

    /**
     * The row `Build` stores: the text of each column of `KeyColumns`, whose
     * names are `KeyFields`, in that order.
     */
    function Row(): (r: seq<string>)
      reads this
      ensures |r| == |KeyColumns| == KeyNFields
      ensures forall i :: 0 <= i < |r| ==> r[i] == Column(KeyColumns[i])
    {
      seq(|KeyColumns|, i reads this requires 0 <= i < |KeyColumns| => Column(KeyColumns[i]))
    }

    /** Both `Interval` overloads: a plain interval is passed as `Some`. */
    method Interval(value: Option<int>)
      modifies this`interval
      ensures interval == value
    {
      interval := value;
    }

    method Timestamp(value: Schema.Timestamp)
      modifies this`timestamp
      ensures timestamp == Some(value)
    {
      timestamp := Some(value);
    }

    method Device(value: DeviceType)
      modifies this`device
      ensures device == Some(value)
    {
      device := Some(value);
    }

    method PositionX(value: Schema.Double)
      modifies this`positionX
      ensures positionX == Some(value)
    {
      positionX := Some(value);
    }

    method PositionY(value: Schema.Double)
      modifies this`positionY
      ensures positionY == Some(value)
    {
      positionY := Some(value);
    }

    method Action(value: ButtonAction)
      modifies this`action
      ensures action == Some(value)
    {
      action := Some(value);
    }

    method Button(value: int)
      modifies this`button
      ensures button == Some(value)
    {
      button := Some(value);
    }

    method Name(value: string)
      modifies this`name
      ensures name == Some(value)
    {
      name := Some(value);
    }

    method Character(value: string)
      modifies this`character
      ensures character == Some(value)
    {
      character := Some(value);
    }

    method DeviceName(value: string)
      modifies this`deviceName
      ensures deviceName == Some(value)
    {
      deviceName := Some(value);
    }

    method FocusWindowName(value: string)
      modifies this`focusWindowName
      ensures focusWindowName == Some(value)
    {
      focusWindowName := Some(value);
    }

    method FocusWindowPositionX(value: Schema.Double)
      modifies this`focusWindowPositionX
      ensures focusWindowPositionX == Some(value)
    {
      focusWindowPositionX := Some(value);
    }

    method FocusWindowPositionY(value: Schema.Double)
      modifies this`focusWindowPositionY
      ensures focusWindowPositionY == Some(value)
    {
      focusWindowPositionY := Some(value);
    }

    method FocusWindowWidth(value: Schema.Double)
      modifies this`focusWindowWidth
      ensures focusWindowWidth == Some(value)
    {
      focusWindowWidth := Some(value);
    }

    method FocusWindowHeight(value: Schema.Double)
      modifies this`focusWindowHeight
      ensures focusWindowHeight == Some(value)
    {
      focusWindowHeight := Some(value);
    }

    method Screen(value: int)
      modifies this`screen
      ensures screen == Some(value)
    {
      screen := Some(value);
    }

    /** Appends the modifier's underlying value; duplicates are kept. */
    method Modifier(value: ModifierValue)
      modifies this`modifiers
      ensures modifiers == old(modifiers) + [ToUnderlying(value.Underlying())]
    {
      modifiers := modifiers + [ToUnderlying(value.Underlying())];
    }

    /** Appends one `kKey` entry; the builder itself is left as it was. */
    method Build(data: Data)
      modifies data
      ensures data.entries == old(data.entries) + [Entry(kKey, Row(), modifiers)]
    {
      var entry := Entry(kKey, Row(), modifiers);
      data.AddEntry(entry);
    }
  }

  /** A field whose setter was never called is stored as "". */
  lemma UnsetRowIsEmpty(builder: Key)
    requires builder.Unset()
    ensures forall i :: 0 <= i < |builder.Row()| ==> builder.Row()[i] == ""
  {
    forall f: Field
      ensures builder.Column(f) == ""
    {
    }
  }

  /**
   * Device type and action are stored as the text of their underlying values
   * under `device_type` and `button_action`; the character is stored as given.
   */
  lemma RowLayout(key: Key)
    ensures KeyFields[11] == "device_type" && KeyFields[14] == "button_action" && KeyFields[15] == "character"
    ensures key.device.Some? ==> ParseInt(key.Row()[11]) == Some(key.device.value.Underlying() as int)
    ensures key.action.Some? ==> ParseInt(key.Row()[14]) == Some(key.action.value.Underlying() as int)
    ensures key.character.Some? ==> key.Row()[15] == key.character.value
  {
    assert KeyFields[11] == "device_type" && KeyFields[14] == "button_action" && KeyFields[15] == "character" by {
      KeyFieldsTable();
      ClickFieldsTable();
      assert KeyFields[11] == MouseClickFields[11] == MouseMoveFields[11];
      assert KeyFields[14] == MouseClickFields[14];
    }
    assert key.Row()[11] == ToUnderlyingOptional(DeviceUnderlying(key.device))
      && key.Row()[14] == ToUnderlyingOptional(ActionUnderlying(key.action))
      && key.Row()[15] == FromString(key.character) by {
      assert KeyColumns[11] == FDeviceType && KeyColumns[14] == FButtonAction && KeyColumns[15] == FCharacter;
    }
    ToUnderlyingOptionalReadsBack(DeviceUnderlying(key.device));
    ToUnderlyingOptionalReadsBack(ActionUnderlying(key.action));
  }
}

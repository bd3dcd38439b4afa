/**
 * The mouse-move builder: the twelve common fields; `Build` appends one
 * `kMouseMove` row. Its source file is not part of this model: the builder
 * follows the `kMouseMoveFields` table and the other three builders.
 */
module MouseMoveBuilder {
  import opened Wrappers
  import opened Text
  import opened Schema
  import opened Entries

  class MouseMove {
    var interval: Option<int>
    var timestamp: Option<Schema.Timestamp>
    var device: Option<DeviceType>
    var positionX: Option<Schema.Double>
    var positionY: Option<Schema.Double>
    var deviceName: Option<string>
    var focusWindowName: Option<string>
    var focusWindowPositionX: Option<Schema.Double>
    var focusWindowPositionY: Option<Schema.Double>
    var focusWindowWidth: Option<Schema.Double>
    var focusWindowHeight: Option<Schema.Double>
    var screen: Option<int>
    var modifiers: seq<string>

    constructor()
      ensures Unset()
    {
      interval := None;
      timestamp := None;
      device := None;
      positionX := None;
      positionY := None;
      deviceName := None;
      focusWindowName := None;
      focusWindowPositionX := None;
      focusWindowPositionY := None;
      focusWindowWidth := None;
      focusWindowHeight := None;
      screen := None;
      modifiers := [];
    }

    /** No setter has been called yet. */
    predicate Unset()
      reads this
    {
      interval.None? && timestamp.None? && device.None? && positionX.None? && positionY.None?
      && deviceName.None? && focusWindowName.None? && focusWindowPositionX.None?
      && focusWindowPositionY.None? && focusWindowWidth.None? && focusWindowHeight.None?
      && screen.None? && modifiers == []
    }

    /** The text stored in a column, looked up by column rather than by position. */
    function Column(field: Field): string
      reads this
    {
      match field
      case FInterval => FromInterval(interval)
      case FTimestamp => FromTimestamp(timestamp)
      case FDeviceType => ToUnderlyingOptional(DeviceUnderlying(device))
      case FPositionX => FromDouble(positionX)
      case FPositionY => FromDouble(positionY)
      case FDeviceName => FromString(deviceName)
      case FFocusWindowName => FromString(focusWindowName)
      case FFocusWindowPositionX => FromDouble(focusWindowPositionX)
      case FFocusWindowPositionY => FromDouble(focusWindowPositionY)
      case FFocusWindowWidth => FromDouble(focusWindowWidth)
      case FFocusWindowHeight => FromDouble(focusWindowHeight)
      case FScreen => FromInt(screen)
      case _ => ""
    }

    /**
     * The row `Build` stores: the text of each column of `MouseMoveColumns`, whose
     * names are `MouseMoveFields`, in that order.
     */
    function Row(): (r: seq<string>)
      reads this
      ensures |r| == |MouseMoveColumns| == MouseMoveNFields
      ensures forall i :: 0 <= i < |r| ==> r[i] == Column(MouseMoveColumns[i])
    {
      seq(|MouseMoveColumns|, i reads this requires 0 <= i < |MouseMoveColumns| => Column(MouseMoveColumns[i]))
    }

    /** Both `Interval` overloads: a plain interval is passed as `Some`. */
    method Interval(value: Option<int>)
      modifies this`interval
      ensures interval == value
    {
      interval := value;
    }

    method Timestamp(value: Schema.Timestamp)
      modifies this`timestamp
      ensures timestamp == Some(value)
    {
      timestamp := Some(value);
    }

    method Device(value: DeviceType)
      modifies this`device
      ensures device == Some(value)
    {
      device := Some(value);
    }

    method PositionX(value: Schema.Double)
      modifies this`positionX
      ensures positionX == Some(value)
    {
      positionX := Some(value);
    }

    method PositionY(value: Schema.Double)
      modifies this`positionY
      ensures positionY == Some(value)
    {
      positionY := Some(value);
    }

    method DeviceName(value: string)
      modifies this`deviceName
      ensures deviceName == Some(value)
    {
      deviceName := Some(value);
    }

    method FocusWindowName(value: string)
      modifies this`focusWindowName
      ensures focusWindowName == Some(value)
    {
      focusWindowName := Some(value);
    }

    method FocusWindowPositionX(value: Schema.Double)
      modifies this`focusWindowPositionX
      ensures focusWindowPositionX == Some(value)
    {
      focusWindowPositionX := Some(value);
    }

    method FocusWindowPositionY(value: Schema.Double)
      modifies this`focusWindowPositionY
      ensures focusWindowPositionY == Some(value)
    {
      focusWindowPositionY := Some(value);
    }

    method FocusWindowWidth(value: Schema.Double)
      modifies this`focusWindowWidth
      ensures focusWindowWidth == Some(value)
    {
      focusWindowWidth := Some(value);
    }

    method FocusWindowHeight(value: Schema.Double)
      modifies this`focusWindowHeight
      ensures focusWindowHeight == Some(value)
    {
      focusWindowHeight := Some(value);
    }

    method Screen(value: int)
      modifies this`screen
      ensures screen == Some(value)
    {
      screen := Some(value);
    }

    /** Appends the modifier's underlying value; duplicates are kept. */
    method Modifier(value: ModifierValue)
      modifies this`modifiers
      ensures modifiers == old(modifiers) + [ToUnderlying(value.Underlying())]
    {
      modifiers := modifiers + [ToUnderlying(value.Underlying())];
    }

    /** Appends one `kMouseMove` entry; the builder itself is left as it was. */
    method Build(data: Data)
      modifies data
      ensures data.entries == old(data.entries) + [Entry(kMouseMove, Row(), modifiers)]
    {
      var entry := Entry(kMouseMove, Row(), modifiers);
      data.AddEntry(entry);
    }
  }

  /** A field whose setter was never called is stored as "". */
  lemma UnsetRowIsEmpty(builder: MouseMove)
    requires builder.Unset()
    ensures forall i :: 0 <= i < |builder.Row()| ==> builder.Row()[i] == ""
  {
    forall f: Field
      ensures builder.Column(f) == ""
    {
    }
  }

  /** Device type is stored as the text of its underlying value in the last column. */
  lemma RowLayout(move: MouseMove)
    ensures MouseMoveFields[11] == "device_type"
    ensures move.device.Some? ==> ParseInt(move.Row()[11]) == Some(move.device.value.Underlying() as int)
  {
    assert move.Row()[11] == ToUnderlyingOptional(DeviceUnderlying(move.device)) by {
      assert MouseMoveColumns[11] == FDeviceType;
    }
    ToUnderlyingOptionalReadsBack(DeviceUnderlying(move.device));
  }
}

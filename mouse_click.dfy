/**
 * The mouse-click builder: like the key builder without a character; `Build`
 * appends one `kMouseClick` row.
 */
module MouseClickBuilder {
  import opened Wrappers
  import opened Text
  import opened Schema
  import opened Entries

  class MouseClick {
    var interval: Option<int>
    var timestamp: Option<Schema.Timestamp>
    var device: Option<DeviceType>
    var positionX: Option<Schema.Double>
    var positionY: Option<Schema.Double>
    var action: Option<ButtonAction>
    var button: Option<int>
    var name: Option<string>
    var deviceName: Option<string>
    var focusWindowName: Option<string>
    var focusWindowPositionX: Option<Schema.Double>
    var focusWindowPositionY: Option<Schema.Double>
    var focusWindowWidth: Option<Schema.Double>
    var focusWindowHeight: Option<Schema.Double>
    var screen: Option<int>
    var modifiers: seq<string>

    constructor()
      ensures Unset()
    {
      interval := None;
      timestamp := None;
      device := None;
      positionX := None;
      positionY := None;
      action := None;
      button := None;
      name := None;
      deviceName := None;
      focusWindowName := None;
      focusWindowPositionX := None;
      focusWindowPositionY := None;
      focusWindowWidth := None;
      focusWindowHeight := None;
      screen := None;
      modifiers := [];
    }

    /** No setter has been called yet. */
    predicate Unset()
      reads this
    {
      interval.None? && timestamp.None? && device.None? && positionX.None? && positionY.None?
      && action.None? && button.None? && name.None? && deviceName.None? && focusWindowName.None?
      && focusWindowPositionX.None? && focusWindowPositionY.None? && focusWindowWidth.None?
      && focusWindowHeight.None? && screen.None? && modifiers == []
    }

    /** The text stored in a column, looked up by column rather than by position. */
    function Column(field: Field): string
      reads this
    {
      match field
      case FInterval => FromInterval(interval)
      case FTimestamp => FromTimestamp(timestamp)
      case FDeviceType => ToUnderlyingOptional(DeviceUnderlying(device))
      case FPositionX => FromDouble(positionX)
      case FPositionY => FromDouble(positionY)
      case FButtonAction => ToUnderlyingOptional(ActionUnderlying(action))
      case FButtonId => FromInt(button)
      case FButtonName => FromString(name)
      case FDeviceName => FromString(deviceName)
      case FFocusWindowName => FromString(focusWindowName)
      case FFocusWindowPositionX => FromDouble(focusWindowPositionX)
      case FFocusWindowPositionY => FromDouble(focusWindowPositionY)
      case FFocusWindowWidth => FromDouble(focusWindowWidth)
      case FFocusWindowHeight => FromDouble(focusWindowHeight)
      case FScreen => FromInt(screen)
      case _ => ""
    }

    /**
     * The row `Build` stores: the text of each column of `MouseClickColumns`, whose
     * names are `MouseClickFields`, in that order.
     */
    function Row(): (r: seq<string>)
      reads this
      ensures |r| == |MouseClickColumns| == MouseClickNFields
      ensures forall i :: 0 <= i < |r| ==> r[i] == Column(MouseClickColumns[i])
    {
      seq(|MouseClickColumns|, i reads this requires 0 <= i < |MouseClickColumns| => Column(MouseClickColumns[i]))
    }

    /** Both `Interval` overloads: a plain interval is passed as `Some`. */
    method Interval(value: Option<int>)
      modifies this`interval
      ensures interval == value
    {
      interval := value;
    }

    method Timestamp(value: Schema.Timestamp)
      modifies this`timestamp
      ensures timestamp == Some(value)
    {
      timestamp := Some(value);
    }

    method Device(value: DeviceType)
      modifies this`device
      ensures device == Some(value)
    {
      device := Some(value);
    }

    method PositionX(value: Schema.Double)
      modifies this`positionX
      ensures positionX == Some(value)
    {
      positionX := Some(value);
    }

    method PositionY(value: Schema.Double)
      modifies this`positionY
      ensures positionY == Some(value)
    {
      positionY := Some(value);
    }

    method Action(value: ButtonAction)
      modifies this`action
      ensures action == Some(value)
    {
      action := Some(value);
    }

    method Button(value: int)
      modifies this`button
      ensures button == Some(value)
    {
      button := Some(value);
    }

    method Name(value: string)
      modifies this`name
      ensures name == Some(value)
    {
      name := Some(value);
    }

    method DeviceName(value: string)
      modifies this`deviceName
      ensures deviceName == Some(value)
    {
      deviceName := Some(value);
    }

    method FocusWindowName(value: string)
      modifies this`focusWindowName
      ensures focusWindowName == Some(value)
    {
      focusWindowName := Some(value);
    }

    method FocusWindowPositionX(value: Schema.Double)
      modifies this`focusWindowPositionX
      ensures focusWindowPositionX == Some(value)
    {
      focusWindowPositionX := Some(value);
    }

    method FocusWindowPositionY(value: Schema.Double)
      modifies this`focusWindowPositionY
      ensures focusWindowPositionY == Some(value)
    {
      focusWindowPositionY := Some(value);
    }

    method FocusWindowWidth(value: Schema.Double)
      modifies this`focusWindowWidth
      ensures focusWindowWidth == Some(value)
    {
      focusWindowWidth := Some(value);
    }

    method FocusWindowHeight(value: Schema.Double)
      modifies this`focusWindowHeight
      ensures focusWindowHeight == Some(value)
    {
      focusWindowHeight := Some(value);
    }

    method Screen(value: int)
      modifies this`screen
      ensures screen == Some(value)
    {
      screen := Some(value);
    }

    /** Appends the modifier's underlying value; duplicates are kept. */
    method Modifier(value: ModifierValue)
      modifies this`modifiers
      ensures modifiers == old(modifiers) + [ToUnderlying(value.Underlying())]
    {
      modifiers := modifiers + [ToUnderlying(value.Underlying())];
    }

    /** Appends one `kMouseClick` entry; the builder itself is left as it was. */
    method Build(data: Data)
      modifies data
      ensures data.entries == old(data.entries) + [Entry(kMouseClick, Row(), modifiers)]
    {
      var entry := Entry(kMouseClick, Row(), modifiers);
      data.AddEntry(entry);
    }
  }

  /** A field whose setter was never called is stored as "". */
  lemma UnsetRowIsEmpty(builder: MouseClick)
    requires builder.Unset()
    ensures forall i :: 0 <= i < |builder.Row()| ==> builder.Row()[i] == ""
  {
    forall f: Field
      ensures builder.Column(f) == ""
    {
    }
  }

  /** Device type and action are stored as the text of their underlying values. */
  lemma RowLayout(click: MouseClick)
    ensures MouseClickFields[11] == "device_type" && MouseClickFields[14] == "button_action"
    ensures click.device.Some? ==> ParseInt(click.Row()[11]) == Some(click.device.value.Underlying() as int)
    ensures click.action.Some? ==> ParseInt(click.Row()[14]) == Some(click.action.value.Underlying() as int)
    ensures click.button.Some? ==> ParseInt(click.Row()[12]) == Some(click.button.value)
  {
    assert MouseClickFields[11] == "device_type" && MouseClickFields[14] == "button_action" by {
      ClickFieldsTable();
      assert MouseClickFields[11] == MouseMoveFields[11];
    }
    assert click.Row()[11] == ToUnderlyingOptional(DeviceUnderlying(click.device))
      && click.Row()[12] == FromInt(click.button)
      && click.Row()[14] == ToUnderlyingOptional(ActionUnderlying(click.action)) by {
      assert MouseClickColumns[11] == FDeviceType && MouseClickColumns[12] == FButtonId;
      assert MouseClickColumns[14] == FButtonAction;
    }
    ToUnderlyingOptionalReadsBack(DeviceUnderlying(click.device));
    ToUnderlyingOptionalReadsBack(ActionUnderlying(click.action));
    FromIntReadsBack(click.button);
  }
}

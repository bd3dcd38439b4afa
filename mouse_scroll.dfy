/**
 * The mouse-scroll builder: the common fields plus a vertical and a horizontal
 * amount; `Build` appends one `kMouseScroll` row.
 */
module MouseScrollBuilder {
  import opened Wrappers
  import opened Text
  import opened Schema
  import opened Entries

  class MouseScroll {
    var interval: Option<int>
    var timestamp: Option<Schema.Timestamp>
    var device: Option<DeviceType>
    var positionX: Option<Schema.Double>
    var positionY: Option<Schema.Double>
    var vertical: Option<Schema.Double>
    var horizontal: Option<Schema.Double>
    var deviceName: Option<string>
    var focusWindowName: Option<string>
    var focusWindowPositionX: Option<Schema.Double>
    var focusWindowPositionY: Option<Schema.Double>
    var focusWindowWidth: Option<Schema.Double>
    var focusWindowHeight: Option<Schema.Double>
    var screen: Option<int>
    var modifiers: seq<string>

    constructor()
      ensures Unset()
    {
      interval := None;
      timestamp := None;
      device := None;
      positionX := None;
      positionY := None;
      vertical := None;
      horizontal := None;
      deviceName := None;
      focusWindowName := None;
      focusWindowPositionX := None;
      focusWindowPositionY := None;
      focusWindowWidth := None;
      focusWindowHeight := None;
      screen := None;
      modifiers := [];
    }

    /** No setter has been called yet. */
    predicate Unset()
      reads this
    {
      interval.None? && timestamp.None? && device.None? && positionX.None? && positionY.None?
      && vertical.None? && horizontal.None? && deviceName.None? && focusWindowName.None?
      && focusWindowPositionX.None? && focusWindowPositionY.None? && focusWindowWidth.None?
      && focusWindowHeight.None? && screen.None? && modifiers == []
    }

    /** The text stored in a column, looked up by column rather than by position. */
    function Column(field: Field): string
      reads this
    {
      match field
      case FInterval => FromInterval(interval)
      case FTimestamp => FromTimestamp(timestamp)
      case FDeviceType => ToUnderlyingOptional(DeviceUnderlying(device))
      case FPositionX => FromDouble(positionX)
      case FPositionY => FromDouble(positionY)
      case FScrollVertical => FromDouble(vertical)
      case FScrollHorizontal => FromDouble(horizontal)
      case FDeviceName => FromString(deviceName)
      case FFocusWindowName => FromString(focusWindowName)
      case FFocusWindowPositionX => FromDouble(focusWindowPositionX)
      case FFocusWindowPositionY => FromDouble(focusWindowPositionY)
      case FFocusWindowWidth => FromDouble(focusWindowWidth)
      case FFocusWindowHeight => FromDouble(focusWindowHeight)
      case FScreen => FromInt(screen)
      case _ => ""
    }

    /**
     * The row `Build` stores: the text of each column of `MouseScrollColumns`, whose
     * names are `MouseScrollFields`, in that order.
     */
    function Row(): (r: seq<string>)
      reads this
      ensures |r| == |MouseScrollColumns| == MouseScrollNFields
      ensures forall i :: 0 <= i < |r| ==> r[i] == Column(MouseScrollColumns[i])
    {
      seq(|MouseScrollColumns|, i reads this requires 0 <= i < |MouseScrollColumns| => Column(MouseScrollColumns[i]))
    }

    /** Both `Interval` overloads: a plain interval is passed as `Some`. */
    method Interval(value: Option<int>)
      modifies this`interval
      ensures interval == value
    {
      interval := value;
    }

    method Timestamp(value: Schema.Timestamp)
      modifies this`timestamp
      ensures timestamp == Some(value)
    {
      timestamp := Some(value);
    }

    method Device(value: DeviceType)
      modifies this`device
      ensures device == Some(value)
    {
      device := Some(value);
    }

    method PositionX(value: Schema.Double)
      modifies this`positionX
      ensures positionX == Some(value)
    {
      positionX := Some(value);
    }

    method PositionY(value: Schema.Double)
      modifies this`positionY
      ensures positionY == Some(value)
    {
      positionY := Some(value);
    }

    method Vertical(value: Schema.Double)
      modifies this`vertical
      ensures vertical == Some(value)
    {
      vertical := Some(value);
    }

    method Horizontal(value: Schema.Double)
      modifies this`horizontal
      ensures horizontal == Some(value)
    {
      horizontal := Some(value);
    }

    method DeviceName(value: string)
      modifies this`deviceName
      ensures deviceName == Some(value)
    {
      deviceName := Some(value);
    }

    method FocusWindowName(value: string)
      modifies this`focusWindowName
      ensures focusWindowName == Some(value)
    {
      focusWindowName := Some(value);
    }

    method FocusWindowPositionX(value: Schema.Double)
      modifies this`focusWindowPositionX
      ensures focusWindowPositionX == Some(value)
    {
      focusWindowPositionX := Some(value);
    }

    method FocusWindowPositionY(value: Schema.Double)
      modifies this`focusWindowPositionY
      ensures focusWindowPositionY == Some(value)
    {
      focusWindowPositionY := Some(value);
    }

    method FocusWindowWidth(value: Schema.Double)
      modifies this`focusWindowWidth
      ensures focusWindowWidth == Some(value)
    {
      focusWindowWidth := Some(value);
    }

    method FocusWindowHeight(value: Schema.Double)
      modifies this`focusWindowHeight
      ensures focusWindowHeight == Some(value)
    {
      focusWindowHeight := Some(value);
    }

    method Screen(value: int)
      modifies this`screen
      ensures screen == Some(value)
    {
      screen := Some(value);
    }

    /** Appends the modifier's underlying value; duplicates are kept. */
    method Modifier(value: ModifierValue)
      modifies this`modifiers
      ensures modifiers == old(modifiers) + [ToUnderlying(value.Underlying())]
    {
      modifiers := modifiers + [ToUnderlying(value.Underlying())];
    }

    /** Appends one `kMouseScroll` entry; the builder itself is left as it was. */
    method Build(data: Data)
      modifies data
      ensures data.entries == old(data.entries) + [Entry(kMouseScroll, Row(), modifiers)]
    {
      var entry := Entry(kMouseScroll, Row(), modifiers);
      data.AddEntry(entry);
    }
  }

  /** A field whose setter was never called is stored as "". */
  lemma UnsetRowIsEmpty(builder: MouseScroll)
    requires builder.Unset()
    ensures forall i :: 0 <= i < |builder.Row()| ==> builder.Row()[i] == ""
  {
    forall f: Field
      ensures builder.Column(f) == ""
    {
    }
  }

  /** The two scroll amounts close the row; an amount never set is "". */
  lemma RowLayout(scroll: MouseScroll)
    ensures MouseScrollFields[12] == "scroll_vertical" && MouseScrollFields[13] == "scroll_horizontal"
    ensures scroll.vertical.Some? ==> scroll.Row()[12] == scroll.vertical.value.text
    ensures scroll.horizontal.None? ==> scroll.Row()[13] == ""
    ensures scroll.horizontal.Some? ==> scroll.Row()[13] == scroll.horizontal.value.text
  {
    ScrollFieldsTable();
    assert MouseScrollColumns[12] == FScrollVertical && MouseScrollColumns[13] == FScrollHorizontal;
  }
}

/**
 * Entries: the field-name tables of the four event kinds, built by array
 * concatenation, the immutable `Entry` record and the `Data` list that the
 * builders append to.
 */
module Entries {
  import opened Schema

  const MouseMoveNFields: nat := 12
  const MouseScrollNFields: nat := 14
  const MouseClickNFields: nat := 15
  const KeyNFields: nat := 16

  /**
   * `AddToArray<From, To>`: copies `from`, then `add`, into an array of `to`
   * slots; slots not written keep their default (the empty view). The
   * `AddArray` concept only requires the bound to be well formed, so the
   * bound is a precondition here.
   */
  function AddToArray(from: seq<string>, add: seq<string>, to: nat): (r: seq<string>)
    requires |from| < to && |add| <= to - |from|
    ensures |r| == to
    ensures r[..|from|] == from
    ensures r[|from|..|from| + |add|] == add
    ensures forall i :: |from| + |add| <= i < to ==> r[i] == ""
  {
    var filled := from + add;
    filled + seq(to - |filled|, _ => "")
  }

  /** The columns an event row can hold; `Name` is the column's field name. */
  datatype Field =
    | FInterval | FTimestamp | FPositionX | FPositionY | FDeviceName | FFocusWindowName
    | FFocusWindowPositionX | FFocusWindowPositionY | FFocusWindowWidth | FFocusWindowHeight
    | FScreen | FDeviceType | FScrollVertical | FScrollHorizontal
    | FButtonId | FButtonName | FButtonAction | FCharacter
  {
    function Name(): string {
      match this
      case FInterval => "interval"
      case FTimestamp => "timestamp"
      case FPositionX => "position_x"
      case FPositionY => "position_y"
      case FDeviceName => "device_name"
      case FFocusWindowName => "focus_window_name"
      case FFocusWindowPositionX => "focus_window_position_x"
      case FFocusWindowPositionY => "focus_window_position_y"
      case FFocusWindowWidth => "focus_window_width"
      case FFocusWindowHeight => "focus_window_height"
      case FScreen => "screen"
      case FDeviceType => "device_type"
      case FScrollVertical => "scroll_vertical"
      case FScrollHorizontal => "scroll_horizontal"
      case FButtonId => "button_id"
      case FButtonName => "button_name"
      case FButtonAction => "button_action"
      case FCharacter => "character"
    }
  }

  function Names(columns: seq<Field>): (names: seq<string>)
    ensures |names| == |columns|
    ensures forall i :: 0 <= i < |columns| ==> names[i] == columns[i].Name()
  {
    seq(|columns|, i requires 0 <= i < |columns| => columns[i].Name())
  }

  const MouseMoveColumns: seq<Field> := [
    FInterval, FTimestamp, FPositionX, FPositionY, FDeviceName, FFocusWindowName,
    FFocusWindowPositionX, FFocusWindowPositionY, FFocusWindowWidth, FFocusWindowHeight,
    FScreen, FDeviceType
  ]
  const MouseScrollColumns: seq<Field> := MouseMoveColumns + [FScrollVertical, FScrollHorizontal]
  const MouseClickColumns: seq<Field> := MouseMoveColumns + [FButtonId, FButtonName, FButtonAction]
  const KeyColumns: seq<Field> := MouseClickColumns + [FCharacter]

  const MouseMoveFields: seq<string> := [
    "interval",
    "timestamp",
    "position_x",
    "position_y",
    "device_name",
    "focus_window_name",
    "focus_window_position_x",
    "focus_window_position_y",
    "focus_window_width",
    "focus_window_height",
    "screen",
    "device_type"
  ]

  const MouseScrollFields: seq<string> :=
    AddToArray(MouseMoveFields, ["scroll_vertical", "scroll_horizontal"], MouseScrollNFields)

  const MouseClickFields: seq<string> :=
    AddToArray(MouseMoveFields, ["button_id", "button_name", "button_action"], MouseClickNFields)

  const KeyFields: seq<string> :=
    AddToArray(MouseClickFields, ["character"], KeyNFields)

  /** The four tables: sizes, shared prefixes and the names they add. */
  lemma FieldTables()
    ensures |MouseMoveFields| == 12 && MouseMoveFields[0] == "interval" && MouseMoveFields[11] == "device_type"
    ensures |MouseScrollFields| == 14 && MouseScrollFields == MouseMoveFields + ["scroll_vertical", "scroll_horizontal"]
    ensures |MouseClickFields| == 15 && MouseClickFields == MouseMoveFields + ["button_id", "button_name", "button_action"]
    ensures |KeyFields| == 16 && KeyFields == MouseClickFields + ["character"]
    ensures MouseMoveFields <= MouseClickFields <= KeyFields
    ensures MouseMoveFields <= MouseScrollFields
    ensures MouseMoveFields == Names(MouseMoveColumns) && MouseScrollFields == Names(MouseScrollColumns)
    ensures MouseClickFields == Names(MouseClickColumns) && KeyFields == Names(KeyColumns)
  {
    ScrollFieldsTable();
    ClickFieldsTable();
    KeyFieldsTable();
    MoveFieldsNamed();
    assert MouseScrollFields == Names(MouseScrollColumns);
    assert MouseClickFields == Names(MouseClickColumns);
    assert KeyFields == Names(KeyColumns);
  }

  lemma ScrollFieldsTable()
    ensures MouseScrollFields == MouseMoveFields + ["scroll_vertical", "scroll_horizontal"]
  {
    assert MouseScrollFields[..12] == MouseMoveFields;
    assert MouseScrollFields[12..14] == ["scroll_vertical", "scroll_horizontal"];
    assert MouseScrollFields == MouseScrollFields[..12] + MouseScrollFields[12..14];
  }

  lemma ClickFieldsTable()
    ensures MouseClickFields == MouseMoveFields + ["button_id", "button_name", "button_action"]
  {
    assert MouseClickFields[..12] == MouseMoveFields;
    assert MouseClickFields[12..15] == ["button_id", "button_name", "button_action"];
    assert MouseClickFields == MouseClickFields[..12] + MouseClickFields[12..15];
  }

  lemma KeyFieldsTable()
    ensures KeyFields == MouseClickFields + ["character"]
  {
    assert KeyFields[..15] == MouseClickFields;
    assert KeyFields[15..16] == ["character"];
    assert KeyFields == KeyFields[..15] + KeyFields[15..16];
  }

  lemma MoveFieldsNamed()
    ensures MouseMoveFields == Names(MouseMoveColumns)
  {
  }

  /** No table names a field twice. */
  lemma FieldNamesDistinct()
    ensures forall i, j :: 0 <= i < j < |KeyFields| ==> KeyFields[i] != KeyFields[j]
    ensures forall i, j :: 0 <= i < j < |MouseScrollFields| ==> MouseScrollFields[i] != MouseScrollFields[j]
  {
    FieldTables();
    KeyColumnsDistinct();
    ScrollColumnsDistinct();
    forall i, j | 0 <= i < j < |KeyColumns|
      ensures KeyFields[i] != KeyFields[j]
    {
      if KeyFields[i] == KeyFields[j] {
        NameInjective(KeyColumns[i], KeyColumns[j]);
      }
    }
    forall i, j | 0 <= i < j < |MouseScrollColumns|
      ensures MouseScrollFields[i] != MouseScrollFields[j]
    {
      if MouseScrollFields[i] == MouseScrollFields[j] {
        NameInjective(MouseScrollColumns[i], MouseScrollColumns[j]);
      }
    }
  }

  lemma KeyColumnsDistinct()
    ensures forall i, j :: 0 <= i < j < |KeyColumns| ==> KeyColumns[i] != KeyColumns[j]
  {
  }

  lemma ScrollColumnsDistinct()
    ensures forall i, j :: 0 <= i < j < |MouseScrollColumns| ==> MouseScrollColumns[i] != MouseScrollColumns[j]
  {
  }

  /** Different columns have different names. */
  lemma NameInjective(a: Field, b: Field)
    requires a.Name() == b.Name()
    ensures a == b
  {
  }

  /** The field names of an entry type. */
  function FieldsOf(entryType: EntryType): (fields: seq<string>)
    ensures |fields| in {MouseMoveNFields, MouseScrollNFields, MouseClickNFields, KeyNFields}
  {
    FieldTables();
    match entryType
    case kKey => KeyFields
    case kMouseClick => MouseClickFields
    case kMouseMove => MouseMoveFields
    case kMouseScroll => MouseScrollFields
  }

  /** An entry is immutable: it keeps the type, data and modifiers it was made with. */
  datatype Entry = Entry(entryType: EntryType, data: seq<string>, modifiers: seq<string>)

  /** The ordered list of entries produced from one system event. */
  class Data {
    var entries: seq<Entry>

    constructor()
      ensures entries == []
    {
      entries := [];
    }

    method AddEntry(entry: Entry)
      modifies this
      ensures entries == old(entries) + [entry]
    {
      entries := entries + [entry];
    }

    predicate Empty()
      reads this
    {
      entries == []
    }
  }
}

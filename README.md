# evget core, modelled in Dafny

evget records keyboard, mouse and touch input. It reads raw X Input
Extension 2 events from the X server, turns each event into one or more
rows of text through event builders, and stores the rows in SQLite or as
JSON. This project models the sequential rules at the heart of that
pipeline and proves what they guarantee:

- **Event rows** (`schema.dfy`, `entry.dfy`, `key.dfy`, `mouse_click.dfy`,
  `mouse_scroll.dfy`, `mouse_move.dfy`). These cover the enum names, the
  optional-to-text formatters, the four field-name tables built by array
  concatenation, and the builders whose setters fill optional fields and
  whose `Build` appends one fixed-width row to a `Data`.
- **Storage** (`database.dfy`, `migrate.dfy`, `database_storage.dfy`,
  `locking_vector.dfy`, `graph.dfy`, `ordering.dfy`).
  - The SQLite connection is a class that records the calls made on it.
  - The migration reconciler sorts, compares against the applied records, skips, applies or rolls back.
  - `DatabaseStorage` routes each entry to the statements of its type and binds their positions.
  - The batching buffer never loses elements.
  - The adjacency-list graph.
- **Command line** (`cli.dfy`, `cli_option.dfy`, `core_parser.dfy`). This
  covers:
  - storage-type detection by file suffix;
  - output-list normalisation;
  - the option builder, the option and the validated option, with their presence, conflict and at-least rules;
  - the Filetype stream operators;
  - log-level validation;
  - the generated config file.
- **X11 normalisation** (`x11_types.dfy`, `x11_masks.dfy`, `x11_wrapper.dfy`,
  `intervals.dfy`, `event_switch.dfy`, `event_switch_pointer_key.dfy`,
  `event_switch_touch.dfy`, `event_transformer.dfy`, `device_refresh.dfy`,
  `linux_transformer.dfy`):
  - the XI2 bit masks and valuator reading;
  - the decision logic of the window and key-symbol queries;
  - the interval clock;
  - the device registries, where the first registration wins;
  - the modifier-mask decoder;
  - the pointer-and-key and touch handlers;
  - the transformer's dispatch;
  - the Linux transformer's device classification.
- **Devices and small containers** (`device_order.dfy`, `event_data.dfy`,
  `system_event_loop.dfy`):
  - the two versions of the input-device path ordering and the padded listing;
  - the named field container;
  - the system event loop's "every device failed" rule.
- `wrappers.dfy`, `text.dfy` and `maps.dfy` are shared helpers:
  - `Option` and `Result`;
  - decimal text, lower-casing and `std::string` ordering;
  - map insertion that keeps an existing key (`emplace`/`try_emplace`/`insert`).

The outside world enters as parameters or oracles fixed by the
environment:

- the X server's replies (`XServer`, `Display`);
- the outcome of each SQLite call;
- the UUID generator;
- migration checksums;
- `spdlog::level::from_str`;
- the spdlog level names.

Floating-point values and timestamps are opaque text (`Schema.Double`,
`Schema.Timestamp`). An integer stored as a double is written as its
decimal text followed by ".000000", as `std::to_string` does.

The model keeps the source's behaviour where it is surprising, and states
it as lemmas:

- Applied migration versions are read back as booleans. Running the same
  migrations a second time therefore finds nothing to do only when every
  version is 0 or 1 (`Migrations.RerunNeedsBooleanVersions`).
- A raw key release is compared against the non-raw release type, so it is
  never recorded as a release (`XPointerKey.RawReleaseIsNotRelease`).
- The pointer-and-key switch reads valuators with `(*values)++`. Every
  valuator therefore reads the first value, which is advanced once per
  valuator. A scroll that follows a motion sees the advanced value: a
  single vertical valuator of value 1 scrolls by 2
  (`XPointerKey.OneValuatorScrollReadsAdvanced`). The pointer-and-key
  scroll test in `evgetx11/test/event_switch_pointer_key.cpp` expects 1.
- The device refresh switch advances the pointer instead, and the two
  readings agree only on consecutive values
  (`XMasks.BumpedAgreesIffConsecutive`).
- The transformer maps the touchpad type to `kTouchscreen` and the
  touchscreen type to `kTouchpad`.
- `GetWindowSize` reports the width twice (`XWrapper.WindowSizeIsSquare`).
- The device lister also compares numeric path tokens as text, so "event10"
  and "event9" each compare less than the other. Two devices that each have
  only a link the other lacks also compare less in both directions. The
  Linux platform version compares numeric tokens only as numbers
  (`DeviceOrder.NodeNumberOrder`).
- The validated option's branch for a default together with an implicit
  value can never be taken (`CliOptions.DefaultAndImplicitUnreachable`).
- The padding width of the device listing is an unsigned subtraction. When
  a name or a path is longer than its column, the width wraps around and
  building the padding throws. The model records the throw
  (`DeviceOrder.ListingThrows`).

## Model

| member | source | states |
|---|---|---|
| Schema.GetType | evget/include/evget/event/schema.h:124-139 | the name of every data type is one of "String", "Integer", "Timestamp", "Interval", "Double" |
| Schema.GetTypeInjective | evget/include/evget/event/schema.h:124-139 | two data types have the same name exactly when they are the same type |
| Schema.GetRelation | evget/include/evget/event/schema.h:144-157 | the name of every relation is one of "OneToOne", "OneToMany", "ManyToOne", "ManyToMany" |
| Schema.GetRelationInjective | evget/include/evget/event/schema.h:144-157 | two relations have the same name exactly when they are the same relation |
| Schema.ToUnderlyingReadsBack | evget/include/evget/event/schema.h:170-173 | the text of an underlying value is a non-empty run of digits that `stoi` reads back as the value |
| Schema.ToUnderlyingOptional | evget/include/evget/event/schema.h:162-165 | an absent enumerator gives "" |
| Schema.ToUnderlyingOptionalReadsBack | evget/include/evget/event/schema.h:162-165 | the text is "" exactly when the enumerator is absent, and a present one reads back as its underlying value |
| Schema.FromString | evget/include/evget/event/schema.h:178-180 | an absent string gives "", a present one is returned unchanged |
| Schema.FromInt | evget/include/evget/event/schema.h:185-187 | an absent integer gives "" |
| Schema.FromInterval | evget/include/evget/event/schema.h:303-305 | an absent interval gives "" |
| Schema.FromIntReadsBack | evget/include/evget/event/schema.h:185-187 | both integer formatters give "" exactly for an absent value, and otherwise decimal text that reads back as the value |
| Schema.FromDouble | evget/include/evget/event/schema.h:310-312 | an absent double gives "", a present one its `to_string` text |
| Schema.FromTimestamp | evget/include/evget/event/schema.h:192-198 | an absent timestamp gives "", a present one its formatted text |
| Schema.IntToDoubleReadsBack | evget/include/evget/event/schema.h:310-312 | the text of an integer-valued double reads back, with `stoi`, as the integer |
| Schema.ParseIntIgnoresFraction | evget/include/evget/event/schema.h:310-312 | `stoi` of a double's six-decimal text stops at the point and gives the integer |
| Schema.FromButtonAction | evget/include/evget/event/schema.h:203-216 | "" exactly for an absent action; otherwise one of "Press", "Release", "Repeat" |
| Schema.FromDevice | evget/include/evget/event/schema.h:221-238 | "" exactly for an absent device type; otherwise one of the five device names |
| Schema.FromModifierValue | evget/include/evget/event/schema.h:243-266 | "" exactly for an absent modifier; otherwise one of the eight modifier names |
| Schema.FromEntryType | evget/include/evget/event/schema.h:271-286 | "" exactly for an absent entry type; otherwise one of "Key", "MouseClick", "MouseMove", "MouseScroll" |
| Schema.EnumNamesInjective | evget/include/evget/event/schema.h:203-286 | each of the four enumeration formatters is injective, absent included |
| Schema.FromUnderlying | evget/include/evget/event/schema.h:291-298 | "" is absent; text `stoi` cannot read fails; a read value gives the enumerator with that underlying value, and a value no enumerator has fails with that value |
| Schema.ButtonActionOf | evget/include/evget/event/schema.h:297 | the action cast from a number has that number as its underlying value |
| Schema.DeviceTypeOf | evget/include/evget/event/schema.h:297 | the device type cast from a number has that number as its underlying value |
| Schema.ModifierValueOf | evget/include/evget/event/schema.h:297 | the modifier cast from a number has that number as its underlying value |
| Schema.EntryTypeOf | evget/include/evget/event/schema.h:297 | the entry type cast from a number has that number as its underlying value |
| Schema.ButtonActionRoundTrip | evget/include/evget/event/schema.h:288-298 | reading back the underlying text of an action gives the action |
| Schema.DeviceTypeRoundTrip | evget/include/evget/event/schema.h:288-298 | reading back the underlying text of a device type gives the device type |
| Schema.ModifierValueRoundTrip | evget/include/evget/event/schema.h:288-298 | reading back the underlying text of a modifier gives the modifier |
| Schema.EntryTypeRoundTrip | evget/include/evget/event/schema.h:288-298 | reading back the underlying text of an entry type gives the entry type |
| Schema.ParseIntStopsAtNonDigit | evget/include/evget/event/schema.h:297 | `stoi` of an integer's text followed by a non-digit reads the integer back |
| Text.IntToString | evget/include/evget/event/schema.h:172 | `std::to_string` of an integer: non-empty, with a leading "-" exactly for a negative value |
| Text.ParseInt | evget/include/evget/event/schema.h:297 | `std::stoi` fails exactly when no digit follows the white space and the optional sign |
| Text.ParseIntOfIntToString | evget/include/evget/event/schema.h:185-187 | `stoi` reads back the decimal text of every integer |
| Text.IntToStringInjective | evget/include/evget/event/schema.h:185-187 | distinct integers have distinct decimal texts |
| Maps.TryEmplace | evgetx11/src/XEventSwitch.cpp:57-58 | emplace adds the key; an existing key keeps its value, a new key gets the given value |
| Entries.AddToArray | evget/include/evget/event/entry.h:28-38 | the result has `To` slots: `from`, then `add`, then default (empty) slots; the size bound the concept leaves unchecked is a precondition |
| Entries.FieldTables | evget/include/evget/event/entry.h:40-79 | the move table has 12 names from "interval" to "device_type"; scroll, click and key have 14, 15 and 16, each extending the previous table |
| Entries.ScrollFieldsTable | evget/include/evget/event/entry.h:55-62 | the scroll table is the move table followed by "scroll_vertical", "scroll_horizontal" |
| Entries.ClickFieldsTable | evget/include/evget/event/entry.h:64-72 | the click table is the move table followed by "button_id", "button_name", "button_action" |
| Entries.KeyFieldsTable | evget/include/evget/event/entry.h:74-79 | the key table is the click table followed by "character" |
| Entries.MoveFieldsNamed | evget/include/evget/event/entry.h:40-53 | the move table names the move columns in order |
| Entries.FieldNamesDistinct | evget/include/evget/event/entry.h:40-79 | no table names a field twice |
| Entries.FieldsOf | evget/include/evget/event/entry.h:16-19 | every entry type's table has one of the four field counts |
| Entries.Data.AddEntry | evget/src/event/key.cpp:128 | the entry is appended after the earlier ones |
| KeyBuilder.Key.Interval | evget/src/event/key.cpp:14-22 | the interval becomes the given optional value (a plain interval as `Some`); no other field changes |
| KeyBuilder.Key.Timestamp | evget/src/event/key.cpp:24-27 | records the value as present in the `Timestamp` field; no other field changes |
| KeyBuilder.Key.Device | evget/src/event/key.cpp:29-32 | records the value as present in the `Device` field; no other field changes |
| KeyBuilder.Key.PositionX | evget/src/event/key.cpp:34-37 | records the value as present in the `PositionX` field; no other field changes |
| KeyBuilder.Key.PositionY | evget/src/event/key.cpp:39-42 | records the value as present in the `PositionY` field; no other field changes |
| KeyBuilder.Key.Action | evget/src/event/key.cpp:44-47 | records the value as present in the `Action` field; no other field changes |
| KeyBuilder.Key.Button | evget/src/event/key.cpp:49-52 | records the value as present in the `Button` field; no other field changes |
| KeyBuilder.Key.Name | evget/src/event/key.cpp:54-57 | records the value as present in the `Name` field; no other field changes |
| KeyBuilder.Key.Character | evget/src/event/key.cpp:59-62 | records the value as present in the `Character` field; no other field changes |
| KeyBuilder.Key.DeviceName | evget/src/event/key.cpp:64-67 | records the value as present in the `DeviceName` field; no other field changes |
| KeyBuilder.Key.FocusWindowName | evget/src/event/key.cpp:69-72 | records the value as present in the `FocusWindowName` field; no other field changes |
| KeyBuilder.Key.FocusWindowPositionX | evget/src/event/key.cpp:74-77 | records the value as present in the `FocusWindowPositionX` field; no other field changes |
| KeyBuilder.Key.FocusWindowPositionY | evget/src/event/key.cpp:79-82 | records the value as present in the `FocusWindowPositionY` field; no other field changes |
| KeyBuilder.Key.FocusWindowWidth | evget/src/event/key.cpp:84-87 | records the value as present in the `FocusWindowWidth` field; no other field changes |
| KeyBuilder.Key.FocusWindowHeight | evget/src/event/key.cpp:89-92 | records the value as present in the `FocusWindowHeight` field; no other field changes |
| KeyBuilder.Key.Screen | evget/src/event/key.cpp:94-97 | records the value as present in the `Screen` field; no other field changes |
| KeyBuilder.Key.Modifier | evget/src/event/key.cpp:99-102 | appends the modifier's underlying value after the earlier ones, keeping duplicates; no other field changes |
| KeyBuilder.Key.Build | evget/src/event/key.cpp:104-131 | appends exactly one `kKey` entry holding `Row()` and the modifiers to the data; the builder is unchanged |
| KeyBuilder.Key.constructor | evget/include/evget/event/key.h:116-133 | a new builder has every field absent and no modifiers |
| KeyBuilder.Key.Row | evget/src/event/key.cpp:105-127 | one text per column of the entry type, in the order of the field-name table, each the formatted optional field |
| KeyBuilder.UnsetRowIsEmpty | evget/src/event/key.cpp:105-127 | a builder whose setters were never called stores "" in every column |
| KeyBuilder.RowLayout | evget/src/event/key.cpp:105-127 | the enumerated fields sit under their named columns and read back as their underlying values; text fields are stored as given |
| MouseClickBuilder.MouseClick.Interval | evget/src/event/mouse_click.cpp:14-22 | the interval becomes the given optional value (a plain interval as `Some`); no other field changes |
| MouseClickBuilder.MouseClick.Timestamp | evget/src/event/mouse_click.cpp:24-27 | records the value as present in the `Timestamp` field; no other field changes |
| MouseClickBuilder.MouseClick.Device | evget/src/event/mouse_click.cpp:29-32 | records the value as present in the `Device` field; no other field changes |
| MouseClickBuilder.MouseClick.PositionX | evget/src/event/mouse_click.cpp:34-37 | records the value as present in the `PositionX` field; no other field changes |
| MouseClickBuilder.MouseClick.PositionY | evget/src/event/mouse_click.cpp:39-42 | records the value as present in the `PositionY` field; no other field changes |
| MouseClickBuilder.MouseClick.Action | evget/src/event/mouse_click.cpp:44-47 | records the value as present in the `Action` field; no other field changes |
| MouseClickBuilder.MouseClick.Button | evget/src/event/mouse_click.cpp:49-52 | records the value as present in the `Button` field; no other field changes |
| MouseClickBuilder.MouseClick.Name | evget/src/event/mouse_click.cpp:54-57 | records the value as present in the `Name` field; no other field changes |
| MouseClickBuilder.MouseClick.DeviceName | evget/src/event/mouse_click.cpp:59-62 | records the value as present in the `DeviceName` field; no other field changes |
| MouseClickBuilder.MouseClick.FocusWindowName | evget/src/event/mouse_click.cpp:64-67 | records the value as present in the `FocusWindowName` field; no other field changes |
| MouseClickBuilder.MouseClick.FocusWindowPositionX | evget/src/event/mouse_click.cpp:69-72 | records the value as present in the `FocusWindowPositionX` field; no other field changes |
| MouseClickBuilder.MouseClick.FocusWindowPositionY | evget/src/event/mouse_click.cpp:74-77 | records the value as present in the `FocusWindowPositionY` field; no other field changes |
| MouseClickBuilder.MouseClick.FocusWindowWidth | evget/src/event/mouse_click.cpp:79-82 | records the value as present in the `FocusWindowWidth` field; no other field changes |
| MouseClickBuilder.MouseClick.FocusWindowHeight | evget/src/event/mouse_click.cpp:84-87 | records the value as present in the `FocusWindowHeight` field; no other field changes |
| MouseClickBuilder.MouseClick.Screen | evget/src/event/mouse_click.cpp:94-97 | records the value as present in the `Screen` field; no other field changes |
| MouseClickBuilder.MouseClick.Modifier | evget/src/event/mouse_click.cpp:89-92 | appends the modifier's underlying value after the earlier ones, keeping duplicates; no other field changes |
| MouseClickBuilder.MouseClick.Build | evget/src/event/mouse_click.cpp:99-125 | appends exactly one `kMouseClick` entry holding `Row()` and the modifiers to the data; the builder is unchanged |
| MouseClickBuilder.MouseClick.constructor | evget/src/event/mouse_click.cpp:100-121 | a new builder has every field absent and no modifiers |
| MouseClickBuilder.MouseClick.Row | evget/src/event/mouse_click.cpp:100-121 | one text per column of the entry type, in the order of the field-name table, each the formatted optional field |
| MouseClickBuilder.UnsetRowIsEmpty | evget/src/event/mouse_click.cpp:100-121 | a builder whose setters were never called stores "" in every column |
| MouseClickBuilder.RowLayout | evget/src/event/mouse_click.cpp:100-121 | the enumerated fields sit under their named columns and read back as their underlying values; text fields are stored as given |
| MouseScrollBuilder.MouseScroll.Interval | evget/src/event/mouse_scroll.cpp:13-21 | the interval becomes the given optional value (a plain interval as `Some`); no other field changes |
| MouseScrollBuilder.MouseScroll.Timestamp | evget/src/event/mouse_scroll.cpp:23-26 | records the value as present in the `Timestamp` field; no other field changes |
| MouseScrollBuilder.MouseScroll.Device | evget/src/event/mouse_scroll.cpp:28-31 | records the value as present in the `Device` field; no other field changes |
| MouseScrollBuilder.MouseScroll.PositionX | evget/src/event/mouse_scroll.cpp:33-36 | records the value as present in the `PositionX` field; no other field changes |
| MouseScrollBuilder.MouseScroll.PositionY | evget/src/event/mouse_scroll.cpp:38-41 | records the value as present in the `PositionY` field; no other field changes |
| MouseScrollBuilder.MouseScroll.Vertical | evget/src/event/mouse_scroll.cpp:43-46 | records the value as present in the `Vertical` field; no other field changes |
| MouseScrollBuilder.MouseScroll.Horizontal | evget/src/event/mouse_scroll.cpp:48-51 | records the value as present in the `Horizontal` field; no other field changes |
| MouseScrollBuilder.MouseScroll.DeviceName | evget/src/event/mouse_scroll.cpp:53-56 | records the value as present in the `DeviceName` field; no other field changes |
| MouseScrollBuilder.MouseScroll.FocusWindowName | evget/src/event/mouse_scroll.cpp:58-61 | records the value as present in the `FocusWindowName` field; no other field changes |
| MouseScrollBuilder.MouseScroll.FocusWindowPositionX | evget/src/event/mouse_scroll.cpp:63-66 | records the value as present in the `FocusWindowPositionX` field; no other field changes |
| MouseScrollBuilder.MouseScroll.FocusWindowPositionY | evget/src/event/mouse_scroll.cpp:68-71 | records the value as present in the `FocusWindowPositionY` field; no other field changes |
| MouseScrollBuilder.MouseScroll.FocusWindowWidth | evget/src/event/mouse_scroll.cpp:73-76 | records the value as present in the `FocusWindowWidth` field; no other field changes |
| MouseScrollBuilder.MouseScroll.FocusWindowHeight | evget/src/event/mouse_scroll.cpp:78-81 | records the value as present in the `FocusWindowHeight` field; no other field changes |
| MouseScrollBuilder.MouseScroll.Screen | evget/src/event/mouse_scroll.cpp:88-91 | records the value as present in the `Screen` field; no other field changes |
| MouseScrollBuilder.MouseScroll.Modifier | evget/src/event/mouse_scroll.cpp:83-86 | appends the modifier's underlying value after the earlier ones, keeping duplicates; no other field changes |
| MouseScrollBuilder.MouseScroll.Build | evget/src/event/mouse_scroll.cpp:93-116 | appends exactly one `kMouseScroll` entry holding `Row()` and the modifiers to the data; the builder is unchanged |
| MouseScrollBuilder.MouseScroll.constructor | evget/src/event/mouse_scroll.cpp:94-112 | a new builder has every field absent and no modifiers |
| MouseScrollBuilder.MouseScroll.Row | evget/src/event/mouse_scroll.cpp:94-112 | one text per column of the entry type, in the order of the field-name table, each the formatted optional field |
| MouseScrollBuilder.UnsetRowIsEmpty | evget/src/event/mouse_scroll.cpp:94-112 | a builder whose setters were never called stores "" in every column |
| MouseScrollBuilder.RowLayout | evget/src/event/mouse_scroll.cpp:94-112 | the enumerated fields sit under their named columns and read back as their underlying values; text fields are stored as given |
| MouseMoveBuilder.MouseMove.Interval | evget/include/evget/event/entry.h:40-53 | the interval becomes the given optional value (a plain interval as `Some`); no other field changes |
| MouseMoveBuilder.MouseMove.Timestamp | evget/include/evget/event/entry.h:40-53 | records the value as present in the `Timestamp` field; no other field changes |
| MouseMoveBuilder.MouseMove.Device | evget/include/evget/event/entry.h:40-53 | records the value as present in the `Device` field; no other field changes |
| MouseMoveBuilder.MouseMove.PositionX | evget/include/evget/event/entry.h:40-53 | records the value as present in the `PositionX` field; no other field changes |
| MouseMoveBuilder.MouseMove.PositionY | evget/include/evget/event/entry.h:40-53 | records the value as present in the `PositionY` field; no other field changes |
| MouseMoveBuilder.MouseMove.DeviceName | evget/include/evget/event/entry.h:40-53 | records the value as present in the `DeviceName` field; no other field changes |
| MouseMoveBuilder.MouseMove.FocusWindowName | evget/include/evget/event/entry.h:40-53 | records the value as present in the `FocusWindowName` field; no other field changes |
| MouseMoveBuilder.MouseMove.FocusWindowPositionX | evget/include/evget/event/entry.h:40-53 | records the value as present in the `FocusWindowPositionX` field; no other field changes |
| MouseMoveBuilder.MouseMove.FocusWindowPositionY | evget/include/evget/event/entry.h:40-53 | records the value as present in the `FocusWindowPositionY` field; no other field changes |
| MouseMoveBuilder.MouseMove.FocusWindowWidth | evget/include/evget/event/entry.h:40-53 | records the value as present in the `FocusWindowWidth` field; no other field changes |
| MouseMoveBuilder.MouseMove.FocusWindowHeight | evget/include/evget/event/entry.h:40-53 | records the value as present in the `FocusWindowHeight` field; no other field changes |
| MouseMoveBuilder.MouseMove.Screen | evget/include/evget/event/entry.h:40-53 | records the value as present in the `Screen` field; no other field changes |
| MouseMoveBuilder.MouseMove.Modifier | evget/include/evget/event/entry.h:40-53 | appends the modifier's underlying value after the earlier ones, keeping duplicates; no other field changes |
| MouseMoveBuilder.MouseMove.Build | evget/include/evget/event/entry.h:40-53 | appends exactly one `kMouseMove` entry holding `Row()` and the modifiers to the data; the builder is unchanged |
| MouseMoveBuilder.MouseMove.constructor | evget/include/evget/event/entry.h:40-53 | a new builder has every field absent and no modifiers |
| MouseMoveBuilder.MouseMove.Row | evget/include/evget/event/entry.h:40-53 | one text per column of the entry type, in the order of the field-name table, each the formatted optional field |
| MouseMoveBuilder.UnsetRowIsEmpty | evget/include/evget/event/entry.h:40-53 | a builder whose setters were never called stores "" in every column |
| MouseMoveBuilder.RowLayout | evget/include/evget/event/entry.h:40-53 | the enumerated fields sit under their named columns and read back as their underlying values; text fields are stored as given |
| Graphs.Append | evget/include/evget/Event/Graph.h:108-111 | the key's list gains the value at its end, created empty first if the key was absent; every other key keeps its list |
| Graphs.Graph.constructor | evget/include/evget/Event/Graph.h:102-103 | a new graph has no nodes and no edges, and every edge end is a node |
| Graphs.Graph.AddNode | evget/include/evget/Event/Graph.h:120-123 | the node gets an (empty if new) edge map and its data appended even if it already existed; every edge end stays a node |
| Graphs.Graph.AddEdge | evget/include/evget/Event/Graph.h:126-132 | the edge's data list gains the data, creating the edge if absent; both ends become nodes; a new target gets no outgoing edge map |
| Graphs.Graph.AddEmptyNode | evget/include/evget/Event/Graph.h:135-138 | the node and its edge map are created only if absent; existing data is kept |
| Graphs.Graph.AddEmptyEdge | evget/include/evget/Event/Graph.h:141-147 | the edge and both end nodes are created only if absent; existing edge data is kept |
| Graphs.Graph.GetAdjacencyList | evget/include/evget/Event/Graph.h:150-162 | every source in the edge map is listed with all its targets in ascending key order, and nothing else is |
| Graphs.Graph.KeysInOrder | evget/include/evget/Event/Graph.h:153-156 | the targets of one source in the ascending order a `std::map` visits them |
| Ordering.Minimum | evget/include/evget/Event/Graph.h:152 | the least key of a non-empty set, the first one a `std::map` visits |
| Ordering.SortedKeys | evget/include/evget/Event/Graph.h:152-156 | the visiting order lists each key of the set exactly once |
| Ordering.SortedKeysAscending | evget/include/evget/Event/Graph.h:152-156 | the visiting order is strictly ascending |
| Ordering.MinimumUnique | evget/include/evget/Event/Graph.h:152 | a set has at most one least key |
| LockingVectors.LockingVector.constructor | evget/include/evget/async/container/locking_vector.h:120-121 | a new buffer is empty |
| LockingVectors.LockingVector.FromVector | evget/include/evget/async/container/locking_vector.h:123-124 | the buffer starts with exactly the given elements, in order |
| LockingVectors.LockingVector.UnsafePushBack | evget/include/evget/async/container/locking_vector.h:81-84 | the value is appended after every earlier element, which are kept in order |
| LockingVectors.LockingVector.PushBack | evget/include/evget/async/container/locking_vector.h:86-90 | as `UnsafePushBack`; the lock is not modelled |
| LockingVectors.LockingVector.UnsafeIntoInner | evget/include/evget/async/container/locking_vector.h:92-97 | returns everything buffered, in insertion order, as a present value even when empty, and leaves the buffer empty |
| LockingVectors.LockingVector.IntoInner | evget/include/evget/async/container/locking_vector.h:99-103 | as `UnsafeIntoInner`; the lock is not modelled |
| LockingVectors.LockingVector.UnsafeIntoInnerAt | evget/include/evget/async/container/locking_vector.h:105-112 | a value is returned exactly when at least `size` elements are buffered, and then it is all of them and the buffer is emptied; otherwise the buffer is unchanged |
| LockingVectors.LockingVector.IntoInnerAt | evget/include/evget/async/container/locking_vector.h:114-118 | as `UnsafeIntoInnerAt`; the lock is not modelled |
| Migrations.InsertByVersion | evget/src/database/migrate.cpp:15-19 | inserting one migration into a version-sorted list adds exactly that migration |
| Migrations.InsertSorted | evget/src/database/migrate.cpp:15-19 | inserting into a version-sorted list keeps it sorted by version |
| Migrations.SortByVersion | evget/src/database/migrate.cpp:15-19 | the constructor's sort: versions ascending, and the same migrations (a permutation) |
| Migrations.UpToNulPrefix | evget/src/database/migrate.cpp:87-94 | the checksum string is the longest prefix of the SHA-512 digest without a NUL byte |
| Migrations.ReadBackVersions | evget/src/database/migrate.cpp:39-51 | reading the records succeeds exactly when every row has a version and a checksum, giving one record per row; a missing column gives "missing version or checksum" |
| Migrations.PendingIgnoresExtraRecords | evget/src/database/migrate.cpp:102-116 | records beyond the length of the migration list are never compared, and leave nothing to run |
| Migrations.MismatchBlocks | evget/src/database/migrate.cpp:106-113 | a version or checksum mismatch at any recorded index fails with "applied migrations do not match current migrations" |
| Migrations.Inserted | evget/src/database/migrate.cpp:62-70 | the rows the inserts leave in `_migrations`: each migration's version and checksum, in order |
| Migrations.RerunNeedsBooleanVersions | evget/src/database/migrate.cpp:41 | re-running an applied list finds nothing to do exactly when every version is 0 or 1, because versions are read back with `AsBool` |
| Migrations.ExactRecordsRerun | evget/src/database/migrate.cpp:102-116 | records with the exact versions and checksums make a re-run apply nothing |
| Migrations.AppendApplied | evget/src/database/migrate.cpp:102-124 | applying one more migration appends exactly its SQL and record calls |
| Migrations.CommitOnlyLast | evget/src/database/migrate.cpp:128 | in a call trace that extends an earlier one, only the last call can be the commit |
| Migrations.NoCommitApplied | evget/src/database/migrate.cpp:102-124 | applying migrations never commits |
| Migrations.Migrate.constructor | evget/src/database/migrate.cpp:13-20 | the migrations are kept sorted by version and are a permutation of the given ones |
| Migrations.Migrate.CreateMigrationsTable | evget/src/database/migrate.cpp:22-33 | on success exactly the create-table, step and reset calls are made; a failure is the last call made and is returned |
| Migrations.Migrate.GetAppliedMigrations | evget/src/database/migrate.cpp:35-58 | on success the result is every row read back, after exactly one step per row, the final step and the reset; a failed call is the last one and is returned |
| Migrations.Migrate.ReadRows | evget/src/database/migrate.cpp:39-51 | the loop steps once per row plus once past the last, stopping at the first row missing a column |
| Migrations.Migrate.ApplyMigrationSql | evget/src/database/migrate.cpp:77-85 | runs `Exec` for an exec migration, otherwise steps and resets; a failed call is the last one and is returned |
| Migrations.Migrate.InsertRecord | evget/src/database/migrate.cpp:62-73 | prepares the insert, binds version, description and checksum, steps and resets; a failed call is the last one and is returned |
| Migrations.Migrate.ApplyMigration | evget/src/database/migrate.cpp:60-75 | runs the SQL, then inserts the record; nothing is inserted when the SQL fails |
| Migrations.Migrate.ApplyPending | evget/src/database/migrate.cpp:102-126 | fails with the mismatch error, having made no call, exactly when the applied records do not match the sorted migrations; otherwise applies each unapplied migration in order, stopping at the first failure |
| Migrations.Migrate.ApplyNext | evget/src/database/migrate.cpp:118-121 | one unapplied migration: its calls are appended after those of the earlier ones; a failure stops the loop |
| Migrations.Migrate.Run | evget/src/database/migrate.cpp:97-128 | the transaction, table, read, migrations and commit in order; the commit is reached only when reading and matching succeed |
| Migrations.Migrate.BeginAndRead | evget/src/database/migrate.cpp:97-100 | begins the transaction, creates the table and reads the records, stopping at the first failure |
| Migrations.Migrate.ApplyMigrations | evget/src/database/migrate.cpp:96-132 | with no failing calls it succeeds exactly when the records can be read and match; every error ends with a rollback and returns the rollback's own failure or the original error; a commit is the last call on success, or followed only by the rollback when it fails |
| Database.Connection.constructor | evget/src/database/migrate.cpp:13-14 | a fresh connection has made no call and stands before the first row |
| Database.Connection.Issue | evget/src/database/migrate.cpp:97-98 | the call is recorded last, and fails exactly when its position is one of the failing ones |
| Database.Connection.Build | evget/src/database/migrate.cpp:23-30 | records the `BuildQuery` call and rewinds the row cursor |
| Database.Connection.Bind | evget/src/database/migrate.cpp:67-69 | records the bind call, whose result is not looked at |
| Database.Connection.NextRow | evget/src/database/migrate.cpp:39 | records the `Next` call, which reports another row exactly while rows remain |
| Database.Connection.StepAndReset | evget/src/database/migrate.cpp:32 | `NextWhile` then `Reset`, stopping at the first failure, which is the last call made and is returned |
| Storage.StatementsOfMembers | evget/src/storage/database_storage.cpp:53-89 | each entry type has exactly its own insert and modifier-insert statement |
| Storage.StoreStepEmpty | evget/src/storage/database_storage.cpp:48-50 | an entry without data issues, builds and draws nothing |
| Storage.StoreStepData | evget/src/storage/database_storage.cpp:47-95 | an entry with data issues its calls first, then the rest with its statements built |
| Storage.DataBindPositions | evget/src/storage/database_storage.cpp:161-164 | `data[i]` is bound at position `i + 1`, in order, and nothing else is bound |
| Storage.ModifierRows | evget/src/storage/database_storage.cpp:178-188 | the `j`-th modifier row binds a fresh UUID, the entry UUID and `modifiers[j]`, then steps and resets |
| Storage.EntryRouted | evget/src/storage/database_storage.cpp:53-89 | an entry's calls touch only the insert and modifier statements of its own type |
| Storage.BuildsCount | evget/src/storage/database_storage.cpp:147-154 | the two optional builds build each missing statement once and nothing else |
| Storage.EntryBuilds | evget/src/storage/database_storage.cpp:126-134 | an entry's calls build each of its type's statements once if not built yet, and no other statement |
| Storage.BuiltOnce | evget/src/storage/database_storage.cpp:38-95 | within one `StoreEvent` a statement is built exactly once if an entry of its type has data, never otherwise |
| Storage.EmptyEntriesSkipped | evget/src/storage/database_storage.cpp:48-50 | storing the entries is storing those with data alone |
| Storage.StoreCallsWithin | evget/src/storage/database_storage.cpp:47-95 | the loop works only on the statements of the types of the entries with data |
| Storage.FailedStoreLeavesTransactionOpen | evget/src/storage/database_storage.cpp:92-99 | a failed `StoreEvent` issues no rollback, and a commit only as the failing call |
| Storage.DatabaseStorage.constructor | evget/src/storage/database_storage.cpp:28-29 | the storage keeps the connection and database name it was given, and has drawn no UUID |
| Storage.DatabaseStorage.NewUuid | evget/src/storage/database_storage.cpp:136 | draws the next UUID of the generator |
| Storage.DatabaseStorage.SetOptionalStatement | evget/src/storage/database_storage.cpp:147-154 | builds the statement exactly when it is not built yet, and marks it built |
| Storage.DatabaseStorage.BindValues | evget/src/storage/database_storage.cpp:156-171 | binds the entry UUID at 0 and the data after it, then steps and resets, stopping at the first failure |
| Storage.DatabaseStorage.BindValuesModifier | evget/src/storage/database_storage.cpp:173-191 | one row per modifier in list order, each with a fresh UUID, stopping at the first failure |
| Storage.DatabaseStorage.BindModifier | evget/src/storage/database_storage.cpp:179-187 | one modifier row: a fresh UUID, three binds, then step and reset |
| Storage.DatabaseStorage.InsertEvents | evget/src/storage/database_storage.cpp:126-145 | builds the type's statements if needed, then inserts the entry and its modifiers; the modifiers are skipped when the entry's insert fails |
| Storage.DatabaseStorage.StoreEntry | evget/src/storage/database_storage.cpp:47-95 | one loop step: the entry is inserted with its type's statements when it has data, skipped otherwise |
| Storage.DatabaseStorage.StoreEntries | evget/src/storage/database_storage.cpp:47-95 | every entry in order, stopping at the first failure |
| Storage.DatabaseStorage.StoreEvent | evget/src/storage/database_storage.cpp:31-101 | the calls made are those of the successful run (connect, transaction, each entry with data, commit) up to and including the first that fails, whose error is returned |
| Storage.DatabaseStorage.OpenAndStore | evget/src/storage/database_storage.cpp:33-100 | the transaction, the entries and the commit, stopping at the first failure |
| Storage.DatabaseStorage.StoreAndCommit | evget/src/storage/database_storage.cpp:37-100 | the entries, then the commit, stopping at the first failure |
| Storage.DatabaseStorage.Init | evget/src/storage/database_storage.cpp:103-124 | connects, then applies the single schema migration; a failed connect is returned as the only call, any later failure ends with a rollback |
| Storage.FreshDatabaseInit | evget/src/storage/database_storage.cpp:110-118 | on an empty database the schema migration is applied once |
| Storage.InitializedDatabaseInit | evget/src/storage/database_storage.cpp:110-118 | once the schema migration's record is stored, `Init` applies nothing |
| Cli.EndsWithAnyMember | evget/src/cli.cpp:95-96 | an output ends with one of the listed suffixes exactly when some suffix in the list is a suffix of it |
| Cli.StorageTypeBySuffix | evget/src/cli.cpp:94-101 | an output is stored in SQLite exactly when it ends with ".sqlite", ".sqlite3", ".db", ".db3", ".s3db" or ".sl3", and as JSON otherwise |
| Cli.SqliteSuffixDetected | evget/src/cli.cpp:95-97 | any name followed by a SQLite suffix is stored in SQLite |
| Cli.DotlessIsJson | evget/src/cli.cpp:100 | an output without a dot, such as "-", is a JSON store |
| Cli.SuffixIgnoresCase | evget/src/cli.cpp:69-72 | since outputs are lower-cased when recorded, a SQLite suffix is recognised in any capitalisation |
| Cli.LowerAll | evget/src/cli.cpp:69-72 | every value lower-cased, in order |
| Cli.ParsedOutputsOfValues | evget/src/cli.cpp:62-89 | parsing keeps the `--output` values in order and lower-cased, and yields exactly ["-"] when there are none |
| Cli.ParsedOutputsLower | evget/src/cli.cpp:69-72 | every parsed output is already lower case |
| Cli.StoresInOrder | evget/src/cli.cpp:103-139 | `ToStores` succeeds exactly when no SQLite `Init` fails, and then yields one store per output, in order, of the output's storage type |
| Cli.FirstFailureReturned | evget/src/cli.cpp:112-115 | a failing `ToStores` returns the error of the first output whose `Init` fails |
| Cli.FailureIsFinal | evget/src/cli.cpp:113-115 | once a prefix has failed, the whole list fails with the same error |
| Cli.Cli.constructor | evget/src/cli.cpp:28-30 | no output is recorded and logging is on |
| Cli.Cli.RecordOutput | evget/src/cli.cpp:64-73 | the value is appended lower-cased; logging is switched off when the value as given is "-" |
| Cli.Cli.Parse | evget/src/cli.cpp:62-89 | the recorded outputs are the values lower-cased in order, or ["-"] when none was given; logging is off when "-" was given or no value was |
| Cli.Cli.ToStores | evget/src/cli.cpp:103-139 | the loop yields the stores of the outputs in order and stops at the first failing `Init` |
| CliOptions.FirstPresent | include/evget/CommandLine/AbstractOption.h:550-557 | a result is a listed name that is present and that no earlier listed name precedes as present; none exactly when no listed name is present |
| CliOptions.ConfigOf | include/evget/CommandLine/AbstractOption.h:287-319 | fails exactly when both names are empty; otherwise keeps the settings, keys the short name with a dash, registers a positional under the long key or else the short key, and appends the option's own name to a non-empty at-least list |
| CliOptions.CheckInvariants | include/evget/CommandLine/AbstractOption.h:389-393 | fails exactly when the option has neither a default nor `required` |
| CliOptions.ValueFromVm | include/evget/CommandLine/AbstractOption.h:397-405 | the non-empty value under the long key, else under the short key, else none |
| CliOptions.CheckedOkIff | include/evget/CommandLine/AbstractOption.h:322-341 | `run` succeeds exactly when no conflicting option is present alongside the option itself, the at-least rule holds when set, and a value remains |
| CliOptions.PresentMeetsAtLeast | include/evget/CommandLine/AbstractOption.h:316-318 | an option that is itself present always meets its own at-least rule |
| CliOptions.ValidatedKeepsValue | include/evget/CommandLine/OptionValidated.h:79-90 | a validated option whose text is absent or empty keeps its current value |
| CliOptions.ValidatedTakesValidatorValue | include/evget/CommandLine/OptionValidated.h:79-90 | a non-empty text sets the validator's value, and the parse fails exactly when the validator rejects it |
| CliOptions.DefaultAndImplicitUnreachable | include/evget/CommandLine/OptionValidated.h:93-103 | the default-and-implicit branch is never taken; a default is registered when present, an implicit value only without a default |
| CliOptions.RepresentationFor | clioption/include/clioption/OptionBuilder.h:351-366 | the builder's text is handed over exactly when it was set or the type cannot be streamed |
| CliOptions.CommandLineOption.constructor | include/evget/CommandLine/AbstractOption.h:302 | the option's value starts as its default |
| CliOptions.CommandLineOption.CheckPresence | include/evget/CommandLine/AbstractOption.h:550-557 | the loop returns `FirstPresent`: the first name in list order that is present, or none when no name is |
| CliOptions.CommandLineOption.ParseValue | include/evget/CommandLine/AbstractOption.h:344-346 | the value becomes the one the option's parser reads from the variables map, or the parse error is returned |
| CliOptions.CommandLineOption.Run | include/evget/CommandLine/AbstractOption.h:322-341 | parses the value, then fails on a conflict, then on an unmet at-least rule, then on a missing value, in that order |
| CliOptions.NewValidated | include/evget/CommandLine/OptionValidated.h:58-76 | fails exactly when the option constructor fails or the option has neither a default nor `required`; otherwise registers the description with the given or streamed representation |
| CliOptions.OptionBuilder.constructor | clioption/include/clioption/OptionBuilder.h:216-231 | a fresh builder: no names, no lists, no values, nothing set |
| CliOptions.OptionBuilder.ShortName | clioption/include/clioption/OptionBuilder.h:234-237 | sets only the one-character short name |
| CliOptions.OptionBuilder.LongName | clioption/include/clioption/OptionBuilder.h:240-243 | sets only the long name |
| CliOptions.OptionBuilder.Description | clioption/include/clioption/OptionBuilder.h:246-249 | sets only the description |
| CliOptions.OptionBuilder.Representation | clioption/include/clioption/OptionBuilder.h:252-256 | sets the representation text and marks it set, nothing else |
| CliOptions.OptionBuilder.Required | clioption/include/clioption/OptionBuilder.h:259-262 | sets only `required` |
| CliOptions.OptionBuilder.Multitoken | clioption/include/clioption/OptionBuilder.h:265-268 | sets only `multitoken` |
| CliOptions.OptionBuilder.DefaultValue | clioption/include/clioption/OptionBuilder.h:309-312 | sets only the default value |
| CliOptions.OptionBuilder.ImplicitValue | clioption/include/clioption/OptionBuilder.h:315-318 | sets only the implicit value |
| CliOptions.OptionBuilder.Positional | clioption/include/clioption/OptionBuilder.h:322-326 | sets the positional amount and description together, nothing else |
| CliOptions.OptionBuilder.ConflictsWith | clioption/include/clioption/OptionBuilder.h:271-280 | appends the names to the conflict list, in order |
| CliOptions.OptionBuilder.AtLeast | clioption/include/clioption/OptionBuilder.h:283-292 | appends the names to the at-least list, in order |
| CliOptions.OptionBuilder.AtLeastExcept | clioption/include/clioption/OptionBuilder.h:295-306 | appends the names to the at-least list and the exceptions to the except list |
| CliOptions.OptionBuilder.BuildValidated | clioption/include/clioption/OptionBuilder.h:351-366 | builds the validated option from the collected settings, failing exactly when the option constructor or the invariant check fails |
| CliOptions.NoDefaultAndNotRequired | include/evget/CommandLine/AbstractOption.h:389-393 | an option built with only a short name is refused: it has neither a default nor `required` |
| CliOptions.RepresentationWins | clioption/include/clioption/OptionBuilder.h:354-357 | a streamable option with a set representation and a default registers that representation, not the streamed value |
| CoreParser.FiletypeText | evgetcore/src/CoreParser.cpp:54-62 | a filetype is written as "sqlite" or "csv" |
| CoreParser.ReadFiletype | evgetcore/src/CoreParser.cpp:64-77 | reading succeeds exactly when the lower-cased word is "sqlite" or "csv", and gives the filetype written so; any other word, the empty one included, is an invalid "filetype" value carrying the word |
| CoreParser.FiletypeRoundTrip | evgetcore/src/CoreParser.cpp:54-77 | reading back a written filetype gives the same filetype |
| CoreParser.ReadFiletypeIgnoresCase | evgetcore/src/CoreParser.cpp:67 | a filetype name is read in any capitalisation |
| CoreParser.ValidateLogLevel | evgetcore/src/CoreParser.cpp:229-239 | "off" and "o" in any case give off; other text that `from_str` maps to off is rejected; anything else is `from_str`'s level for the lower-cased text |
| CoreParser.ValidateLogLevelIgnoresCase | evgetcore/src/CoreParser.cpp:230 | the capitalisation of the level text never matters |
| CoreParser.LevelNames | evgetcore/src/CoreParser.cpp:216-226 | the seven level names in the order trace, debug, info, warn, err, critical, off |
| CoreParser.ValidLogLevels | src/CommandLine/CommandLine.cpp:190-211 | the loop writes the names joined by ", " between "[ " and " ]" |
| CoreParser.LevelListsAgree | evgetcore/src/CoreParser.cpp:216-226 | the formatted list and the loop-built list are the same text |
| CoreParser.ConfigLine | evgetcore/src/CoreParser.cpp:262-273 | a config line is never empty and ends with a newline |
| CoreParser.FirstEquals | evgetcore/src/CoreParser.cpp:178 | the first '=' of a config line, or none when it has no '=' |
| CoreParser.ConfigLineReadsBack | evgetcore/src/CoreParser.cpp:262-273 | a config line reads back as the option's long name and value, unless the option is required, when it is a comment |
| CoreParser.CoreOptions | evgetcore/src/CoreParser.cpp:280-284 | the five config-file options, in the order the file lists them |
| CoreParser.FormatConfigFile | evgetcore/src/CoreParser.cpp:275-287 | the comment, a blank line, then the five option lines in order |
| CoreParser.CoreOptionsSettings | evgetcore/src/CoreParser.cpp:107-146 | every line of the generated file is a live setting naming folder, filetypes, print, use-system-events and log-level in that order, with their defaults as values |
| CoreParser.FileName | src/CommandLine/CommandLine.cpp:222-223 | the file name of a path: the text after its last '/' |
| CoreParser.LastDot | src/CommandLine/CommandLine.cpp:223 | the last '.' of a file name, or none |
| CoreParser.Extension | src/CommandLine/CommandLine.cpp:223 | an extension is empty or starts with '.' |
| CoreParser.ExtensionOfDotted | src/CommandLine/CommandLine.cpp:223 | the extension of "base.ext" is ".ext" when "ext" holds no '.' or '/' |
| CoreParser.ExtensionSelectsFiletype | src/CommandLine/CommandLine.cpp:221-235 | "base.ext" selects csv exactly when "ext" reads as csv in any capitalisation, and sqlite otherwise |
| CoreParser.NoExtensionIsSqlite | src/CommandLine/CommandLine.cpp:221-235 | a file name without an extension selects sqlite |
| CoreParser.FileNameAppend | src/CommandLine/CommandLine.cpp:222-223 | appending text without a '/' extends the file name by that text |
| CoreParser.LastDotAfter | src/CommandLine/CommandLine.cpp:223 | the last '.' of "stem.ext" is the one before "ext" when "ext" has none |
| DeviceOrder.RunLength | listinputdevices/src/InputDevice.cpp:102 | the length of the maximal run of digits, or of non-digits, that starts the text |
| DeviceOrder.Tokens | listinputdevices/src/InputDevice.cpp:102-108 | the matches of `\d+\|\D+`: non-empty tokens, each all digits or digit-free |
| DeviceOrder.TokensSpellPath | listinputdevices/src/InputDevice.cpp:102-108 | the tokens spell the whole path in order, and neighbouring tokens are of different kinds |
| DeviceOrder.TokensOfTwoRuns | listinputdevices/src/InputDevice.cpp:102-108 | a run of non-digits followed by a run of digits is two tokens |
| DeviceOrder.RunLengthOfRun | listinputdevices/src/InputDevice.cpp:102 | a run of one kind that ends at `k` has length `k` |
| DeviceOrder.FirstLess | listinputdevices/src/InputDevice.cpp:110-121 | the token loop answers only less or unordered |
| DeviceOrder.FirstLessExists | listinputdevices/src/InputDevice.cpp:110-121 | the token loop answers less exactly when some pair of tokens at the same position compares less |
| DeviceOrder.CompareOutcomes | platform/linux/src/EventDevice.cpp:85-121 | the comparison is never equivalent; greater exactly when only the other device is ahead on links; less exactly when this device is ahead on links, or neither is and some token pair compares less |
| DeviceOrder.CrossedLinksBothLess | listinputdevices/src/InputDevice.cpp:91-94 | a device with only a by-id link and one with only a by-path link each compare less than the other |
| DeviceOrder.NumberedNodes | platform/linux/src/EventDevice.cpp:109-117 | paths differing only in a trailing number: the platform version orders by number; the lister's also calls the first less when its number's text sorts first |
| DeviceOrder.TwoTokens | listinputdevices/src/InputDevice.cpp:110-121 | token lists sharing a first non-numeric token are decided by their second tokens |
| DeviceOrder.NumberTokensLess | listinputdevices/src/InputDevice.cpp:114-116 | the platform version compares numbers by value; the lister's by value or by text |
| DeviceOrder.NodeTokens | listinputdevices/src/InputDevice.cpp:99-108 | a lower-cased node path is two tokens, its word and its number |
| DeviceOrder.StolOfNatToString | listinputdevices/src/InputDevice.cpp:115 | `stol` reads back the decimal text of a natural number |
| DeviceOrder.NodeNumberOrder | listinputdevices/src/InputDevice.cpp:90-122 | "event10" and "event9" are each less than the other in the lister's version; the platform version puts event9 first; event3 precedes event4 in both |
| DeviceOrder.CompareDevices | listinputdevices/src/InputDevice.cpp:90-122 | the loop over the two token lists gives the comparison's answer |
| DeviceOrder.Blank | listinputdevices/src/InputDevice.cpp:134 | a run of `n` spaces |
| DeviceOrder.Rendered | listinputdevices/src/InputDevice.cpp:138-141 | each capability rendered, in order |
| DeviceOrder.ListingThrows | listinputdevices/src/InputDevice.cpp:124-134 | the listing fails exactly when the name or path is longer than its column (the unsigned space count would underflow), or, in the lister's version, when a by-path link is shown with a maximum name size below 2 |
| DeviceOrder.ListingColumns | platform/linux/src/EventDevice.cpp:123-142 | the name starts the line, the path starts at column `4 + maxNameSize` and the capabilities at `8 + maxNameSize + maxPathSize` |
| DeviceOrder.LineColumns | platform/linux/src/EventDevice.cpp:133 | where each part of a padded line starts |
| DeviceOrder.LinkArrowsAligned | listinputdevices/src/InputDevice.cpp:145-152 | both link lines of both versions put their "<- " at column `7 + maxNameSize` |
| DeviceOrder.WriteCapabilities | platform/linux/src/EventDevice.cpp:135-141 | the loop writes each capability but the last followed by ", ", then the last, between "capabilities = [" and "]" |
| DeviceOrder.DeviceListing.constructor | platform/linux/src/EventDevice.cpp:37-38 | both column sizes start at 0 |
| DeviceOrder.DeviceListing.SetMaxNameSize | platform/linux/src/EventDevice.cpp:73-75 | sets the name column size |
| DeviceOrder.DeviceListing.SetMaxPathSize | platform/linux/src/EventDevice.cpp:81-83 | sets the path column size |
| DeviceOrder.DeviceListing.Write | platform/linux/src/EventDevice.cpp:123-143 | the device's line with the current column sizes |
| DeviceOrder.DeviceListing.WriteLinks | platform/linux/src/EventDevice.cpp:144-152 | the by-id line, then the by-path line unless the by-id line failed |
| XDeviceRefresh.FormatValueReadsBack | evgetx11/src/XDeviceRefresh.cpp:88-90 | the empty text stands for zero and only zero; any other value reads back from its text |
| XDeviceRefresh.At | evgetx11/src/XDeviceRefresh.cpp:111-121 | a lookup succeeds exactly for a registered key, and gives its value |
| XDeviceRefresh.DeviceRefresh.constructor | evgetx11/src/XDeviceRefresh.cpp:101-109 | the three registries start empty |
| XDeviceRefresh.DeviceRefresh.RefreshDevices | evgetx11/src/XDeviceRefresh.cpp:101-109 | the type and name are registered unless the id already has them; the device is then known |
| XDeviceRefresh.DeviceRefresh.GetDevice | evgetx11/src/XDeviceRefresh.cpp:111-113 | the registered type, failing exactly for an unknown id |
| XDeviceRefresh.DeviceRefresh.GetNameFromId | evgetx11/src/XDeviceRefresh.cpp:115-117 | the registered name, failing for an unknown id |
| XDeviceRefresh.DeviceRefresh.GetEvtypeName | evgetx11/src/XDeviceRefresh.cpp:119-121 | the registered event-type name, failing for an unknown type |
| XDeviceRefresh.DeviceRefresh.SetDevice | evgetx11/src/XDeviceRefresh.cpp:123-125 | registers the type unless the id has one |
| XDeviceRefresh.DeviceRefresh.SetNameFromId | evgetx11/src/XDeviceRefresh.cpp:127-129 | registers the name unless the id has one |
| XDeviceRefresh.DeviceRefresh.SetEvtypeName | evgetx11/src/XDeviceRefresh.cpp:131-133 | registers the name unless the event type has one |
| XDeviceRefresh.DeviceRefresh.SwitchOnEvent | evgetx11/src/XDeviceRefresh.cpp:139-145 | takes no event |
| XDeviceRefresh.DeviceRefresh.CreateSystemData | evgetx11/src/XDeviceRefresh.cpp:59-86 | a fresh, empty row set |
| XDeviceRefresh.FirstRegistrationWins | evgetx11/src/XDeviceRefresh.cpp:107-108 | registering an id twice keeps the first type, which the getter then returns |
| EventFields.FirstNamed | src/EventData/EventData.cpp:75 | the position of the first field with the name, or none exactly when no field has it |
| EventFields.WithEntryKeepsLookup | src/EventData/EventData.cpp:64-72 | setting an entry keeps the number and names of the fields, so every lookup by name finds the same position |
| EventFields.SetThenGetByName | src/EventData/EventData.cpp:52-67 | a field set by name is the one a later lookup by that name returns, holding the new entry |
| EventFields.UnsetLookup | src/EventData/EventData.cpp:33-38 | built from names, the first field with a listed name is that name's first occurrence, with an empty entry |
| EventFields.EventData.FromFields | src/EventData/EventData.cpp:30-31 | keeps the given fields in order |
| EventFields.EventData.FromNames | src/EventData/EventData.cpp:33-38 | one unset field per name, in order |
| EventFields.EventData.NumberOfFields | src/EventData/EventData.cpp:48-50 | the number of fields |
| EventFields.EventData.ReferenceByName | src/EventData/EventData.cpp:74-80 | the first field with the name, or "<name> not in event data." exactly when there is none |
| EventFields.EventData.ReferenceAtPosition | src/EventData/EventData.cpp:82-86 | the position when it is in range, or "<position> index out of range." otherwise |
| EventFields.EventData.GetByName | src/EventData/EventData.cpp:52-54 | a copy of the first field with the name, failing as the reference lookup does |
| EventFields.EventData.GetAtPosition | src/EventData/EventData.cpp:56-58 | a copy of the field at the position, failing as the reference lookup does |
| EventFields.EventData.SetForName | src/EventData/EventData.cpp:64-67 | the first field with the name gets the entry and nothing else changes; fails exactly when no field has the name |
| EventFields.EventData.SetAtPosition | src/EventData/EventData.cpp:69-72 | the field at the position gets the entry and nothing else changes; fails exactly when out of range |
| SystemEvents.SomeSubmissionRaises | include/evget/SystemEventLoop.h:102-108 | over a run of submissions some one raises exactly when there is a device and the first `nDevices` outcomes are all false |
| SystemEvents.SystemEventLoop.constructor | include/evget/SystemEventLoop.h:111-112 | no outcome and no listener yet |
| SystemEvents.SystemEventLoop.SubmitOutcome | include/evget/SystemEventLoop.h:102-108 | the outcome is kept, and the call fails exactly when every device has reported and none was set |
| SystemEvents.SystemEventLoop.RegisterSystemEventListener | include/evget/SystemEventLoop.h:97-99 | the listener is added last |
| SystemEvents.SystemEventLoop.Notify | include/evget/SystemEventLoop.h:90-94 | the event goes to every listener, in registration order |
| SystemEvents.DeliveriesInOrder | include/evget/SystemEventLoop.h:90-94 | one delivery per listener, in the order they registered |
| Intervals.IntervalOf | evgetx11/include/evgetx11/event_transformer.h:145-155 | an interval is reported exactly when there was a previous event no later than this one, and then it is the non-negative time since it |
| Intervals.IntervalTracker.constructor | evgetx11/include/evgetx11/event_transformer.h:145-148 | no event seen yet |
| Intervals.IntervalTracker.GetInterval | evgetx11/include/evgetx11/event_transformer.h:145-155 | the interval since the previous event (none for the first event or a clock that went back), and the event's time becomes the previous one |
| Intervals.Intervals | evgetx11/include/evgetx11/event_transformer.h:145-155 | one interval per event of a run |
| Intervals.IntervalsTelescope | evgetx11/include/evgetx11/event_transformer.h:145-155 | for a clock that never goes back every interval after the first event is present, and they add up to the time from first to last |
| Intervals.ClockRestarts | evgetx11/include/evgetx11/event_transformer.h:146-148 | a first event or a clock that went back restarts the clock; the next interval is measured from it |
| XTransformer.TypeOfNames | evgetx11/include/evgetx11/event_transformer.h:110-120 | the mouse and keyboard names give those types, the touchpad name gives touchscreen and the touchscreen name touchpad, and no other name gives any of them |
| XTransformer.Xi2IndexKeys | evgetx11/include/evgetx11/event_transformer.h:93-96 | the XInput2 index holds exactly the listed ids |
| XTransformer.Xi2IndexFirst | evgetx11/include/evgetx11/event_transformer.h:94-95 | each id is indexed with the first device listed under it |
| XTransformer.FirstUnknown | evgetx11/include/evgetx11/event_transformer.h:98-106 | the position of the first device without an XInput2 twin, where `at` throws, or the list's length |
| XTransformer.DevicesFirstWins | evgetx11/include/evgetx11/event_transformer.h:108-123 | a registered device keeps its first type; an unregistered id is registered exactly when some visited device with it is enabled and typed, with the type of the first such device |
| XTransformer.IndexXi2 | evgetx11/include/evgetx11/event_transformer.h:93-96 | the loop builds the XInput2 index |
| XTransformer.SwitchesDisjoint | evgetx11/include/evgetx11/event_transformer.h:169-191 | no event type is taken by both switches, and an event neither takes records nothing |
| XTransformer.EventTransformer.constructor | evgetx11/include/evgetx11/event_transformer.h:72-75 | a transformer with empty registries, no pointer and a fresh clock |
| XTransformer.RegistriesAfterRegistry | evgetx11/include/evgetx11/event_transformer.h:122-123 | the transformer's own registries after a refresh are those that `emplace` leaves, the ones `DevicesFirstWins` describes |
| XTransformer.RefreshKeepsOthers | evgetx11/include/evgetx11/event_transformer.h:98-141 | an id that no visited device registers under keeps its place in the registry, its scroll classes and both axes |
| XTransformer.RegisterStepKeepsOthers | evgetx11/include/evgetx11/event_transformer.h:108-140 | registering one device touches no other id's registry entry, scroll classes or axes |
| XTransformer.RefreshPointersAgree | evgetx11/include/evgetx11/event_transformer.h:126-136 | both switches are handed the same pointer by every registration, so switches that agreed on the pointer id before a refresh agree after it |
| XTransformer.EventTransformer.RefreshDevices | evgetx11/include/evgetx11/event_transformer.h:80-142 | succeeds exactly when every listed device has an XInput2 twin; the transformer's registries, both switches' pointer ids, the shared button map and the scroll and axis maps are those after registering the devices up to the first without one, and the pointer is the last X pointer seen, that device included |
| XTransformer.EventTransformer.VisitDevices | evgetx11/include/evgetx11/event_transformer.h:98-141 | returns the position of the first device without a twin; the pointer is the last X pointer seen up to and including it, and all the registries are those after registering the devices before it |
| XTransformer.EventTransformer.Register | evgetx11/include/evgetx11/event_transformer.h:108-140 | an enabled, typed device has its type and name emplaced, both switches adopt the pointer seen so far, and its button names, scroll classes and axes are stored; any other device changes nothing |
| XTransformer.EventTransformer.TransformEvent | evgetx11/include/evgetx11/event_transformer.h:158-194 | an event without data gives empty data and changes neither the registries nor the switches; a device change refreshes the registries and both switches' state and gives empty data or the refresh's error; any other event gives what the switches record, changes only the touch button map as the touch switch does, and at most adds an empty axis entry for the event's device |
| XTransformer.EventTransformer.Dispatch | evgetx11/include/evgetx11/event_transformer.h:169-191 | the pointer-and-key switch first, then the touch switch; the data gains what the taking switch records, the clock moves only when something is recorded, and the axis maps at most gain an empty entry for the event's device |
| XTransformer.EventTransformer.DispatchMotion | evgetx11/include/evgetx11/event_transformer.h:169-191 | a motion goes to the pointer-and-key switch; the touch button map is unchanged |
| XTransformer.EventTransformer.DispatchOther | evgetx11/include/evgetx11/event_transformer.h:169-191 | any other event passes the pointer-and-key switch and goes to the touch switch |
| XTransformer.EventTransformer.DispatchKeyOrButton | evgetx11/include/evgetx11/event_transformer.h:169-191 | key and button events go to the pointer-and-key switch, which may fail on an unknown device |
| XEventSwitch.HeldMembers | evgetx11/include/evgetx11/event_switch.h:131-154 | a modifier is held exactly when it is listed and its mask bit is set |
| XEventSwitch.HeldAscending | evgetx11/include/evgetx11/event_switch.h:131-154 | the held modifiers come in ascending order of underlying value |
| XEventSwitch.MaskInLowByte | evgetx11/include/evgetx11/event_switch.h:131-154 | only the low byte of the state decides whether a modifier is held |
| XEventSwitch.ModifiersOfState | evgetx11/include/evgetx11/event_switch.h:128-157 | a modifier is recorded exactly when its mask bit is set, in ascending order and so never twice; bits above the eight modifier bits are ignored |
| XEventSwitch.NoModifiers | evgetx11/include/evgetx11/event_switch.h:128-157 | a state without modifier bits records no modifier |
| XEventSwitch.ModifierTexts | evgetx11/include/evgetx11/event_switch.h:131-154 | each modifier as the text of its underlying value, in order |
| XEventSwitch.WindowFieldsOf | evgetx11/include/evgetx11/event_switch.h:168-171 | with no window no window field is set |
| XEventSwitch.ActiveWindowWins | evgetx11/include/evgetx11/event_switch.h:161-166 | the active window wins over the focus window whenever there is one |
| XEventSwitch.RowOf | evgetx11/include/evgetx11/event_switch.h:221 | one text per column, each the column's text for the event |
| XEventSwitch.ColumnsOf | evget/include/evget/event/entry.h:40-79 | every kind of entry starts with the twelve move columns: interval first, device name fifth, window size ninth and tenth, device type twelfth |
| XEventSwitch.RecordedColumn | evgetx11/include/evgetx11/event_switch.h:221 | column `i` of a recorded event holds the text of the `i`-th field of its kind |
| XEventSwitch.RecordedLayout | evgetx11/include/evgetx11/event_switch.h:209-221 | a recorded event holds the interval first, the device name fifth, and one modifier text per held modifier |
| XEventSwitch.RecordedDeviceType | evgetx11/include/evgetx11/event_switch.h:212 | a recorded event holds its device type as the underlying number, in the twelfth column |
| XEventSwitch.RecordedWindowSize | evgetx11/include/evgetx11/event_switch.h:186-189 | the window height column is filled exactly when the width column is |
| XEventSwitch.RecordedButtonLayout | evgetx11/include/evgetx11/event_switch.h:242 | a recorded click or key holds the button's name |
| XEventSwitch.RecordedKeyCharacter | evgetx11/include/evgetx11/event_switch_pointer_key.h:166 | a recorded key holds its character in the last of its sixteen columns |
| XEventSwitch.RecordedAction | evgetx11/include/evgetx11/event_switch.h:240 | a recorded click or key holds its action as the underlying number |
| XEventSwitch.RecordedClickButton | evgetx11/include/evgetx11/event_switch.h:241 | a recorded click holds the button's number as decimal text |
| XEventSwitch.MoveRowOf | evgetx11/include/evgetx11/event_switch.h:209-221 | a builder holding the event's fields builds the recorded mouse move |
| XEventSwitch.ClickRowOf | evgetx11/include/evgetx11/event_switch.h:234-248 | a builder holding the click's fields builds the recorded click |
| XEventSwitch.ScrollRowOf | evgetx11/include/evgetx11/event_switch_pointer_key.h:191-224 | a builder holding the scroll's fields builds the recorded scroll |
| XEventSwitch.KeyRowOf | evgetx11/include/evgetx11/event_switch_pointer_key.h:158-174 | a builder holding the key's fields builds the recorded key |
| XEventSwitch.EventSwitch.constructor | evgetx11/src/XEventSwitch.cpp:78 | no device, no name, no button map, pointer id 0 |
| XEventSwitch.EventSwitch.GetDevice | evgetx11/src/XEventSwitch.cpp:25-27 | the registered type, failing exactly for an unknown device |
| XEventSwitch.EventSwitch.GetButtonName | evgetx11/src/XEventSwitch.cpp:80-82 | the stored name, failing exactly when the device or button has none |
| XEventSwitch.EventSwitch.SetButtonMap | evgetx11/src/XEventSwitch.cpp:33-45 | each labelled button whose label has a name is stored under the number the server maps it to; later labels overwrite earlier ones |
| XEventSwitch.EventSwitch.RefreshDevices | evgetx11/src/XEventSwitch.cpp:47-76 | adopts a given pointer id, registers the device and name unless known, and sets button names from the first button class when it has buttons |
| XEventSwitch.EventSwitch.FinishMove | evgetx11/include/evgetx11/event_switch.h:212-221 | once the device is known: sets the rest and appends the recorded move, or fails with nothing appended for a device without a name |
| XEventSwitch.EventSwitch.AddMotionEvent | evgetx11/include/evgetx11/event_switch.h:201-222 | records one mouse move of the event's device at the pointer position with the clock's interval; fails exactly for an unknown device, appending nothing |
| XEventSwitch.EventSwitch.SetClickFields | evgetx11/include/evgetx11/event_switch.h:237-242 | device, position, action, button and name set as the chain sets them |
| XEventSwitch.EventSwitch.FinishClick | evgetx11/include/evgetx11/event_switch.h:237-248 | once the device is known: sets the rest and appends the recorded click, or fails with nothing appended |
| XEventSwitch.EventSwitch.ReadButtonName | evgetx11/include/evgetx11/event_switch.h:242 | `operator[]` reads the stored name, storing an empty one for a button not seen before |
| XEventSwitch.EventSwitch.AddButtonEvent | evgetx11/include/evgetx11/event_switch.h:224-249 | records one click with the action, button and its name; fails exactly for an unknown device, appending nothing and leaving the button map alone |
| XEventSwitch.WithDefaultNameReads | evgetx11/include/evgetx11/event_switch.h:242 | `operator[]` leaves the device and button present, reads the stored name or stores and reads "", and changes nothing else |
| XEventSwitch.ButtonNamesLookup | evgetx11/src/XEventSwitch.cpp:36-43 | after `SetButtonMap` a button carries the name of the last named label mapped to it; other buttons and devices keep theirs |
| XEventSwitch.EventSwitch.SetModifierValueMove | evgetx11/include/evgetx11/event_switch.h:128-157 | the builder gains one modifier text per held modifier, in ascending order; nothing else changes |
| XEventSwitch.EventSwitch.AddModifiersMove | evgetx11/include/evgetx11/event_switch.h:131-154 | one `Modifier` call per value, in order |
| XEventSwitch.EventSwitch.SetWindowFieldsMove | evgetx11/include/evgetx11/event_switch.h:159-192 | the active window, else the focus window, supplies name, position and size where the server reports them; with no window nothing changes |
| XEventSwitch.EventSwitch.SetDeviceNameFieldsMove | evgetx11/include/evgetx11/event_switch.h:194-199 | sets the device's registered name and the screen, failing as `at` does, with nothing set, for an unknown device |
| XEventSwitch.EventSwitch.DecorateMove | evgetx11/include/evgetx11/event_switch.h:216-219 | the modifiers, window fields, device name and screen set in turn; fails exactly for a device without a registered name |
| XEventSwitch.RecordMove | evgetx11/include/evgetx11/event_switch.h:221 | `Build` appends exactly the recorded entry of the event |
| XEventSwitch.EventSwitch.SetModifierValueClick | evgetx11/include/evgetx11/event_switch.h:128-157 | the builder gains one modifier text per held modifier, in ascending order; nothing else changes |
| XEventSwitch.EventSwitch.AddModifiersClick | evgetx11/include/evgetx11/event_switch.h:131-154 | one `Modifier` call per value, in order |
| XEventSwitch.EventSwitch.SetWindowFieldsClick | evgetx11/include/evgetx11/event_switch.h:159-192 | the active window, else the focus window, supplies name, position and size where the server reports them; with no window nothing changes |
| XEventSwitch.EventSwitch.SetDeviceNameFieldsClick | evgetx11/include/evgetx11/event_switch.h:194-199 | sets the device's registered name and the screen, failing as `at` does, with nothing set, for an unknown device |
| XEventSwitch.EventSwitch.DecorateClick | evgetx11/include/evgetx11/event_switch.h:216-219 | the modifiers, window fields, device name and screen set in turn; fails exactly for a device without a registered name |
| XEventSwitch.RecordClick | evgetx11/include/evgetx11/event_switch.h:221 | `Build` appends exactly the recorded entry of the event |
| XEventSwitch.EventSwitch.SetModifierValueScroll | evgetx11/include/evgetx11/event_switch.h:128-157 | the builder gains one modifier text per held modifier, in ascending order; nothing else changes |
| XEventSwitch.EventSwitch.AddModifiersScroll | evgetx11/include/evgetx11/event_switch.h:131-154 | one `Modifier` call per value, in order |
| XEventSwitch.EventSwitch.SetWindowFieldsScroll | evgetx11/include/evgetx11/event_switch.h:159-192 | the active window, else the focus window, supplies name, position and size where the server reports them; with no window nothing changes |
| XEventSwitch.EventSwitch.SetDeviceNameFieldsScroll | evgetx11/include/evgetx11/event_switch.h:194-199 | sets the device's registered name and the screen, failing as `at` does, with nothing set, for an unknown device |
| XEventSwitch.EventSwitch.DecorateScroll | evgetx11/include/evgetx11/event_switch.h:216-219 | the modifiers, window fields, device name and screen set in turn; fails exactly for a device without a registered name |
| XEventSwitch.RecordScroll | evgetx11/include/evgetx11/event_switch.h:221 | `Build` appends exactly the recorded entry of the event |
| XEventSwitch.EventSwitch.SetModifierValueKey | evgetx11/include/evgetx11/event_switch.h:128-157 | the builder gains one modifier text per held modifier, in ascending order; nothing else changes |
| XEventSwitch.EventSwitch.AddModifiersKey | evgetx11/include/evgetx11/event_switch.h:131-154 | one `Modifier` call per value, in order |
| XEventSwitch.EventSwitch.SetWindowFieldsKey | evgetx11/include/evgetx11/event_switch.h:159-192 | the active window, else the focus window, supplies name, position and size where the server reports them; with no window nothing changes |
| XEventSwitch.EventSwitch.SetDeviceNameFieldsKey | evgetx11/include/evgetx11/event_switch.h:194-199 | sets the device's registered name and the screen, failing as `at` does, with nothing set, for an unknown device |
| XEventSwitch.EventSwitch.DecorateKey | evgetx11/include/evgetx11/event_switch.h:216-219 | the modifiers, window fields, device name and screen set in turn; fails exactly for a device without a registered name |
| XEventSwitch.RecordKey | evgetx11/include/evgetx11/event_switch.h:221 | `Build` appends exactly the recorded entry of the event |
| XPointerKey.StoreScrollsLastWins | evgetx11/src/XEventSwitchPointerKey.cpp:55-57 | a device number is stored exactly when it was stored before or some scroll class has it; it then holds the last class with that number, or the old entry when no class has it |
| XPointerKey.LastAxisIsLast | evgetx11/src/XEventSwitchPointerKey.cpp:58-69 | an axis gets a valuator exactly when some valuator is labelled with that axis, and then it is the number of the last such valuator |
| XPointerKey.AxisNamesDisjoint | evgetx11/src/XEventSwitchPointerKey.cpp:58-69 | a label names the y axis exactly when it is one of the two y names, so no label counts for both axes |
| XPointerKey.RawReleaseIsNotRelease | evgetx11/include/evgetx11/event_switch_pointer_key.h:149-154 | because the action is compared against the non-raw release type, a raw key release is never recorded as a release: it reads as a repeat when flagged, otherwise as a press |
| XPointerKey.KeyExtraLookup | evgetx11/include/evgetx11/event_switch_pointer_key.h:145-156 | a key event other than a press has no character and no key name; a press has the character and key name the lookup gives |
| XPointerKey.LastAmountIsLast | evgetx11/include/evgetx11/event_switch_pointer_key.h:204-210 | a direction's amount is present exactly when some visited valuator has that direction, and then it is the value of the last one visited |
| XPointerKey.LastAmountNone | evgetx11/include/evgetx11/event_switch_pointer_key.h:204-210 | a direction's amount is absent exactly when no visited valuator has that direction |
| XPointerKey.LastAmountSome | evgetx11/include/evgetx11/event_switch_pointer_key.h:204-210 | a present amount is the value of the last visited valuator of that direction |
| XPointerKey.ScrollHasAmount | evgetx11/include/evgetx11/event_switch_pointer_key.h:204-210 | every processed valuator is horizontal or vertical, so a scroll with processed valuators has at least one amount |
| XPointerKey.KeysAscending | evgetx11/src/XEventSwitchPointerKey.cpp:72-79 | the valuator numbers read from the mask come in strictly ascending order |
| XPointerKey.SetKeyFields | evgetx11/include/evgetx11/event_switch_pointer_key.h:158-167 | the key builder holds the pointer's root position, the device, the timestamp, the action and the button after the setters |
| XPointerKey.FinishKey | evgetx11/include/evgetx11/event_switch_pointer_key.h:158-174 | the data gains exactly one key entry, the one built from the fields set |
| XPointerKey.SetScrollFields | evgetx11/include/evgetx11/event_switch_pointer_key.h:212-217 | the scroll builder holds the interval, the timestamp, the device and the pointer's root position |
| XPointerKey.FinishScroll | evgetx11/include/evgetx11/event_switch_pointer_key.h:212-224 | the data gains exactly one scroll entry, the one built from the fields set |
| XPointerKey.MotionAfter | evgetx11/include/evgetx11/event_switch_pointer_key.h:240 | the event the scroll handler sees after the motion handler keeps its device and its valuator numbers |
| XPointerKey.ScrollRecordedIff | evgetx11/include/evgetx11/event_switch_pointer_key.h:183-224 | a scroll is recorded, as at most one entry, exactly when the device is registered and has scroll classes, the event is not pointer-emulated and one of its valuators is a scroll class of the device |
| XPointerKey.ScrollAmountIff | evgetx11/include/evgetx11/event_switch_pointer_key.h:192-210 | a scroll records an amount in a direction exactly when one of the event's valuators is a scroll class of that direction |
| XPointerKey.ScrollAmountValue | evgetx11/include/evgetx11/event_switch_pointer_key.h:204-210 | the recorded amount is the event's first value advanced by the position of the last valuator of that direction, because reading the valuators advances the shared first value |
| XPointerKey.ScrollAmountPresent | evgetx11/include/evgetx11/event_switch_pointer_key.h:200-210 | a scroll that processes some valuator records an amount in at least one direction |
| XPointerKey.OneValuatorScrollReadsAdvanced | evgetx11/include/evgetx11/event_switch_pointer_key.h:93-95 | after a motion with one vertical scroll valuator of value 1, the scroll that follows reads 2, not 1 |
| XPointerKey.ScrollAfterMoveIsImmediate | evgetx11/include/evgetx11/event_switch_pointer_key.h:93-95 | when the motion handler records a move, the scroll recorded for the same event comes zero time units after it |
| XPointerKey.EventSwitchPointerKey.constructor | evgetx11/include/evgetx11/event_switch_pointer_key.h:79-83 | a new handler has no scroll classes, no axis valuators and pointer id 0 |
| XPointerKey.EventSwitchPointerKey.RefreshDevices | evgetx11/src/XEventSwitchPointerKey.cpp:22-70 | the registry gains the device if it was new, the pointer id is adopted when given, the scroll classes are stored by number with the last one winning, and each axis keeps its last labelled valuator |
| XPointerKey.EventSwitchPointerKey.SplitClasses | evgetx11/src/XEventSwitchPointerKey.cpp:36-53 | the scroll classes and the valuator classes are split out, in order, with null entries skipped |
| XPointerKey.EventSwitchPointerKey.StoreScrollInfos | evgetx11/src/XEventSwitchPointerKey.cpp:55-57 | the scroll map is the old one with each scroll class stored under its number in turn |
| XPointerKey.EventSwitchPointerKey.StoreAxes | evgetx11/src/XEventSwitchPointerKey.cpp:58-69 | each axis map holds, for the device, the last valuator labelled with that axis, and is otherwise unchanged |
| XPointerKey.EventSwitchPointerKey.KeyEvent | evgetx11/include/evgetx11/event_switch_pointer_key.h:132-175 | a key event of an unknown device changes nothing; one of a registered device appends its key entry and advances the clock to the event's time |
| XPointerKey.EventSwitchPointerKey.EmitClick | evgetx11/include/evgetx11/event_switch_pointer_key.h:129 | the data gains the click records the event describes, the clock moves to the event's time and the button map is unchanged |
| XPointerKey.EventSwitchPointerKey.ButtonEvent | evgetx11/include/evgetx11/event_switch_pointer_key.h:112-130 | an unknown device or button fails; otherwise a click is recorded unless the device is unregistered, the event is pointer-emulated or the button is a wheel, and the clock moves exactly when something was recorded |
| XPointerKey.EventSwitchPointerKey.ProcessValuators | evgetx11/include/evgetx11/event_switch_pointer_key.h:193-198 | the processed valuators are exactly the device's scroll classes whose valuator the event carries |
| XPointerKey.EventSwitchPointerKey.ApplyAmounts | evgetx11/include/evgetx11/event_switch_pointer_key.h:204-210 | each direction's amount is the value of the last processed valuator of that direction, or unset when there is none |
| XPointerKey.EventSwitchPointerKey.SetAmounts | evgetx11/include/evgetx11/event_switch_pointer_key.h:192-210 | the processed valuators are those the event carries after the valuators are read, and when there are any the amounts are set from them |
| XPointerKey.EventSwitchPointerKey.ScrollEvent | evgetx11/include/evgetx11/event_switch_pointer_key.h:177-225 | an event that is not a recorded scroll changes nothing; a recorded one appends its scroll entry and moves the clock |
| XPointerKey.EventSwitchPointerKey.FindAxisValuator | evgetx11/include/evgetx11/event_switch_pointer_key.h:240-246 | a valuator is found exactly when the event carries the device's x or y valuator; looking up the axes leaves an empty entry for the device |
| XPointerKey.EventSwitchPointerKey.MotionEvent | evgetx11/include/evgetx11/event_switch_pointer_key.h:227-247 | unless the event is dropped the valuators are read and a move is recorded when one of them is the device's x or y valuator; the event left behind is the advanced one, and the axis maps at most gain an empty entry for the device |
| XPointerKey.AtMostDefaulted | evgetx11/include/evgetx11/event_switch_pointer_key.h:240-246 | an axis map that `operator[]` may have touched is unchanged or has an empty entry for the device added, so no device's axis differs |
| XPointerKey.EventSwitchPointerKey.MotionThenScroll | evgetx11/include/evgetx11/event_switch_pointer_key.h:93-96 | a raw motion records the moves of the motion handler followed by the scroll recorded on the advanced event; the axis maps at most gain an empty entry for the device |
| XPointerKey.EventSwitchPointerKey.SwitchOnEvent | evgetx11/include/evgetx11/event_switch_pointer_key.h:86-110 | the handler declines, changing nothing, exactly the event types other than raw motion, button press, button release, key press and key release; whatever the event, the axis maps at most gain an empty entry for its device |
| XTouch.TouchMotion | evgetx11/include/evgetx11/event_switch_touch.h:93-103 | a touch of a registered device appends one move and advances the clock to the event's time; an unregistered device changes nothing |
| XTouch.TouchButton | evgetx11/include/evgetx11/event_switch_touch.h:80-91 | a touch of a registered device appends one click of the event's detail with the given action, leaves a name for that button behind and advances the clock; an unregistered device changes nothing |
| XTouch.MoveThenClick | evgetx11/include/evgetx11/event_switch_touch.h:64-66 | a begin or an end appends the move and then the click timed against the clock as the move left it |
| XTouch.SwitchOnEvent | evgetx11/include/evgetx11/event_switch_touch.h:57-78 | the handler takes exactly the three touch types, appends their moves and clicks, and moves the clock exactly when the device is registered |
| XTouch.TouchShape | evgetx11/include/evgetx11/event_switch_touch.h:57-78 | a touch of a registered device records its move first, then a press for a begin and a release for an end; an update records only the move, and an unregistered device or another type records nothing |
| XTouch.TouchClickFields | evgetx11/include/evgetx11/event_switch_touch.h:80-91 | the click a touch records comes zero time units after its move and holds the event's detail as the button and the action's number, 0 for a press and 1 for a release |
| XMasks.WithBitsBits | evgetx11/src/XWrapperX11.cpp:363-367 | a bit is set after the events are set exactly when it was set before or it is one of the events |
| XMasks.WithBitsOrderIrrelevant | evgetx11/src/XWrapperX11.cpp:363-367 | neither the order of the events nor repeated events change the resulting mask |
| XMasks.SetMask | evgetx11/src/XWrapperX11.cpp:363-367 | the mask, changed in place, is the old mask with one bit set per event and no other change |
| XMasks.SetIndicesCorrect | evgetx11/include/evgetx11/x11_api.h:134-144 | the bits visited are exactly the set bits below the bound, each once, in ascending order |
| XMasks.OnMasks | evgetx11/include/evgetx11/x11_api.h:134-144 | the callback is called on every set bit of the first mask-length bytes, lowest bit first, and on nothing else |
| XMasks.SetThenWalk | evgetx11/src/XWrapperX11.cpp:363-367 | a zeroed mask with some events set, then walked, visits exactly those events in ascending order |
| XMasks.BumpedValuatorsAt | evgetx11/src/XEventSwitchPointerKey.cpp:72-79 | distinct valuator numbers each map to the first value plus their position, and nothing else is mapped |
| XMasks.AfterBump | evgetx11/src/XEventSwitchPointerKey.cpp:76 | the event after the valuators are read keeps its mask and mask length |
| XMasks.GetValuatorsBumped | evgetx11/src/XEventSwitchPointerKey.cpp:72-79 | the valuator numbers are the set bits of the mask, the k-th maps to the first value plus k, and the event's first value is left advanced once per set bit |
| XMasks.ReadValuatorsAt | evgetx11/src/XDeviceRefresh.cpp:92-99 | distinct valuator numbers each map to the value at their position, and nothing else is mapped |
| XMasks.GetValuators | evgetx11/src/XDeviceRefresh.cpp:92-99 | the valuator numbers are the set bits of the mask and the k-th maps to the k-th value |
| XMasks.BumpedAgreesIffConsecutive | evgetx11/src/XEventSwitchPointerKey.cpp:72-79 | the pointer-and-key reading agrees with the reading that advances the pointer exactly when the values count up by one from the first |
| XMasks.KeyedAgreeIff | evgetx11/src/XEventSwitchPointerKey.cpp:72-79 | for any ascending numbers, the two readings agree exactly when each value is the first value plus its position |
| XWrapper.GetProperty | evgetx11/src/XWrapperX11.cpp:205-243 | window 0 and a failed read give the empty reply; otherwise the reply is what the server holds for the property |
| XWrapper.WindowNameSource | evgetx11/src/XWrapperX11.cpp:245-268 | the name comes from _NET_WM_NAME whenever that property has items, and otherwise from WM_NAME, failing only when WM_NAME is not an atom |
| XWrapper.RootlessWindowName | evgetx11/src/XWrapperX11.cpp:245-268 | window 0 has no properties, so it is named by the empty string when both atoms exist |
| XWrapper.GetActiveWindow | evgetx11/src/XWrapperX11.cpp:270-286 | an active window is only reported when the _NET_ACTIVE_WINDOW atom exists |
| XWrapper.ActiveWindowFound | evgetx11/src/XWrapperX11.cpp:270-286 | an active window is reported exactly when the root's _NET_ACTIVE_WINDOW property is a non-empty, non-null list of 32-bit items |
| XWrapper.GetWindowAttributes | evgetx11/src/XWrapperX11.cpp:301-315 | window 0 has no attributes |
| XWrapper.ToUnsigned | evgetx11/src/XWrapperX11.cpp:324-325 | a signed coordinate stored as an unsigned int is taken modulo 2^32: non-negative values are kept and negative ones wrap |
| XWrapper.WindowSizeIsSquare | evgetx11/src/XWrapperX11.cpp:317-328 | a size is reported exactly when the attributes are, and its height is the window's width, so every reported size is square |
| XWrapper.WindowPositionSource | evgetx11/src/XWrapperX11.cpp:330-361 | the position is the attributes' position for a child of the root and the translated origin otherwise, and a negative coordinate wraps to a large unsigned one |
| XWrapper.KeySymToString | evgetx11/src/XWrapperX11.cpp:369-377 | NoSymbol and a keysym without a name give the empty string; any other keysym gives its name |
| XWrapper.LookupCharacter | evgetx11/src/XWrapperX11.cpp:17-61 | only a raw key press is looked up; any other event gives the empty character and leaves the keysym as it was |
| XWrapper.ReleaseHasNoName | evgetx11/src/XWrapperX11.cpp:17-61 | a key event that is not a raw press yields the empty character and keeps NoSymbol |
| LinuxTransformer.ClassKindFirst | platform/linux/src/EventTransformerLinux.cpp:45-64 | a device's kind is settled exactly when some class is decisive, and then by the first decisive class |
| LinuxTransformer.MouseIff | platform/linux/src/EventTransformerLinux.cpp:39-80 | a device is a mouse exactly when it is enabled and a slave or floating device, has no decisive class and has a button, a valuator and a scroll class |
| LinuxTransformer.FirstMouse | platform/linux/src/EventTransformerLinux.cpp:77-80 | the position found is the first mouse in the list, or the list's length when there is none |
| LinuxTransformer.RegisterIds | platform/linux/src/EventTransformerLinux.cpp:48-80 | one registration adds at most the device's own id, and only when it has a kind |
| LinuxTransformer.RegisterAllIds | platform/linux/src/EventTransformerLinux.cpp:36-85 | every id registered afterwards was registered before or belongs to a listed device that has a kind |
| LinuxTransformer.AfterMouseIgnored | platform/linux/src/EventTransformerLinux.cpp:77-80 | a device listed after the first mouse is never registered unless a device examined before the break has the same id and a kind |
| LinuxTransformer.EventTransformerLinux.constructor | platform/linux/src/EventTransformerLinux.cpp:88-90 | a new transformer's registries are those the device loop builds from empty ones over the devices up to the first mouse |
| LinuxTransformer.EventTransformerLinux.ScanClasses | platform/linux/src/EventTransformerLinux.cpp:45-75 | the class scan stops at the first decisive class with its kind, and otherwise reports which pointer classes it saw |
| LinuxTransformer.EventTransformerLinux.Classify | platform/linux/src/EventTransformerLinux.cpp:39-80 | the loop body classifies a device exactly as its kind says |
| LinuxTransformer.EventTransformerLinux.Insert | platform/linux/src/EventTransformerLinux.cpp:49-78 | the device is inserted into the registry of its kind, an id already present keeping its first name |
| LinuxTransformer.EventTransformerLinux.RefreshDeviceIds | platform/linux/src/EventTransformerLinux.cpp:31-86 | the registries are the old ones with the listed devices registered in order up to and including the first mouse |

## Left out

- Concurrency is not modelled, because its behaviour depends on scheduling. This covers the scheduler, the repeating timer, the database manager's coroutines, the task atomics and the Linux system event loop.
- The batching buffer's mutex is not modelled: `PushBack`, `IntoInner` and `IntoInnerAt` behave as their unlocked counterparts do when there is a single caller.
- SQLite is an oracle, because its library is not part of this model. Every call is recorded, and which calls fail and which rows the `_migrations` select yields are fixed in advance. SQL text is not interpreted.
- JSON storage (`JsonStorage`, nlohmann JSON) is not modelled. A JSON store appears only as an output kind.
- The X server is an oracle. This covers device queries, properties, atoms, pointer queries, window attributes, coordinate translation, key lookup and keysym names.
- `QueryPointer`, `CreateIc`, the byte buffers of `LookupCharacter` and the byte layout of `GetProperty` are left out; their results enter as oracle values.
- libinput and the X input handler that selects events are not modelled: they only register with the X server.
- SHA-512 migration checksums, random UUIDs and `spdlog::level::from_str` are functions passed in as parameters, because they are outside the logic modelled.
- Floating-point values are opaque text. This covers `FromDouble`, window geometry and pointer positions. Valuator values are integers, so the double arithmetic of `(*values)++` becomes integer increments.
- Timestamps are opaque text: `FromTimestamp`'s date formatting is not modelled.
- The timing of the raw-event drain is not modelled.
- `Intervals.IntervalTracker.GetInterval`: the X server's millisecond time difference is stored as a count of microseconds without conversion; the model keeps the count as it is and does not model the unit.
- Integers are unbounded. The X server's unsigned `Time` cannot wrap in the interval computation, because the earlier time is never larger there. The conversions to `unsigned int` that matter, for window geometry and listing padding, are written out.
- Reading the filesystem is not modelled. This covers the device listers' directory walks, symlink resolution and ioctl calls, `main`, and reading config files.
- Command-line parsing is not modelled: boost::program_options registration, storing and notifying, CLI11 parsing inside `Cli::Parse`, and the parser classes that only configure options. The variables map after parsing is an input, and the validation rules over it are modelled.
- `evget/src/event/mouse_move.cpp` is not part of this model. `MouseMoveBuilder.MouseMove` follows the `kMouseMoveFields` table and the other three builders.
- `evget/include/evget/event/data.h` is not part of this model. `Entries.Data` is the list of entries the builders append to.
- The headers that declare `ButtonAction`, `Device` and `ModifierValue` are not part of this model. Their underlying values are taken in the order `schema.h` names them: press 0, release 1, repeat 2 for button actions, as the touch tests read them.
- `XTouch`: the touch switch's `RefreshDevices` is declared but not defined in the source, so the transformer's refresh updates only the shared registry and the pointer-and-key switch.
- `XEventSwitch.EventSwitch.AddButtonEvent` reads the button name right after the device check, not between the button and name setters. No setter reads the button map, so the difference is not observable.
- `XTransformer.EventTransformer.RefreshDevices`: a device whose type atom has no name gets `kUnknown`. In the source that null name is undefined behaviour.
- XTransformer.EventTransformer.TransformEvent: for an event the switches take, the axis maps are stated only up to the empty entries that `operator[]` lookups may add for the event's device. `MotionEvent` states exactly which lookups add them; no device's axis value changes either way.
- The order in which an `unordered_map` is visited is not specified by the language. Where it decides a result, the model takes it as an explicit order parameter: the scroll classes a scroll visits.
- Schema.FromUnderlying: a number that `stoi` reads but that no named enumerator has becomes the error `NoEnumerator` carrying that number. The source casts it to an unnamed value of the enumeration, which a Dafny datatype cannot hold.
- Accessors that only return a field are not separate members. The model reads the class fields and the fields of the `Entry` datatype directly.
- Logging through spdlog is not modelled.
- Superseded copies of the same logic are not modelled. These are the older builders, schema, graph, buffer, migration, storage and X switch files kept beside the current ones, and the duplicate device orderings. The current version of each is modelled once.
- Broken or stub copies are not modelled: the older `Entry` and database manager, the touch builders and `ShutdownHandler`.

/**
 * The decisions `XWrapperX11` takes on top of Xlib: which window property
 * names a window, which window is active, how a window's size and position
 * are read, when a key event is looked up and how a keysym is named. The Xlib
 * calls themselves are the fields of a `Display` value.
 */
module XWrapper {
  import opened Wrappers
  import opened XTypes

  /** `kWindowPropertySize`: the format of a property holding a window id. */
  const WindowPropertySize: int := 32

  /**
   * What `XGetWindowProperty` returns on success: the item count, the format,
   * and the property seen as text (for names) and as a window id (for
   * `_NET_ACTIVE_WINDOW`); `text` is `None` for a null property.
   */
  datatype PropertyReply = PropertyReply(nItems: nat, format: int, text: Option<string>, window: nat)

  /** The parts of `XWindowAttributes` the wrapper reads. */
  datatype Attributes = Attributes(x: int, y: int, width: nat, root: nat)

  /**
   * The Xlib calls: `XInternAtom` (absent atom is `None`),
   * `XGetWindowProperty` (`None` when the status is not `Success`),
   * `XGetWindowAttributes` (`None` on failure), the parent `XQueryTree`
   * reports, `XTranslateCoordinates` to the root, `XGetInputFocus` (`None` on
   * failure), the default root window and `XKeysymToString`.
   */
  datatype Display = Display(
    atom: string -> Option<int>,
    property: (int, nat) -> Option<PropertyReply>,
    attributes: nat -> Option<Attributes>,
    parent: nat -> nat,
    translate: (nat, nat) -> (int, int),
    inputFocus: Option<nat>,
    defaultRoot: nat,
    keysymName: int -> Option<string>)

  /** The empty reply: no items and a null property. */
  const NoProperty: PropertyReply := PropertyReply(0, 0, None, 0)

  /** `GetProperty`: window 0 and failed reads give the empty reply. */
  function GetProperty(d: Display, atom: int, window: nat): (r: PropertyReply)
    ensures window == 0 ==> r == NoProperty
    ensures window != 0 && d.property(atom, window).None? ==> r == NoProperty
    ensures window != 0 && d.property(atom, window).Some? ==> r == d.property(atom, window).value
  {
    if window == 0 then NoProperty
    else match d.property(atom, window)
      case None => NoProperty
      case Some(reply) => reply
  }

  /** The first `n` characters of a property's text (the whole text when it is shorter). */
  function Prefix(text: string, n: nat): string
  {
    if n <= |text| then text[..n] else text
  }

  /**
   * `GetWindowName`: `_NET_WM_NAME`, falling back to `WM_NAME` when the first
   * has no items; no atom gives no name, a null property the empty name.
   */
  function GetWindowName(d: Display, window: nat): Option<string>
  {
    match d.atom("_NET_WM_NAME")
    case None => None
    case Some(netName) =>
      var first := GetProperty(d, netName, window);
      if first.nItems == 0 then
        match d.atom("WM_NAME")
        case None => None
        case Some(name) =>
          var second := GetProperty(d, name, window);
          if second.text.None? then Some("") else Some(Prefix(second.text.value, second.nItems))
      else if first.text.None? then Some("")
      else Some(Prefix(first.text.value, first.nItems))
  }

  /** `_NET_WM_NAME` wins whenever it has items; otherwise the name comes from `WM_NAME`. */
  lemma WindowNameSource(d: Display, window: nat)
    requires d.atom("_NET_WM_NAME").Some?
    ensures var first := GetProperty(d, d.atom("_NET_WM_NAME").value, window);
      first.nItems > 0 ==>
        GetWindowName(d, window) == Some(if first.text.None? then "" else Prefix(first.text.value, first.nItems))
    ensures var first := GetProperty(d, d.atom("_NET_WM_NAME").value, window);
      first.nItems == 0 ==>
        (GetWindowName(d, window).None? <==> d.atom("WM_NAME").None?)
  {
  }

  /** Window 0 has no properties, so it is named by the empty string as long as both atoms exist. */
  lemma RootlessWindowName(d: Display)
    requires d.atom("_NET_WM_NAME").Some? && d.atom("WM_NAME").Some?
    ensures GetWindowName(d, 0) == Some("")
  {
  }

  /** `GetActiveWindow`: `_NET_ACTIVE_WINDOW` of the root, when it holds a window id. */
  function GetActiveWindow(d: Display): (r: Option<nat>)
    ensures r.Some? ==> d.atom("_NET_ACTIVE_WINDOW").Some?
  {
    match d.atom("_NET_ACTIVE_WINDOW")
    case None => None
    case Some(active) =>
      var reply := GetProperty(d, active, d.defaultRoot);
      if reply.nItems > 0 && reply.format == WindowPropertySize && reply.text.Some? then Some(reply.window)
      else None
  }

  /** An active window is reported exactly when the root's property is a non-empty, non-null 32-bit item list. */
  lemma ActiveWindowFound(d: Display)
    ensures GetActiveWindow(d).Some? <==>
      d.atom("_NET_ACTIVE_WINDOW").Some? &&
      var reply := GetProperty(d, d.atom("_NET_ACTIVE_WINDOW").value, d.defaultRoot);
      reply.nItems > 0 && reply.format == WindowPropertySize && reply.text.Some?
  {
  }

  /** `GetFocusWindow`: the input focus, when the query succeeds. */
  function GetFocusWindow(d: Display): Option<nat>
  {
    d.inputFocus
  }

  /** `GetWindowAttributes`: none for window 0. */
  function GetWindowAttributes(d: Display, window: nat): (r: Option<Attributes>)
    ensures window == 0 ==> r.None?
  {
    if window == 0 then None else d.attributes(window)
  }

  /** An `unsigned int` from an `int`: modulo 2^32. */
  function ToUnsigned(v: int): (r: nat)
    ensures r < 0x1_0000_0000
    ensures 0 <= v < 0x1_0000_0000 ==> r == v
    ensures -0x1_0000_0000 <= v < 0 ==> r == v + 0x1_0000_0000
  {
    v % 0x1_0000_0000
  }

  /** `GetWindowSize`: both dimensions are read from the attributes' width. */
  function GetWindowSize(d: Display, window: nat): Option<Dimensions>
  {
    match GetWindowAttributes(d, window)
    case None => None
    case Some(attributes) =>
      Some(Dimensions(ToUnsigned(attributes.width), ToUnsigned(attributes.width)))
  }

  /** The reported height is the window's width: every reported size is square. */
  lemma WindowSizeIsSquare(d: Display, window: nat)
    ensures GetWindowSize(d, window).Some? <==> GetWindowAttributes(d, window).Some?
    ensures GetWindowSize(d, window).Some? ==>
      GetWindowSize(d, window).value.height == GetWindowSize(d, window).value.width
      == ToUnsigned(GetWindowAttributes(d, window).value.width)
  {
  }

  /**
   * `GetWindowPosition`: the attributes' position for a child of the root,
   * otherwise the origin translated to root coordinates; the coordinates are
   * stored as `unsigned int`.
   */
  function GetWindowPosition(d: Display, window: nat): Option<Dimensions>
  {
    match GetWindowAttributes(d, window)
    case None => None
    case Some(attributes) =>
      var (x, y) := if d.parent(window) == attributes.root then (attributes.x, attributes.y)
                    else d.translate(window, attributes.root);
      Some(Dimensions(ToUnsigned(x), ToUnsigned(y)))
  }

  /** Where the position comes from, and that a negative coordinate wraps to a large one. */
  lemma WindowPositionSource(d: Display, window: nat)
    requires GetWindowAttributes(d, window).Some?
    ensures var a := GetWindowAttributes(d, window).value;
      var (x, y) := if d.parent(window) == a.root then (a.x, a.y) else d.translate(window, a.root);
      GetWindowPosition(d, window) == Some(Dimensions(ToUnsigned(x), ToUnsigned(y)))
      && (-0x1_0000_0000 <= x < 0 ==> GetWindowPosition(d, window).value.width == x + 0x1_0000_0000)
  {
  }

  /** `KeySymToString`: the keysym's name, or empty for `NoSymbol` and unnamed keysyms. */
  function KeySymToString(keysymName: int -> Option<string>, keySym: int): (r: string)
    ensures keySym == NoSymbol ==> r == ""
    ensures keySym != NoSymbol && keysymName(keySym).Some? ==> r == keysymName(keySym).value
    ensures keysymName(keySym).None? ==> r == ""
  {
    if keySym != NoSymbol then
      match keysymName(keySym)
      case Some(name) => name
      case None => ""
    else ""
  }

  /**
   * `LookupCharacter`: only a raw key press is looked up; any other event
   * gives the empty character and leaves the caller's keysym as it was.
   * `lookup` is what the lookup functions produce for the event.
   */
  function LookupCharacter(evtype: int, lookup: (string, int), keySym: int): (r: (string, int))
    ensures evtype == XI_RawKeyPress ==> r == lookup
    ensures evtype != XI_RawKeyPress ==> r == ("", keySym)
  {
    if evtype == XI_RawKeyPress then lookup else ("", keySym)
  }

  /** A key release is never looked up, so it is named by the empty string. */
  lemma ReleaseHasNoName(d: Display, evtype: int, lookup: (string, int))
    requires evtype != XI_RawKeyPress
    ensures var (character, keySym) := LookupCharacter(evtype, lookup, NoSymbol);
      character == "" && KeySymToString(d.keysymName, keySym) == ""
  {
  }
}

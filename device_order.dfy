/**
 * The input-device listing: the order devices are listed in and the padded
 * line each one is written as. Two versions exist, the device lister's and
 * the Linux platform's. They share the symlink precedence and the path
 * tokenising, and differ in how two numeric path tokens are compared and in
 * how the symlink lines are indented.
 *
 * A path is its text. `std::regex` matching of `\d+|\D+` is modelled by
 * its result, the maximal runs of digits and of other characters. Lengths
 * count characters.
 */
module DeviceOrder {
  import opened Wrappers
  import opened Text

  /** `std::partial_ordering`. */
  datatype PartialOrdering = Less | Equivalent | Greater | Unordered

  /** The two versions: the device lister's `InputDevice` and the Linux platform's `EventDevice`. */
  datatype Version = ListInputDevices | PlatformLinux

  /** A listed device: its node's path, its by-id and by-path links, its name and its capabilities. */
  datatype Device<C> = Device(path: string, byId: Option<string>, byPath: Option<string>, name: Option<string>,
                              capabilities: seq<C>)

  predicate NoDigit(t: string)
  {
    forall i :: 0 <= i < |t| ==> !IsDigit(t[i])
  }

  /** `find_first_of("0123456789") != npos`. */
  predicate HasDigit(t: string)
  {
    exists i :: 0 <= i < |t| && IsDigit(t[i])
  }

  /** The length of the run of characters of the same kind (digit or not) that starts `s`. */
  function RunLength(s: string): (k: nat)
    requires s != []
    ensures 1 <= k <= |s|
    ensures forall i :: 0 <= i < k ==> IsDigit(s[i]) == IsDigit(s[0])
    ensures k < |s| ==> IsDigit(s[k]) != IsDigit(s[0])
    decreases |s|
  {
    if |s| == 1 || IsDigit(s[1]) != IsDigit(s[0]) then 1 else 1 + RunLength(s[1..])
  }

  /** The successive matches of `\d+|\D+`: the maximal runs of digits and of other characters. */
  function Tokens(s: string): (r: seq<string>)
    ensures forall i :: 0 <= i < |r| ==> r[i] != "" && (AllDigits(r[i]) || NoDigit(r[i]))
    decreases |s|
  {
    if s == [] then []
    else
      var k := RunLength(s);
      [s[..k]] + Tokens(s[k..])
  }

  function Concat(ts: seq<string>): string
  {
    if ts == [] then "" else ts[0] + Concat(ts[1..])
  }

  /** The tokens spell out the whole path, in order, and neighbouring tokens are of different kinds. */
  lemma TokensSpellPath(s: string)
    ensures Concat(Tokens(s)) == s
    ensures forall i :: 0 <= i < |Tokens(s)| - 1 ==>
      IsDigit(Tokens(s)[i][|Tokens(s)[i]| - 1]) != IsDigit(Tokens(s)[i + 1][0])
  {
    TokensConcat(s);
    TokensAlternate(s);
  }

  lemma {:induction false} TokensConcat(s: string)
    ensures Concat(Tokens(s)) == s
    decreases |s|
  {
    if s != [] {
      var k := RunLength(s);
      TokensConcat(s[k..]);
      assert Tokens(s) == [s[..k]] + Tokens(s[k..]);
      assert s[..k] + s[k..] == s;
    }
  }

  lemma {:induction false} TokensAlternate(s: string)
    ensures forall i :: 0 <= i < |Tokens(s)| - 1 ==>
      IsDigit(Tokens(s)[i][|Tokens(s)[i]| - 1]) != IsDigit(Tokens(s)[i + 1][0])
    decreases |s|
  {
    if s != [] {
      var k := RunLength(s);
      var rest := Tokens(s[k..]);
      var ts := Tokens(s);
      TokensAlternate(s[k..]);
      assert ts == [s[..k]] + rest;
      if rest != [] {
        assert rest[0][0] == s[k] by {
          TokensConcat(s[k..]);
          assert Concat(rest) == rest[0] + Concat(rest[1..]);
        }
      }
      forall i | 0 <= i < |ts| - 1
        ensures IsDigit(ts[i][|ts[i]| - 1]) != IsDigit(ts[i + 1][0])
      {
        if i > 0 {
          assert ts[i] == rest[i - 1] && ts[i + 1] == rest[i];
        } else {
          assert ts[0] == s[..k] && ts[1] == rest[0];
        }
      }
    }
  }

  /** A run of non-digits followed by a run of digits is two tokens. */
  lemma TokensOfTwoRuns(word: string, digits: string)
    requires word != [] && NoDigit(word) && digits != [] && AllDigits(digits)
    ensures Tokens(word + digits) == [word, digits]
  {
    var s := word + digits;
    assert RunLength(s) == |word| by {
      RunLengthOfRun(s, |word|);
    }
    assert s[..|word|] == word && s[|word|..] == digits;
    RunLengthOfRun(digits, |digits|);
    assert digits[..|digits|] == digits && digits[|digits|..] == [];
    assert Tokens(digits) == [digits] + Tokens([]);
    assert Tokens(s) == [word] + Tokens(digits);
  }

  /** A run of one kind that ends at `k` (or at the end) is what `RunLength` measures. */
  lemma {:induction false} RunLengthOfRun(s: string, k: nat)
    requires 1 <= k <= |s|
    requires forall i :: 0 <= i < k ==> IsDigit(s[i]) == IsDigit(s[0])
    requires k < |s| ==> IsDigit(s[k]) != IsDigit(s[0])
    ensures RunLength(s) == k
    decreases k
  {
    if k > 1 {
      RunLengthOfRun(s[1..], k - 1);
    }
  }

  /** `stol` of a token: the value of its leading digits. */
  function Stol(t: string): nat
  {
    DigitsValue(t[..DigitRun(t)])
  }

  /** Whether the first token sorts before the second, as each version's loop body decides it. */
  predicate PairLess(v: Version, t1: string, t2: string)
  {
    match v
    case ListInputDevices => (HasDigit(t1) && HasDigit(t2) && Stol(t1) < Stol(t2)) || Text.Less(t1, t2)
    case PlatformLinux => if HasDigit(t1) && HasDigit(t2) then Stol(t1) < Stol(t2) else Text.Less(t1, t2)
  }

  /** The token loop: less at the first pair that is less; unordered when the shorter list runs out. */
  function FirstLess(v: Version, t1: seq<string>, t2: seq<string>): (r: PartialOrdering)
    ensures r == Less || r == Unordered
    decreases |t1|
  {
    if t1 == [] || t2 == [] then Unordered
    else if PairLess(v, t1[0], t2[0]) then Less
    else FirstLess(v, t1[1..], t2[1..])
  }

  /** Some pair of tokens at the same position is smaller. */
  predicate SomePairLess(v: Version, t1: seq<string>, t2: seq<string>)
  {
    exists i :: 0 <= i < |t1| && i < |t2| && PairLess(v, t1[i], t2[i])
  }

  /** The token loop finds a smaller pair exactly when some pair at the same position is smaller. */
  lemma {:induction false} FirstLessExists(v: Version, t1: seq<string>, t2: seq<string>)
    ensures FirstLess(v, t1, t2) == Less <==> SomePairLess(v, t1, t2)
    decreases |t1|
  {
    if t1 != [] && t2 != [] && !PairLess(v, t1[0], t2[0]) {
      FirstLessExists(v, t1[1..], t2[1..]);
      if exists i :: 0 <= i < |t1| && i < |t2| && PairLess(v, t1[i], t2[i]) {
        var i :| 0 <= i < |t1| && i < |t2| && PairLess(v, t1[i], t2[i]);
        assert t1[1..][i - 1] == t1[i] && t2[1..][i - 1] == t2[i];
      }
      if exists i :: 0 <= i < |t1[1..]| && i < |t2[1..]| && PairLess(v, t1[1..][i], t2[1..][i]) {
        var i :| 0 <= i < |t1[1..]| && i < |t2[1..]| && PairLess(v, t1[1..][i], t2[1..][i]);
        assert PairLess(v, t1[i + 1], t2[i + 1]);
      }
    }
  }

  /** The first device has a link the second lacks. */
  predicate LinkAhead<C>(a: Device<C>, b: Device<C>)
  {
    (a.byId.Some? && b.byId.None?) || (a.byPath.Some? && b.byPath.None?)
  }

  /** `operator<=>`: symlink precedence first, then the token loop over the lower-cased paths. */
  function Compare<C>(v: Version, a: Device<C>, b: Device<C>): PartialOrdering
  {
    if LinkAhead(a, b) then Less
    else if LinkAhead(b, a) then Greater
    else FirstLess(v, Tokens(ToLower(a.path)), Tokens(ToLower(b.path)))
  }

  /**
   * The comparison is never equivalent; it is greater only when the other
   * device alone has a link; and it is less exactly when this device is
   * ahead on links or, with neither ahead, some pair of path tokens at the
   * same position is smaller.
   */
  lemma CompareOutcomes<C>(v: Version, a: Device<C>, b: Device<C>)
    ensures Compare(v, a, b) != Equivalent
    ensures Compare(v, a, b) == Greater <==> !LinkAhead(a, b) && LinkAhead(b, a)
    ensures Compare(v, a, b) == Less <==>
      LinkAhead(a, b)
      || (!LinkAhead(b, a) && SomePairLess(v, Tokens(ToLower(a.path)), Tokens(ToLower(b.path))))
  {
    FirstLessExists(v, Tokens(ToLower(a.path)), Tokens(ToLower(b.path)));
  }

  /** A device with only a by-id link and one with only a by-path link each compare less than the other. */
  lemma CrossedLinksBothLess<C>(v: Version, a: Device<C>, b: Device<C>)
    requires a.byId.Some? && a.byPath.None? && b.byId.None? && b.byPath.Some?
    ensures Compare(v, a, b) == Less && Compare(v, b, a) == Less
  {
  }

  /**
   * Paths that differ only in a trailing node number: the platform version
   * orders them by number; the lister's version also calls the first less
   * when its number's text sorts first.
   */
  lemma {:induction false} NumberedNodes<C>(v: Version, a: Device<C>, b: Device<C>, prefix: string, m: nat, n: nat)
    requires prefix != [] && NoDigit(prefix)
    requires a.path == prefix + NatToString(m) && b.path == prefix + NatToString(n)
    requires a.byId.Some? == b.byId.Some? && a.byPath.Some? == b.byPath.Some?
    ensures v == PlatformLinux ==> Compare(v, a, b) == if m < n then Less else Unordered
    ensures v == ListInputDevices ==>
      Compare(v, a, b) == if m < n || Text.Less(NatToString(m), NatToString(n)) then Less else Unordered
  {
    NodeTokens(prefix, m);
    NodeTokens(prefix, n);
    var word := ToLower(prefix);
    TwoTokens(v, word, NatToString(m), NatToString(n));
    NumberTokensLess(v, m, n);
  }

  /** Two token lists that share their first, non-numeric token are decided by their second tokens. */
  lemma TwoTokens(v: Version, word: string, d1: string, d2: string)
    requires NoDigit(word)
    ensures FirstLess(v, [word, d1], [word, d2]) == if PairLess(v, d1, d2) then Less else Unordered
  {
    LessIrreflexive(word);
    assert !HasDigit(word);
    assert !PairLess(v, word, word);
    assert [word, d1][1..] == [d1] && [word, d2][1..] == [d2];
    assert [d1][1..] == [] && [d2][1..] == [];
    assert FirstLess(v, [d1], [d2]) == if PairLess(v, d1, d2) then Less else FirstLess(v, [], []);
    assert FirstLess(v, [word, d1], [word, d2]) == FirstLess(v, [d1], [d2]);
  }

  /** How each version compares two numbers' decimal texts. */
  lemma NumberTokensLess(v: Version, m: nat, n: nat)
    ensures v == PlatformLinux ==> (PairLess(v, NatToString(m), NatToString(n)) <==> m < n)
    ensures v == ListInputDevices ==>
      (PairLess(v, NatToString(m), NatToString(n)) <==> m < n || Text.Less(NatToString(m), NatToString(n)))
  {
    var d1, d2 := NatToString(m), NatToString(n);
    assert HasDigit(d1) && HasDigit(d2) by {
      assert IsDigit(d1[0]) && IsDigit(d2[0]);
    }
    StolOfNatToString(m);
    StolOfNatToString(n);
  }

  /** The tokens of a lower-cased node path: its lower-cased word, then its number. */
  lemma NodeTokens(prefix: string, m: nat)
    requires prefix != [] && NoDigit(prefix)
    ensures NoDigit(ToLower(prefix))
    ensures Tokens(ToLower(prefix + NatToString(m))) == [ToLower(prefix), NatToString(m)]
  {
    var word := ToLower(prefix);
    forall i | 0 <= i < |word|
      ensures !IsDigit(word[i])
    {
      assert word[i] == LowerChar(prefix[i]);
    }
    ToLowerAppend(prefix, NatToString(m));
    LowerUnchanged(NatToString(m));
    TokensOfTwoRuns(word, NatToString(m));
  }

  lemma StolOfNatToString(m: nat)
    ensures Stol(NatToString(m)) == m
  {
    DigitRunOfDigits(NatToString(m));
    assert NatToString(m)[..|NatToString(m)|] == NatToString(m);
    DigitsValueOfNatToString(m);
  }

  /**
   * "event10" and "event9": the lister's version calls each less than the
   * other, while the platform version puts event9 first and leaves the
   * other way round unordered; event3 comes before event4 in both.
   */
  lemma NodeNumberOrder<C>(a: Device<C>, b: Device<C>, c: Device<C>, d: Device<C>)
    requires a.path == "/dev/input/event9" && b.path == "/dev/input/event10"
    requires c.path == "/dev/input/event3" && d.path == "/dev/input/event4"
    requires a.byId.Some? == b.byId.Some? && a.byPath.Some? == b.byPath.Some?
    requires c.byId.Some? == d.byId.Some? && c.byPath.Some? == d.byPath.Some?
    ensures Compare(ListInputDevices, a, b) == Less && Compare(ListInputDevices, b, a) == Less
    ensures Compare(PlatformLinux, a, b) == Less && Compare(PlatformLinux, b, a) == Unordered
    ensures Compare(ListInputDevices, c, d) == Less && Compare(PlatformLinux, c, d) == Less
  {
    var prefix := "/dev/input/event";
    assert NoDigit(prefix);
    assert NatToString(9) == "9" && NatToString(10) == "10";
    assert NatToString(3) == "3" && NatToString(4) == "4";
    assert prefix + "9" == a.path && prefix + "10" == b.path && prefix + "3" == c.path && prefix + "4" == d.path;
    assert Text.Less("10", "9");
    NumberedNodes(ListInputDevices, a, b, prefix, 9, 10);
    NumberedNodes(ListInputDevices, b, a, prefix, 10, 9);
    NumberedNodes(PlatformLinux, a, b, prefix, 9, 10);
    NumberedNodes(PlatformLinux, b, a, prefix, 10, 9);
    NumberedNodes(ListInputDevices, c, d, prefix, 3, 4);
    NumberedNodes(PlatformLinux, c, d, prefix, 3, 4);
  }

  /** `operator<=>`, written as the source's loop over the two token lists. */
  method CompareDevices<C>(v: Version, a: Device<C>, b: Device<C>) returns (r: PartialOrdering)
    ensures r == Compare(v, a, b)
  {
    if (a.byId.Some? && b.byId.None?) || (a.byPath.Some? && b.byPath.None?) {
      return Less;
    }
    if (a.byId.None? && b.byId.Some?) || (a.byPath.None? && b.byPath.Some?) {
      return Greater;
    }
    var t1 := Tokens(ToLower(a.path));
    var t2 := Tokens(ToLower(b.path));
    var i := 0;
    while i < |t1| && i < |t2|
      invariant i <= |t1| && i <= |t2|
      invariant FirstLess(v, t1[i..], t2[i..]) == FirstLess(v, t1, t2)
    {
      assert t1[i..][1..] == t1[i + 1..] && t2[i..][1..] == t2[i + 1..];
      if PairLess(v, t1[i], t2[i]) {
        return Less;
      }
      i := i + 1;
    }
    return Unordered;
  }

  /** What `operator<<` leaves in the stream, and whether it stopped with `std::length_error`. */
  datatype Written = Written(text: string, thrown: bool)

  const MinSpaceGap: nat := 4

  /** The extra gap of a symlink line. */
  function SpaceForSymlink(v: Version): nat
  {
    match v
    case ListInputDevices => 2
    case PlatformLinux => 4
  }

  /** The lister's version indents the symlink lines by two spaces. */
  function LinkIndent(v: Version): string
  {
    match v
    case ListInputDevices => "  "
    case PlatformLinux => ""
  }

  function Blank(n: nat): (r: string)
    ensures |r| == n && forall i :: 0 <= i < n ==> r[i] == ' '
  {
    seq(n, _ => ' ')
  }

  /**
   * A symlink line: the indent, the linkName, the gap, then "<- " and the link.
   * The gap is `4 + maxNameSize - sizeof(linkName) + SPACE_FOR_SYMLINK` in
   * unsigned arithmetic, where `sizeof` counts the linkName's terminating NUL;
   * a count that wraps below zero is too large for `std::string`, which
   * throws after the indent and the linkName were written.
   */
  function LinkLine(v: Version, linkName: string, target: string, maxNameSize: nat): Written
  {
    var gap := MinSpaceGap + maxNameSize - (|linkName| + 1) + SpaceForSymlink(v);
    if gap < 0 then Written(LinkIndent(v) + linkName, true)
    else Written(LinkIndent(v) + linkName + Blank(gap) + "<- " + target + "\n", false)
  }

  /** The capabilities field: nothing for none, else "capabilities = [" and the items separated by ", ", then "]". */
  function CapabilitiesText(items: seq<string>): string
  {
    if items == [] then "" else "capabilities = [" + Join(items, ", ") + "]"
  }

  /** The lister's capability item: "(code; name)". */
  function CapabilityItem(c: (int, string)): string
  {
    "(" + IntToString(c.0) + "; " + c.1 + ")"
  }

  function Rendered<C>(capabilities: seq<C>, show: C -> string): (r: seq<string>)
    ensures |r| == |capabilities| && forall i :: 0 <= i < |r| ==> r[i] == show(capabilities[i])
  {
    seq(|capabilities|, i requires 0 <= i < |capabilities| => show(capabilities[i]))
  }

  /**
   * `operator<<`: the name padded to `4 + maxNameSize`, the path padded to
   * `4 + maxPathSize`, the capabilities and a newline, then a line for each
   * link. A pad count that wraps below zero throws `std::length_error` with
   * what came before it already written.
   */
  /** The device's own line, when both pads fit. */
  function FirstLine<C>(d: Device<C>, show: C -> string, maxNameSize: nat, maxPathSize: nat): string
    requires |d.name.GetOr("")| <= MinSpaceGap + maxNameSize && |d.path| <= MinSpaceGap + maxPathSize
  {
    var nameText := d.name.GetOr("");
    nameText + Blank(MinSpaceGap + maxNameSize - |nameText|) + d.path + Blank(MinSpaceGap + maxPathSize - |d.path|)
    + CapabilitiesText(Rendered(d.capabilities, show)) + "\n"
  }

  function Listing<C>(v: Version, d: Device<C>, show: C -> string, maxNameSize: nat, maxPathSize: nat): Written
  {
    var nameText := d.name.GetOr("");
    var spacesName := MinSpaceGap + maxNameSize - |nameText|;
    var spacesPath := MinSpaceGap + maxPathSize - |d.path|;
    if spacesName < 0 then Written(nameText, true)
    else if spacesPath < 0 then Written(nameText + Blank(spacesName) + d.path, true)
    else
      var links := Links(v, d, maxNameSize);
      Written(FirstLine(d, show, maxNameSize, maxPathSize) + links.text, links.thrown)
  }

  /** The symlink lines after the device's own line: by-id, then by-path unless by-id threw. */
  function Links<C>(v: Version, d: Device<C>, maxNameSize: nat): Written
  {
    var byId := if d.byId.Some? then LinkLine(v, "by-id", d.byId.value, maxNameSize) else Written("", false);
    if byId.thrown then byId
    else
      var byPath := if d.byPath.Some? then LinkLine(v, "by-path", d.byPath.value, maxNameSize) else Written("", false);
      Written(byId.text + byPath.text, byPath.thrown)
  }

  /**
   * The listing throws exactly when the name or the path is longer than its
   * column, or, in the lister's version only, when a by-path link is shown
   * with a maximum name size below 2.
   */
  lemma ListingThrows<C>(v: Version, d: Device<C>, show: C -> string, maxNameSize: nat, maxPathSize: nat)
    ensures Listing(v, d, show, maxNameSize, maxPathSize).thrown <==>
      |d.name.GetOr("")| > MinSpaceGap + maxNameSize || |d.path| > MinSpaceGap + maxPathSize
      || (v == ListInputDevices && d.byPath.Some? && maxNameSize < 2)
  {
  }

  /**
   * Column layout of a listing that does not throw: the name starts the
   * line, the path starts at column `4 + maxNameSize`, and the capabilities
   * at column `8 + maxNameSize + maxPathSize`.
   */
  lemma ListingColumns<C>(v: Version, d: Device<C>, show: C -> string, maxNameSize: nat, maxPathSize: nat)
    requires !Listing(v, d, show, maxNameSize, maxPathSize).thrown
    ensures var text := Listing(v, d, show, maxNameSize, maxPathSize).text;
      var pathAt, capsAt := MinSpaceGap + maxNameSize, 2 * MinSpaceGap + maxNameSize + maxPathSize;
      var caps := CapabilitiesText(Rendered(d.capabilities, show));
      |text| > capsAt + |caps|
      && text[..|d.name.GetOr("")|] == d.name.GetOr("")
      && text[pathAt..pathAt + |d.path|] == d.path
      && text[capsAt..capsAt + |caps|] == caps
      && text[capsAt + |caps|] == '\n'
  {
    var nameText := d.name.GetOr("");
    var caps := CapabilitiesText(Rendered(d.capabilities, show));
    LineColumns(nameText, Blank(MinSpaceGap + maxNameSize - |nameText|), d.path,
      Blank(MinSpaceGap + maxPathSize - |d.path|), caps, Links(v, d, maxNameSize).text);
  }

  /** Where each part of a line built from a name, a pad, a path, a pad and the capabilities starts. */
  lemma LineColumns(nameText: string, pad1: string, path: string, pad2: string, caps: string, rest: string)
    ensures var text := nameText + pad1 + path + pad2 + caps + "\n" + rest;
      var pathAt, capsAt := |nameText| + |pad1|, |nameText| + |pad1| + |path| + |pad2|;
      |text| > capsAt + |caps|
      && text[..|nameText|] == nameText
      && text[pathAt..pathAt + |path|] == path
      && text[capsAt..capsAt + |caps|] == caps
      && text[capsAt + |caps|] == '\n'
  {
    var named := nameText + pad1;
    var pathed := named + path;
    var padded := pathed + pad2;
    var listed := padded + caps;
    var first := listed + "\n";
    var text := first + rest;
    assert text[..|first|] == first;
    assert first[..|listed|] == listed && first[|listed|] == '\n';
    assert listed[..|padded|] == padded && listed[|padded|..] == caps;
    assert padded[..|pathed|] == pathed;
    assert pathed[..|named|] == named && pathed[|named|..] == path;
    assert named[..|nameText|] == nameText;
  }

  /**
   * Both link lines of both versions put their "<- " at the same column,
   * `7 + maxNameSize`, whenever they are written whole.
   */
  lemma LinkArrowsAligned(v: Version, linkName: string, target: string, maxNameSize: nat)
    requires linkName == "by-id" || linkName == "by-path"
    requires !LinkLine(v, linkName, target, maxNameSize).thrown
    ensures var text := LinkLine(v, linkName, target, maxNameSize).text;
      |text| >= maxNameSize + 10 && text[maxNameSize + 7..maxNameSize + 10] == "<- "
  {
    var gap := MinSpaceGap + maxNameSize - (|linkName| + 1) + SpaceForSymlink(v);
    var head := LinkIndent(v) + linkName + Blank(gap);
    assert |head| == maxNameSize + 7;
    var text := LinkLine(v, linkName, target, maxNameSize).text;
    assert text == head + ("<- " + target + "\n");
  }

  /** The capability list, written as the source's loop: each item but the last with ", ", then the last. */
  method WriteCapabilities(items: seq<string>) returns (out: string)
    ensures out == CapabilitiesText(items)
  {
    if items == [] {
      return "";
    }
    var written := "";
    for i := 0 to |items| - 1
      invariant written == Terminated(items[..i], ", ")
    {
      TerminatedSnoc(items[..i], items[i], ", ");
      assert items[..i + 1] == items[..i] + [items[i]];
      written := written + items[i] + ", ";
    }
    JoinAsTerminated(items, ", ");
    out := "capabilities = [" + (written + items[|items| - 1]) + "]";
  }

  /**
   * The class-wide maximum name and path sizes, both zero at the start, that
   * every listing pads to, and the listing that reads them.
   */
  class DeviceListing<C> {
    const version: Version
    const show: C -> string
    var maxNameSize: nat
    var maxPathSize: nat

    constructor(version: Version, show: C -> string)
      ensures this.version == version && this.show == show && maxNameSize == 0 && maxPathSize == 0
    {
      this.version := version;
      this.show := show;
      maxNameSize := 0;
      maxPathSize := 0;
    }

    /** `setMaxNameSize`. */
    method SetMaxNameSize(size: nat)
      modifies this`maxNameSize
      ensures maxNameSize == size
    {
      maxNameSize := size;
    }

    /** `setMaxPathSize`. */
    method SetMaxPathSize(size: nat)
      modifies this`maxPathSize
      ensures maxPathSize == size
    {
      maxPathSize := size;
    }

    /** `operator<<` with the current sizes. */
    method Write(d: Device<C>) returns (w: Written)
      ensures w == Listing(version, d, show, maxNameSize, maxPathSize)
    {
      var nameText := if d.name.Some? then d.name.value else "";
      var totalName := MinSpaceGap + maxNameSize;
      var spacesName := totalName - |nameText|;
      var spacesPath := MinSpaceGap + maxPathSize - |d.path|;
      if spacesName < 0 {
        return Written(nameText, true);
      }
      var out := nameText + Blank(spacesName) + d.path;
      if spacesPath < 0 {
        return Written(out, true);
      }
      var caps := WriteCapabilities(Rendered(d.capabilities, show));
      out := out + Blank(spacesPath) + caps + "\n";
      assert out == FirstLine(d, show, maxNameSize, maxPathSize);
      var links := WriteLinks(d);
      return Written(out + links.text, links.thrown);
    }

    /** The symlink lines: by-id, then by-path unless by-id threw. */
    method WriteLinks(d: Device<C>) returns (w: Written)
      ensures w == Links(version, d, maxNameSize)
    {
      var out := "";
      if d.byId.Some? {
        var line := LinkLine(version, "by-id", d.byId.value, maxNameSize);
        out := line.text;
        if line.thrown {
          return Written(out, true);
        }
      }
      if d.byPath.Some? {
        var line := LinkLine(version, "by-path", d.byPath.value, maxNameSize);
        out := out + line.text;
        if line.thrown {
          return Written(out, true);
        }
      }
      return Written(out, false);
    }
  }
}

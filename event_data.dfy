/**
 * The event data container: a named list of fields, each a name and an
 * entry, fixed in length when constructed and looked up by name (the first
 * field with that name) or by position. A lookup that finds nothing raises
 * the unsupported-operation exception, which the model returns as an error.
 */
module EventFields {
  import opened Wrappers
  import opened Text

  /** A field: its name and its entry, which is empty until it is set. */
  datatype Field = Field(name: string, entry: string)

  /** The exception the container raises, with its message. */
  datatype Unsupported = Unsupported(message: string)

  /** The position `find_if` stops at: the first field with the name, if any. */
  function FirstNamed(fields: seq<Field>, name: string): (r: Option<nat>)
    ensures r.Some? ==>
      r.value < |fields| && fields[r.value].name == name
      && forall j :: 0 <= j < r.value ==> fields[j].name != name
    ensures r.None? ==> forall j :: 0 <= j < |fields| ==> fields[j].name != name
  {
    if fields == [] then None
    else if fields[0].name == name then Some(0)
    else match FirstNamed(fields[1..], name)
      case None => None
      case Some(k) => Some(k + 1)
  }

  /** The fields the name-list constructor builds: one per name, in order, each with an empty entry. */
  function Unset(names: seq<string>): (r: seq<Field>)
  {
    seq(|names|, i requires 0 <= i < |names| => Field(names[i], ""))
  }

  /** The fields once the one at position `k` has been given a new entry. */
  function WithEntry(fields: seq<Field>, k: nat, entry: string): (r: seq<Field>)
    requires k < |fields|
  {
    fields[k := Field(fields[k].name, entry)]
  }

  /** Setting an entry keeps every name where it was, so every lookup by name finds the same position. */
  lemma {:induction false} WithEntryKeepsLookup(fields: seq<Field>, k: nat, entry: string, name: string)
    requires k < |fields|
    ensures |WithEntry(fields, k, entry)| == |fields|
    ensures forall j :: 0 <= j < |fields| ==> WithEntry(fields, k, entry)[j].name == fields[j].name
    ensures FirstNamed(WithEntry(fields, k, entry), name) == FirstNamed(fields, name)
  {
    var after := WithEntry(fields, k, entry);
    if fields[0].name != name && k > 0 {
      assert after[1..] == WithEntry(fields[1..], k - 1, entry);
      WithEntryKeepsLookup(fields[1..], k - 1, entry, name);
    } else if fields[0].name != name {
      assert after[1..] == fields[1..];
    }
  }

  /** A field set by name is the one every later lookup by that name returns, holding the new entry. */
  lemma SetThenGetByName(fields: seq<Field>, name: string, entry: string)
    requires FirstNamed(fields, name).Some?
    ensures var after := WithEntry(fields, FirstNamed(fields, name).value, entry);
      FirstNamed(after, name) == FirstNamed(fields, name)
      && after[FirstNamed(after, name).value] == Field(name, entry)
  {
    WithEntryKeepsLookup(fields, FirstNamed(fields, name).value, entry, name);
  }

  /** Built from names, the first field with a listed name is that name's first occurrence, with an empty entry. */
  lemma UnsetLookup(names: seq<string>, i: nat)
    requires i < |names| && forall j :: 0 <= j < i ==> names[j] != names[i]
    ensures FirstNamed(Unset(names), names[i]) == Some(i)
    ensures Unset(names)[i] == Field(names[i], "")
  {
    var fields := Unset(names);
    var r := FirstNamed(fields, names[i]);
    assert fields[i].name == names[i];
    assert r.Some? && r.value <= i;
    assert fields[r.value].name == names[r.value];
  }

  class EventData {
    /** `nFields`: the number of fields given at construction. */
    const nFields: nat
    const name: string
    var fields: seq<Field>

    /** The field count matches the fields held. */
    ghost predicate Valid()
      reads this`fields
    {
      nFields == |fields|
    }

    /** The constructor that takes fields: it keeps them, in order. */
    constructor FromFields(name: string, fields: seq<Field>)
      ensures Valid() && this.name == name && this.fields == fields
    {
      this.name := name;
      this.fields := fields;
      nFields := |fields|;
    }

    /** The constructor that takes names: one unset field per name, in order. */
    constructor FromNames(name: string, names: seq<string>)
      ensures Valid() && this.name == name && fields == Unset(names)
    {
      var built: seq<Field> := [];
      for i := 0 to |names|
        invariant built == Unset(names[..i])
      {
        built := built + [Field(names[i], "")];
      }
      assert names[..|names|] == names;
      this.name := name;
      fields := built;
      nFields := |names|;
    }

    /** `numberOfFields`. */
    function NumberOfFields(): (n: nat)
      requires Valid()
      reads this`fields
      ensures n == |fields|
    {
      nFields
    }

    /** `getReferenceByName`: the position of the first field with the name, or the exception. */
    method ReferenceByName(name: string) returns (r: Result<nat, Unsupported>)
      ensures r.Ok? <==> FirstNamed(fields, name).Some?
      ensures r.Ok? ==> r.value == FirstNamed(fields, name).value
      ensures r.Err? ==> r.error == Unsupported(name + " not in event data.")
    {
      var i := 0;
      while i < |fields|
        invariant i <= |fields|
        invariant forall j :: 0 <= j < i ==> fields[j].name != name
      {
        if fields[i].name == name {
          return Ok(i);
        }
        i := i + 1;
      }
      return Err(Unsupported(name + " not in event data."));
    }

    /** `getReferenceAtPosition`: the position itself when it is in range, or the exception. */
    method ReferenceAtPosition(position: nat) returns (r: Result<nat, Unsupported>)
      ensures r.Ok? <==> position < |fields|
      ensures r.Ok? ==> r.value == position
      ensures r.Err? ==> r.error == Unsupported(NatToString(position) + " index out of range.")
    {
      if position < |fields| {
        return Ok(position);
      }
      return Err(Unsupported(NatToString(position) + " index out of range."));
    }

    /** `getByName`: a copy of the first field with the name. */
    method GetByName(name: string) returns (r: Result<Field, Unsupported>)
      ensures r.Ok? <==> FirstNamed(fields, name).Some?
      ensures r.Ok? ==> r.value.name == name && r.value == fields[FirstNamed(fields, name).value]
      ensures r.Err? ==> r.error == Unsupported(name + " not in event data.")
    {
      var k := ReferenceByName(name);
      if k.Err? {
        return Err(k.error);
      }
      return Ok(fields[k.value]);
    }

    /** `getAtPosition`: a copy of the field at the position. */
    method GetAtPosition(position: nat) returns (r: Result<Field, Unsupported>)
      ensures r.Ok? <==> position < |fields|
      ensures r.Ok? ==> r.value == fields[position]
      ensures r.Err? ==> r.error == Unsupported(NatToString(position) + " index out of range.")
    {
      var k := ReferenceAtPosition(position);
      if k.Err? {
        return Err(k.error);
      }
      return Ok(fields[k.value]);
    }

    /** `setForName`: the first field with the name gets the entry; nothing else changes. */
    method SetForName(name: string, entry: string) returns (r: Result<(), Unsupported>)
      requires Valid()
      modifies this`fields
      ensures Valid()
      ensures r.Ok? <==> FirstNamed(old(fields), name).Some?
      ensures r.Ok? ==> fields == WithEntry(old(fields), FirstNamed(old(fields), name).value, entry)
      ensures r.Err? ==> fields == old(fields) && r.error == Unsupported(name + " not in event data.")
    {
      var k := ReferenceByName(name);
      if k.Err? {
        return Err(k.error);
      }
      fields := WithEntry(fields, k.value, entry);
      return Ok(());
    }

    /** `setAtPosition`: the field at the position gets the entry; nothing else changes. */
    method SetAtPosition(position: nat, entry: string) returns (r: Result<(), Unsupported>)
      requires Valid()
      modifies this`fields
      ensures Valid()
      ensures r.Ok? <==> position < |old(fields)|
      ensures r.Ok? ==> fields == WithEntry(old(fields), position, entry)
      ensures r.Err? ==> fields == old(fields) && r.error == Unsupported(NatToString(position) + " index out of range.")
    {
      var k := ReferenceAtPosition(position);
      if k.Err? {
        return Err(k.error);
      }
      fields := WithEntry(fields, k.value, entry);
      return Ok(());
    }
  }
}

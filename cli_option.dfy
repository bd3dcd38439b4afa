/**
 * Command-line options: the builder that collects an option's settings, the
 * option those settings make (its names, keys and at-least list), the
 * validated option's parsing and description-registration choice, and the
 * rules `run` enforces over the parsed variables map: conflicts, the
 * at-least-one rule and a value being present.
 *
 * The variables map is abstract: each key maps to whether its value came
 * from a default and to its value as text, absent when the entry is empty.
 */
module CliOptions {
  import opened Wrappers
  import opened Text

  datatype Variable = Variable(defaulted: bool, value: Option<string>)

  type VariablesMap = map<string, Variable>

  /** The two exceptions option handling raises, with their messages. */
  datatype OptionError = InvalidCommandLineOption(message: string) | UnsupportedOperation(message: string)

  /** The key a short name is stored under. */
  function ShortKey(name: string): string
  {
    "-" + name
  }

  /** `isPresent`: given on the command line, under the name or its short key, and not defaulted. */
  predicate IsPresent(name: string, vm: VariablesMap)
  {
    (name in vm && !vm[name].defaulted) || (ShortKey(name) in vm && !vm[ShortKey(name)].defaulted)
  }

  /** `checkPresence`: the first name in the list that is present. */
  function FirstPresent(names: seq<string>, vm: VariablesMap): (r: Option<string>)
    ensures r.Some? ==> IsPresent(r.value, vm) && exists i :: 0 <= i < |names| && names[i] == r.value
    ensures r.Some? ==>
      exists i :: 0 <= i < |names| && names[i] == r.value && forall j :: 0 <= j < i ==> !IsPresent(names[j], vm)
    ensures r.None? <==> forall i :: 0 <= i < |names| ==> !IsPresent(names[i], vm)
  {
    if names == [] then None
    else if IsPresent(names[0], vm) then Some(names[0])
    else FirstPresent(names[1..], vm)
  }

  /** `getName`: the long name when there is one, else the short name. */
  function DisplayName(shortName: string, longName: string): string
  {
    if longName != "" then longName else shortName
  }

  /** What the builder has collected. */
  datatype Settings<T> = Settings(
    shortName: string, longName: string, description: string, required: bool, multitoken: bool,
    conflictsWith: seq<string>, atLeast: seq<string>, exceptOption: seq<string>,
    implicitValue: Option<T>, positionalAmount: Option<int>, positionalDesc: bool,
    representation: string, representationSet: bool, defaultValue: Option<T>)

  /** A fresh builder: nothing set. */
  function FreshSettings<T>(): Settings<T>
  {
    Settings("", "", "", false, false, [], [], [], None, None, false, "", false, None)
  }

  /** An option's configuration, fixed at construction. */
  datatype Config<T> = Config(
    shortName: string, shortNameKey: string, longName: string, longNameKey: string, description: string,
    defaultValue: Option<T>, required: bool, multitoken: bool, conflictsWith: seq<string>,
    atLeast: seq<string>, atLeastSet: bool, except: seq<string>, implicitValue: Option<T>,
    representation: string, positional: Option<(string, int)>)

  function Name<T>(c: Config<T>): string
  {
    DisplayName(c.shortName, c.longName)
  }

  /**
   * The option constructor: fails without any name; otherwise keeps the
   * settings, keys the short name with a dash, registers a positional under
   * the long name or else the short key, and appends the option's own name
   * to a non-empty at-least list.
   */
  function ConfigOf<T>(s: Settings<T>): (r: Result<Config<T>, OptionError>)
    ensures r.Err? <==> s.shortName == "" && s.longName == ""
    ensures r.Ok? ==>
      Name(r.value) != "" && (Name(r.value) == s.longName || (s.longName == "" && Name(r.value) == s.shortName))
      && (r.value.atLeastSet <==> s.atLeast != [])
      && r.value.atLeast == (if s.atLeast == [] then [] else s.atLeast + [Name(r.value)])
  {
    if s.shortName == "" && s.longName == "" then
      Err(UnsupportedOperation("Option should contain at least a short name, or a long name."))
    else
      var name := DisplayName(s.shortName, s.longName);
      Ok(Config(s.shortName, ShortKey(s.shortName), s.longName, s.longName, s.description, s.defaultValue,
                s.required, s.multitoken, s.conflictsWith,
                if s.atLeast != [] then s.atLeast + [name] else s.atLeast, s.atLeast != [],
                s.exceptOption, s.implicitValue, s.representation,
                if s.positionalDesc && s.positionalAmount.Some? then
                  Some((if s.longName != "" then s.longName else ShortKey(s.shortName), s.positionalAmount.value))
                else None))
  }

  /** `checkInvariants`: an option needs a default or must be required. */
  function CheckInvariants<T>(c: Config<T>): (r: Result<(), OptionError>)
    ensures r.Err? <==> c.defaultValue.None? && !c.required
  {
    if c.defaultValue.None? && !c.required then
      Err(UnsupportedOperation("Value must at least be required, or have a default specified."))
    else Ok(())
  }

  /** `getValueFromVm`: the non-empty value under the long key, else under the short key. */
  function ValueFromVm<T>(c: Config<T>, vm: VariablesMap): (r: Option<string>)
    ensures r.Some? ==>
      (c.longNameKey in vm && vm[c.longNameKey].value == r)
      || (c.shortNameKey in vm && vm[c.shortNameKey].value == r)
  {
    if c.longNameKey in vm && vm[c.longNameKey].value.Some? then vm[c.longNameKey].value
    else if c.shortNameKey in vm && vm[c.shortNameKey].value.Some? then vm[c.shortNameKey].value
    else None
  }

  /** How an option reads its value: the plain cast of the stored value, or the validator over its text. */
  datatype Parser<T> = Plain(convert: string -> T) | Validated(validator: string -> Option<T>)

  /**
   * `parseValue`: the plain option replaces its value with what the map
   * holds, absent or not; the validated option validates a non-empty text,
   * fails when the validator gives nothing, and otherwise keeps its value.
   */
  function Parse<T>(c: Config<T>, parser: Parser<T>, value: Option<T>, vm: VariablesMap): Result<Option<T>, OptionError>
  {
    match parser
    case Plain(convert) =>
      Ok(match ValueFromVm(c, vm) case None => None case Some(text) => Some(convert(text)))
    case Validated(validator) =>
      match ValueFromVm(c, vm)
      case Some(text) =>
        if text == "" then Ok(value)
        else if validator(text).Some? then Ok(validator(text))
        else Err(InvalidCommandLineOption("Could not parse " + Name(c) + " _defaultValue, incorrect format"))
      case None => Ok(value)
  }

  /** The rules `run` checks once the value is parsed, in order. */
  function Checked<T>(c: Config<T>, value: Option<T>, vm: VariablesMap): Result<(), OptionError>
  {
    var conflict := FirstPresent(c.conflictsWith, vm);
    if conflict.Some? && IsPresent(Name(c), vm) then
      Err(InvalidCommandLineOption("Conflicting options " + Name(c) + ", and " + conflict.value + " specified"))
    else if c.atLeastSet && FirstPresent(c.except, vm).None? && FirstPresent(c.atLeast, vm).None? then
      Err(InvalidCommandLineOption("At least one option out of " + Join(c.atLeast, ", ") + " must be present"))
    else if value.None? then
      Err(UnsupportedOperation("Unsupported use of option."))
    else Ok(())
  }

  /**
   * `run` succeeds exactly when the option is not present alongside a
   * present conflicting option, the at-least rule is met (some except or
   * at-least option is present) when it is set, and a value remains.
   */
  lemma CheckedOkIff<T>(c: Config<T>, value: Option<T>, vm: VariablesMap)
    ensures Checked(c, value, vm).Ok? <==>
      !(IsPresent(Name(c), vm) && exists i :: 0 <= i < |c.conflictsWith| && IsPresent(c.conflictsWith[i], vm))
      && (c.atLeastSet ==>
            (exists i :: 0 <= i < |c.except| && IsPresent(c.except[i], vm))
            || (exists i :: 0 <= i < |c.atLeast| && IsPresent(c.atLeast[i], vm)))
      && value.Some?
  {
  }

  /**
   * Because the option's own name ends its at-least list, an option that is
   * itself present always meets the at-least rule.
   */
  lemma PresentMeetsAtLeast<T>(s: Settings<T>, vm: VariablesMap)
    requires ConfigOf(s).Ok? && ConfigOf(s).value.atLeastSet
    requires IsPresent(Name(ConfigOf(s).value), vm)
    ensures FirstPresent(ConfigOf(s).value.atLeast, vm).Some?
  {
    var c := ConfigOf(s).value;
    assert c.atLeast[|c.atLeast| - 1] == Name(c);
  }

  /** A validated option whose text is absent or empty keeps its value, the default it started with. */
  lemma ValidatedKeepsValue<T>(c: Config<T>, validator: string -> Option<T>, value: Option<T>, vm: VariablesMap)
    requires ValueFromVm(c, vm).None? || ValueFromVm(c, vm) == Some("")
    ensures Parse(c, Validated(validator), value, vm) == Ok(value)
  {
  }

  /** A validated option takes the validator's value for a non-empty text, or fails when there is none. */
  lemma ValidatedTakesValidatorValue<T>(c: Config<T>, validator: string -> Option<T>, value: Option<T>,
                                        vm: VariablesMap, text: string)
    requires ValueFromVm(c, vm) == Some(text) && text != ""
    ensures Parse(c, Validated(validator), value, vm).Ok? <==> validator(text).Some?
    ensures validator(text).Some? ==> Parse(c, Validated(validator), value, vm) == Ok(validator(text))
  {
  }

  /** How `setOptionDesc` registers the option with the description. */
  datatype Registration =
    | WithDefault(representation: string)
    | WithImplicit(representation: string)
    | WithDefaultAndImplicit
    | PlainRegistration

  /**
   * `setOptionDesc`, with the representation the constructor supplies: the
   * given text, or the streamed value when none is given. The third branch
   * is written as the source has it.
   */
  function DescOf<T>(c: Config<T>, representation: Option<string>, show: T -> string): Registration
  {
    match c.defaultValue
    case Some(d) => WithDefault(if representation.Some? then representation.value else show(d))
    case None =>
      match c.implicitValue
      case Some(i) => WithImplicit(if representation.Some? then representation.value else show(i))
      case None => if c.defaultValue.Some? && c.implicitValue.Some? then WithDefaultAndImplicit else PlainRegistration
  }

  /** The default-and-implicit branch is never taken: an option with a default always takes the first branch. */
  lemma DefaultAndImplicitUnreachable<T>(c: Config<T>, representation: Option<string>, show: T -> string)
    ensures DescOf(c, representation, show) != WithDefaultAndImplicit
    ensures DescOf(c, representation, show).WithDefault? <==> c.defaultValue.Some?
    ensures DescOf(c, representation, show).WithImplicit? <==> c.defaultValue.None? && c.implicitValue.Some?
  {
  }

  /**
   * The representation `build` hands the validated option: the builder's
   * text when one was set or when the type cannot be streamed; otherwise
   * none, so the value is streamed.
   */
  function RepresentationFor<T>(s: Settings<T>, streamable: bool): (r: Option<string>)
    ensures r.Some? <==> s.representationSet || !streamable
    ensures r.Some? ==> r.value == s.representation
  {
    if s.representationSet || !streamable then Some(s.representation) else None
  }

  class CommandLineOption<T> {
    const config: Config<T>
    const parser: Parser<T>
    const registration: Registration
    var value: Option<T>

    /** The value starts as the default. */
    constructor(config: Config<T>, parser: Parser<T>, registration: Registration)
      ensures this.config == config && this.parser == parser && this.registration == registration
      ensures value == config.defaultValue
    {
      this.config := config;
      this.parser := parser;
      this.registration := registration;
      value := config.defaultValue;
    }

    /** `checkPresence`. */
    static method CheckPresence(names: seq<string>, vm: VariablesMap) returns (r: Option<string>)
      ensures r == FirstPresent(names, vm)
    {
      for i := 0 to |names|
        invariant FirstPresent(names, vm) == FirstPresent(names[i..], vm)
      {
        assert names[i..][0] == names[i] && names[i..][1..] == names[i + 1..];
        if IsPresent(names[i], vm) {
          return Some(names[i]);
        }
      }
      return None;
    }

    /** `parseValue`. */
    method ParseValue(vm: VariablesMap) returns (r: Result<(), OptionError>)
      modifies this`value
      ensures var p := Parse(config, parser, old(value), vm);
        (r.Ok? <==> p.Ok?) && (p.Err? ==> r.error == p.error && value == old(value)) && (p.Ok? ==> value == p.value)
    {
      var text := ValueFromVm(config, vm);
      if parser.Plain? {
        value := if text.Some? then Some(parser.convert(text.value)) else None;
      } else if text.Some? && text.value != "" {
        var validated := parser.validator(text.value);
        if validated.None? {
          return Err(InvalidCommandLineOption("Could not parse " + Name(config) + " _defaultValue, incorrect format"));
        }
        value := validated;
      }
      return Ok(());
    }

    /** `run`: parses the value, then checks the conflict, at-least and value rules in that order. */
    method Run(vm: VariablesMap) returns (r: Result<(), OptionError>)
      modifies this`value
      ensures var p := Parse(config, parser, old(value), vm);
        r == (if p.Err? then Err(p.error) else Checked(config, p.value, vm))
        && value == (if p.Ok? then p.value else old(value))
    {
      var parsed := ParseValue(vm);
      if parsed.Err? {
        return Err(parsed.error);
      }
      var conflict := CheckPresence(config.conflictsWith, vm);
      if conflict.Some? && IsPresent(Name(config), vm) {
        return Err(InvalidCommandLineOption("Conflicting options " + Name(config) + ", and " + conflict.value + " specified"));
      }
      if config.atLeastSet {
        var except := CheckPresence(config.except, vm);
        var atLeast := CheckPresence(config.atLeast, vm);
        if except.None? && atLeast.None? {
          return Err(InvalidCommandLineOption("At least one option out of " + Join(config.atLeast, ", ") + " must be present"));
        }
      }
      if value.None? {
        return Err(UnsupportedOperation("Unsupported use of option."));
      }
      return Ok(());
    }
  }

  /**
   * The validated option's constructors: the option constructor, then
   * `checkInvariants`, then the description registration with the given
   * representation or, without one, the streamed value.
   */
  method NewValidated<T>(s: Settings<T>, validator: string -> Option<T>, representation: Option<string>,
                         show: T -> string)
    returns (r: Result<CommandLineOption<T>, OptionError>)
    ensures r.Err? <==> ConfigOf(s).Err? || (s.defaultValue.None? && !s.required)
    ensures r.Ok? ==>
      fresh(r.value) && r.value.config == ConfigOf(s).value && r.value.parser == Validated(validator)
      && r.value.value == s.defaultValue && r.value.registration == DescOf(ConfigOf(s).value, representation, show)
  {
    var config := ConfigOf(s);
    if config.Err? {
      return Err(config.error);
    }
    var valid := CheckInvariants(config.value);
    if valid.Err? {
      return Err(valid.error);
    }
    var option := new CommandLineOption(config.value, Validated(validator), DescOf(config.value, representation, show));
    return Ok(option);
  }

  class OptionBuilder<T> {
    var shortName: string
    var longName: string
    var description: string
    var required: bool
    var multitoken: bool
    var conflictsWith: seq<string>
    var atLeast: seq<string>
    var exceptOption: seq<string>
    var implicitValue: Option<T>
    var positionalAmount: Option<int>
    var positionalDesc: bool
    var representation: string
    var representationSet: bool
    var defaultValue: Option<T>

    function Collected(): Settings<T>
      reads this
    {
      Settings(shortName, longName, description, required, multitoken, conflictsWith, atLeast, exceptOption,
               implicitValue, positionalAmount, positionalDesc, representation, representationSet, defaultValue)
    }

    constructor()
      ensures Collected() == FreshSettings()
    {
      shortName, longName, description := "", "", "";
      required, multitoken := false, false;
      conflictsWith, atLeast, exceptOption := [], [], [];
      implicitValue, positionalAmount, positionalDesc := None, None, false;
      representation, representationSet, defaultValue := "", false, None;
    }

    /** `shortName`: the one-character name. */
    method ShortName(c: char)
      modifies this`shortName
      ensures Collected() == old(Collected()).(shortName := [c])
    {
      shortName := [c];
    }

    method LongName(name: string)
      modifies this`longName
      ensures Collected() == old(Collected()).(longName := name)
    {
      longName := name;
    }

    method Description(text: string)
      modifies this`description
      ensures Collected() == old(Collected()).(description := text)
    {
      description := text;
    }

    /** `representation`: the text, and the flag that it was set. */
    method Representation(text: string)
      modifies this`representation, this`representationSet
      ensures Collected() == old(Collected()).(representation := text, representationSet := true)
    {
      representation := text;
      representationSet := true;
    }

    method Required()
      modifies this`required
      ensures Collected() == old(Collected()).(required := true)
    {
      required := true;
    }

    method Multitoken()
      modifies this`multitoken
      ensures Collected() == old(Collected()).(multitoken := true)
    {
      multitoken := true;
    }

    method DefaultValue(v: T)
      modifies this`defaultValue
      ensures Collected() == old(Collected()).(defaultValue := Some(v))
    {
      defaultValue := Some(v);
    }

    method ImplicitValue(v: T)
      modifies this`implicitValue
      ensures Collected() == old(Collected()).(implicitValue := Some(v))
    {
      implicitValue := Some(v);
    }

    /** `positional`: the amount and the positional description together. */
    method Positional(amount: int)
      modifies this`positionalAmount, this`positionalDesc
      ensures Collected() == old(Collected()).(positionalAmount := Some(amount), positionalDesc := true)
    {
      positionalAmount := Some(amount);
      positionalDesc := true;
    }

    /** Both `conflictsWith` variants: the names go last, in order. */
    method ConflictsWith(names: seq<string>)
      modifies this`conflictsWith
      ensures Collected() == old(Collected()).(conflictsWith := old(conflictsWith) + names)
    {
      conflictsWith := conflictsWith + names;
    }

    /** The one-list `atLeast` variants: the names go last, in order. */
    method AtLeast(names: seq<string>)
      modifies this`atLeast
      ensures Collected() == old(Collected()).(atLeast := old(atLeast) + names)
    {
      atLeast := atLeast + names;
    }

    /** The two-list `atLeast` variants: the names to the at-least list, the exceptions to the except list. */
    method AtLeastExcept(names: seq<string>, except: seq<string>)
      modifies this`atLeast, this`exceptOption
      ensures Collected() == old(Collected()).(atLeast := old(atLeast) + names, exceptOption := old(exceptOption) + except)
    {
      atLeast := atLeast + names;
      exceptOption := exceptOption + except;
    }

    /** `build(validator)`: whether the representation is passed depends on the flag and on the type. */
    method BuildValidated(streamable: bool, validator: string -> Option<T>, show: T -> string)
      returns (r: Result<CommandLineOption<T>, OptionError>)
      ensures r.Err? <==> ConfigOf(Collected()).Err? || (defaultValue.None? && !required)
      ensures r.Ok? ==>
        fresh(r.value) && r.value.config == ConfigOf(Collected()).value && r.value.value == defaultValue
        && r.value.registration == DescOf(ConfigOf(Collected()).value, RepresentationFor(Collected(), streamable), show)
    {
      r := NewValidated(Collected(), validator, RepresentationFor(Collected(), streamable), show);
    }
  }

  /** A fresh builder with only a short name makes no option: there is neither a default nor `required`. */
  lemma NoDefaultAndNotRequired<T>(c: char)
    ensures var s := FreshSettings<T>().(shortName := [c]);
      ConfigOf(s).Ok? && CheckInvariants(ConfigOf(s).value).Err?
  {
  }

  /**
   * A streamable option with a representation and a default registers the
   * default under the given representation, not the streamed value.
   */
  lemma RepresentationWins<T>(d: T, text: string, show: T -> string)
    ensures var s := FreshSettings<T>().(shortName := "a", representation := text, representationSet := true,
                                         defaultValue := Some(d));
      ConfigOf(s).Ok? && DescOf(ConfigOf(s).value, RepresentationFor(s, true), show) == WithDefault(text)
  {
  }
}

/**
 * The text rules of the command-line parsers: the Filetype stream
 * operators, log-level validation and the list of log-level names, the lines
 * of the generated config file, and the filetype taken from a file's
 * extension. The spdlog level names and `spdlog::level::from_str` are
 * parameters; a path is its generic text with '/' separators.
 */
module CoreParser {
  import opened Wrappers
  import opened Text

  datatype Filetype = Sqlite | Csv

  /** The error `operator>>` throws: an invalid value for the "filetype" option. */
  datatype ValidationError = InvalidOptionValue(option: string, value: string)

  /** `operator<<`: the lower-case name. */
  function FiletypeText(f: Filetype): (r: string)
    ensures r == "sqlite" || r == "csv"
  {
    match f
    case Sqlite => "sqlite"
    case Csv => "csv"
  }

  /**
   * `operator>>`: reads one word, lower-cases it and accepts exactly the two
   * names; any other word, the empty one included, is an invalid value.
   */
  function ReadFiletype(input: string): (r: Result<Filetype, ValidationError>)
    ensures r.Ok? <==> ToLower(Word(input)) == "sqlite" || ToLower(Word(input)) == "csv"
    ensures r.Ok? ==> FiletypeText(r.value) == ToLower(Word(input))
    ensures r.Err? ==> r.error == InvalidOptionValue("filetype", ToLower(Word(input)))
  {
    var token := ToLower(Word(input));
    if token == "sqlite" then Ok(Sqlite)
    else if token == "csv" then Ok(Csv)
    else Err(InvalidOptionValue("filetype", token))
  }

  /** Reading back what `operator<<` wrote gives the same filetype. */
  lemma FiletypeRoundTrip(f: Filetype)
    ensures ReadFiletype(FiletypeText(f)) == Ok(f)
  {
    var text := FiletypeText(f);
    WordOfWord(text);
    LowerUnchanged(text);
  }

  /** The name is read in any capitalisation. */
  lemma ReadFiletypeIgnoresCase(spelled: string, f: Filetype)
    requires forall i :: 0 <= i < |spelled| ==> !IsSpace(spelled[i])
    requires ToLower(spelled) == FiletypeText(f)
    ensures ReadFiletype(spelled) == Ok(f)
  {
    WordOfWord(spelled);
  }

  /** The spdlog levels, in the order the level list shows them. */
  datatype Level = Trace | Debug | Info | Warn | Error | Critical | Off

  const Levels: seq<Level> := [Trace, Debug, Info, Warn, Error, Critical, Off]

  /**
   * `validateLogLevel`: case-insensitive; "off" and "o" give off, any other
   * text that `from_str` maps to off is rejected, and everything else is
   * `from_str`'s level.
   */
  function ValidateLogLevel(logLevel: string, fromStr: string -> Level): (r: Option<Level>)
    ensures r == Some(Off) <==> ToLower(logLevel) == "off" || ToLower(logLevel) == "o"
    ensures r.None? <==>
      ToLower(logLevel) != "off" && ToLower(logLevel) != "o" && fromStr(ToLower(logLevel)) == Off
    ensures r.Some? && r.value != Off ==> r.value == fromStr(ToLower(logLevel))
  {
    var lower := ToLower(logLevel);
    if lower == "off" || lower == "o" then Some(Off)
    else if fromStr(lower) == Off then None
    else Some(fromStr(lower))
  }

  /** The capitalisation of the text never matters. */
  lemma ValidateLogLevelIgnoresCase(logLevel: string, fromStr: string -> Level)
    ensures ValidateLogLevel(logLevel, fromStr) == ValidateLogLevel(ToLower(logLevel), fromStr)
  {
    ToLowerIdempotent(logLevel);
  }

  /** The level names in list order. */
  function LevelNames(name: Level -> string): (r: seq<string>)
    ensures |r| == |Levels| && forall i :: 0 <= i < |Levels| ==> r[i] == name(Levels[i])
  {
    seq(|Levels|, i requires 0 <= i < |Levels| => name(Levels[i]))
  }

  /** `logLevelsString`: the seven names written by one format string. */
  function LogLevelsString(name: Level -> string): string
  {
    "[ " + (name(Trace) + (", " + (name(Debug) + (", " + (name(Info) + (", " + (name(Warn) + (", "
    + (name(Error) + (", " + (name(Critical) + (", " + name(Off))))))))))))) + " ]"
  }

  /**
   * `validLogLevels`: every name but the last followed by ", ", then the
   * last, between "[ " and " ]".
   */
  method ValidLogLevels(name: Level -> string) returns (out: string)
    ensures out == "[ " + Join(LevelNames(name), ", ") + " ]"
  {
    var levels := LevelNames(name);
    out := "[ ";
    for i := 0 to |levels| - 1
      invariant out == "[ " + Terminated(levels[..i], ", ")
    {
      TerminatedSnoc(levels[..i], levels[i], ", ");
      assert levels[..i + 1] == levels[..i] + [levels[i]];
      out := out + levels[i] + ", ";
    }
    JoinAsTerminated(levels, ", ");
    out := out + levels[|levels| - 1] + " ]";
  }

  /** The two parsers list the same text: the names in order, separated by ", ". */
  lemma LevelListsAgree(name: Level -> string)
    ensures LogLevelsString(name) == "[ " + Join(LevelNames(name), ", ") + " ]"
  {
    var n := LevelNames(name);
    assert n == [name(Trace)] + ([name(Debug)] + ([name(Info)] + ([name(Warn)] + ([name(Error)]
      + ([name(Critical)] + [name(Off)])))));
    JoinCons(name(Critical), [name(Off)], ", ");
    JoinCons(name(Error), [name(Critical)] + [name(Off)], ", ");
    JoinCons(name(Warn), [name(Error)] + ([name(Critical)] + [name(Off)]), ", ");
    JoinCons(name(Info), [name(Warn)] + ([name(Error)] + ([name(Critical)] + [name(Off)])), ", ");
    JoinCons(name(Debug), [name(Info)] + ([name(Warn)] + ([name(Error)] + ([name(Critical)] + [name(Off)]))), ", ");
    JoinCons(name(Trace), [name(Debug)] + ([name(Info)] + ([name(Warn)] + ([name(Error)]
      + ([name(Critical)] + [name(Off)])))), ", ");
  }

  /** One option as the config file shows it: its long name, whether it is required, and its value as text. */
  datatype ConfigOption = ConfigOption(longName: string, required: bool, value: string)

  /** `formatConfigOption`: a required option is commented out, then "name = value" and a newline. */
  function ConfigLine(option: ConfigOption): (line: string)
    ensures |line| > 0 && line[|line| - 1] == '\n'
  {
    (if option.required then "# " else "") + option.longName + " = " + option.value + "\n"
  }

  /** The position of the first '=' in the text. */
  function FirstEquals(s: string): (r: Option<nat>)
    ensures r.Some? ==> r.value < |s| && s[r.value] == '=' && forall i :: 0 <= i < r.value ==> s[i] != '='
    ensures r.None? ==> forall i :: 0 <= i < |s| ==> s[i] != '='
  {
    if s == [] then None
    else if s[0] == '=' then Some(0)
    else match FirstEquals(s[1..])
      case None => None
      case Some(k) => Some(k + 1)
  }

  /**
   * The setting a config-file line holds: none for a comment line (starting
   * with '#'); otherwise the name before the first " = " and the value after
   * it, up to the closing newline.
   */
  function Setting(line: string): Option<(string, string)>
  {
    if line == [] || line[0] == '#' || line[|line| - 1] != '\n' then None
    else match FirstEquals(line)
      case None => None
      case Some(k) =>
        if 1 <= k && k + 2 <= |line| - 1 && line[k - 1] == ' ' && line[k + 1] == ' ' then
          Some((line[..k - 1], line[k + 2..|line| - 1]))
        else None
  }

  /**
   * A line written for an option is read as that option's setting unless the
   * option is required, in which case it is a comment.
   */
  lemma ConfigLineReadsBack(option: ConfigOption)
    requires option.longName != "" && option.longName[0] != '#'
    requires forall i :: 0 <= i < |option.longName| ==> option.longName[i] != '='
    ensures Setting(ConfigLine(option)) == if option.required then None else Some((option.longName, option.value))
  {
    var line := ConfigLine(option);
    if !option.required {
      var n := |option.longName|;
      assert line == option.longName + (" = " + option.value + "\n");
      assert line[n + 1] == '=';
      assert FirstEquals(line) == Some(n + 1) by {
        forall i | 0 <= i < n + 1
          ensures line[i] != '='
        {
          if i < n {
            assert line[i] == option.longName[i];
          }
        }
      }
      assert line[..n] == option.longName;
      assert line[n + 3..|line| - 1] == option.value;
    }
  }

  /** `boolalpha` rendering of a flag. */
  function BoolAlpha(b: bool): string
  {
    if b then "true" else "false"
  }

  /** The comment that opens the generated config file. */
  const ConfigComment: string :=
    "# The following values represent the defaults for evgetx11.\n"
    + "# Commented out values are required to be present, either in the config file or on the command line."

  /**
   * The five config-file options in the order the file lists them: the
   * folder's default (the streamed path text), the filetypes and log level
   * by their representations, and the two flags' defaults. None of them is
   * required.
   */
  function CoreOptions(folderText: string, printDefault: bool, systemEventsDefault: bool): (r: seq<ConfigOption>)
    ensures |r| == 5
  {
    [ ConfigOption("folder", false, folderText),
      ConfigOption("filetypes", false, "sqlite"),
      ConfigOption("print", false, BoolAlpha(printDefault)),
      ConfigOption("use-system-events", false, BoolAlpha(systemEventsDefault)),
      ConfigOption("log-level", false, "warn") ]
  }

  /** The config file's text: the comment, a blank line, then one line per option in order. */
  function ConfigFile(options: seq<ConfigOption>): string
  {
    ConfigComment + "\n\n" + Lines(options)
  }

  function Lines(options: seq<ConfigOption>): string
  {
    if options == [] then "" else ConfigLine(options[0]) + Lines(options[1..])
  }

  /** `formatConfigFile`: the comment, a blank line, and the five option lines appended in order. */
  method FormatConfigFile(folderText: string, printDefault: bool, systemEventsDefault: bool) returns (out: string)
    ensures out == ConfigFile(CoreOptions(folderText, printDefault, systemEventsDefault))
  {
    var options := CoreOptions(folderText, printDefault, systemEventsDefault);
    out := ConfigComment;
    out := out + "\n\n";
    for i := 0 to |options|
      invariant out + Lines(options[i..]) == ConfigFile(options)
    {
      assert options[i..][1..] == options[i + 1..];
      out := out + ConfigLine(options[i]);
    }
  }

  /**
   * Every line of the generated file is a live setting (none is commented
   * out), naming folder, filetypes, print, use-system-events and log-level
   * in that order, with the defaults as values.
   */
  lemma CoreOptionsSettings(folderText: string, printDefault: bool, systemEventsDefault: bool)
    ensures var options := CoreOptions(folderText, printDefault, systemEventsDefault);
      forall i :: 0 <= i < 5 ==> Setting(ConfigLine(options[i])) == Some((options[i].longName, options[i].value))
    ensures var options := CoreOptions(folderText, printDefault, systemEventsDefault);
      [options[0].longName, options[1].longName, options[2].longName, options[3].longName, options[4].longName]
        == ["folder", "filetypes", "print", "use-system-events", "log-level"]
  {
    var options := CoreOptions(folderText, printDefault, systemEventsDefault);
    forall i | 0 <= i < 5
      ensures Setting(ConfigLine(options[i])) == Some((options[i].longName, options[i].value))
    {
      ConfigLineReadsBack(options[i]);
    }
  }

  /** `filename()` of a path: the text after its last '/'. */
  function FileName(path: string): (r: string)
    ensures |r| <= |path| && forall i :: 0 <= i < |r| ==> r[i] != '/'
  {
    if path == [] || path[|path| - 1] == '/' then ""
    else FileName(path[..|path| - 1]) + [path[|path| - 1]]
  }

  /** The position of the last '.' in the text. */
  function LastDot(s: string): (r: Option<nat>)
    ensures r.Some? ==> r.value < |s| && s[r.value] == '.' && forall i :: r.value < i < |s| ==> s[i] != '.'
    ensures r.None? ==> forall i :: 0 <= i < |s| ==> s[i] != '.'
  {
    if s == [] then None
    else if s[|s| - 1] == '.' then Some(|s| - 1)
    else LastDot(s[..|s| - 1])
  }

  /**
   * `extension()` of a path, as the C++ library defines it: from the last
   * '.' of the file name on, except for the names "." and "..", a name
   * without a '.', and a name whose only '.' leads it.
   */
  function Extension(path: string): (r: string)
    ensures r != "" ==> r[0] == '.'
  {
    var name := FileName(path);
    if name == "." || name == ".." then ""
    else match LastDot(name)
      case None => ""
      case Some(k) => if k == 0 then "" else name[k..]
  }

  /**
   * `extractFiletype`: the extension without its dot is read as a filetype;
   * when that fails the default, sqlite, is used.
   */
  function ExtractFiletype(path: string): Filetype
  {
    var ext := Extension(path);
    var stripped := if ext == "" then "" else ext[1..];
    match ReadFiletype(stripped)
    case Ok(f) => f
    case Err(_) => Sqlite
  }

  /** The extension of "base.ext" is ".ext" when "ext" holds neither '.' nor '/'. */
  lemma ExtensionOfDotted(base: string, ext: string)
    requires base != "" && base[|base| - 1] != '/'
    requires ext != "" && forall i :: 0 <= i < |ext| ==> ext[i] != '.' && ext[i] != '/'
    ensures Extension(base + "." + ext) == "." + ext
  {
    var stem := FileName(base);
    FileNameAppend(base, "." + ext);
    assert base + "." + ext == base + ("." + ext);
    assert stem + ("." + ext) == stem + "." + ext;
    var name := stem + "." + ext;
    assert FileName(base + "." + ext) == name;
    assert |stem| > 0 && |name| >= 3;
    LastDotAfter(stem, ext);
    assert name[|stem|..] == "." + ext;
  }

  /**
   * A file name "base.ext" selects csv exactly when the extension reads as
   * csv in any capitalisation; any other extension gives sqlite.
   */
  lemma ExtensionSelectsFiletype(base: string, ext: string)
    requires base != "" && base[|base| - 1] != '/'
    requires ext != "" && forall i :: 0 <= i < |ext| ==> ext[i] != '.' && ext[i] != '/' && !IsSpace(ext[i])
    ensures ExtractFiletype(base + "." + ext) == (if ToLower(ext) == "csv" then Csv else Sqlite)
  {
    ExtensionOfDotted(base, ext);
    assert ("." + ext)[1..] == ext;
    WordOfWord(ext);
  }

  /** A path whose file name has no '.' after its first character gives sqlite. */
  lemma NoExtensionIsSqlite(path: string)
    requires forall i :: 0 < i < |FileName(path)| ==> FileName(path)[i] != '.'
    ensures ExtractFiletype(path) == Sqlite
  {
    assert Extension(path) == "";
  }

  /** Appending text without a '/' extends the file name by that text. */
  lemma {:induction false} FileNameAppend(path: string, tail: string)
    requires forall i :: 0 <= i < |tail| ==> tail[i] != '/'
    ensures FileName(path + tail) == FileName(path) + tail
    decreases |tail|
  {
    if tail != [] {
      var init := tail[..|tail| - 1];
      var last := tail[|tail| - 1];
      assert path + tail == (path + init) + [last];
      FileNameAppend(path, init);
      FileNameSnoc(path + init, last);
      assert (FileName(path) + init) + [last] == FileName(path) + tail;
    } else {
      assert path + tail == path && FileName(path) + tail == FileName(path);
    }
  }

  /** One more character other than '/' extends the file name by it. */
  lemma FileNameSnoc(path: string, c: char)
    requires c != '/'
    ensures FileName(path + [c]) == FileName(path) + [c]
  {
    assert (path + [c])[..|path|] == path;
  }

  /** The last '.' of "stem.ext" is the one before "ext" when "ext" has none. */
  lemma {:induction false} LastDotAfter(stem: string, ext: string)
    requires forall i :: 0 <= i < |ext| ==> ext[i] != '.'
    ensures LastDot(stem + "." + ext) == Some(|stem|)
    decreases |ext|
  {
    if ext != [] {
      var init := ext[..|ext| - 1];
      assert (stem + "." + ext)[..|stem + "." + ext| - 1] == stem + "." + init;
      LastDotAfter(stem, init);
    }
  }
}

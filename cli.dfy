/**
 * `Cli`: the `--output` values given on the command line become the list of
 * stores the events are written to. An output with a SQLite file suffix is a
 * database that is initialised first; any other output is a JSON store, on
 * standard output for "-" and appended to the named file otherwise. The
 * outcome of initialising the database at each path (`init`) is fixed by the
 * environment; `Storage.DatabaseStorage.Init` models what it does.
 */
module Cli {
  import opened Wrappers
  import opened Text
  import opened Database

  datatype StorageType = kSqLite | kJson

  /** The file suffixes that select SQLite storage. */
  const SqliteSuffixes: seq<string> := [".sqlite", ".sqlite3", ".db", ".db3", ".s3db", ".sl3"]

  /** Whether `output` ends with one of `suffixes`, tried in order. */
  predicate EndsWithAny(output: string, suffixes: seq<string>)
    decreases |suffixes|
  {
    suffixes != [] && (EndsWith(output, suffixes[0]) || EndsWithAny(output, suffixes[1..]))
  }

  /** `GetStorageType`: SQLite for one of the SQLite suffixes, JSON for every other output. */
  function GetStorageType(output: string): StorageType {
    if EndsWithAny(output, SqliteSuffixes) then kSqLite else kJson
  }

  lemma {:induction false} EndsWithAnyMember(output: string, suffixes: seq<string>)
    ensures EndsWithAny(output, suffixes) <==> exists k :: 0 <= k < |suffixes| && EndsWith(output, suffixes[k])
    decreases |suffixes|
  {
    if suffixes != [] {
      EndsWithAnyMember(output, suffixes[1..]);
      if EndsWithAny(output, suffixes[1..]) {
        var k :| 0 <= k < |suffixes[1..]| && EndsWith(output, suffixes[1..][k]);
        assert EndsWith(output, suffixes[k + 1]);
      }
      forall k | 0 < k < |suffixes| && EndsWith(output, suffixes[k])
        ensures EndsWithAny(output, suffixes[1..])
      {
        assert suffixes[1..][k - 1] == suffixes[k];
      }
    }
  }

  /** An output is stored in SQLite iff it ends with one of the SQLite suffixes. */
  lemma StorageTypeBySuffix(output: string)
    ensures GetStorageType(output) == kSqLite
      <==> exists k :: 0 <= k < |SqliteSuffixes| && EndsWith(output, SqliteSuffixes[k])
  {
    EndsWithAnyMember(output, SqliteSuffixes);
  }

  lemma EndsWithAppend(name: string, suffix: string)
    ensures EndsWith(name + suffix, suffix)
  {
    assert (name + suffix)[|name|..] == suffix;
  }

  /** Any name followed by one of the SQLite suffixes is stored in SQLite. */
  lemma SqliteSuffixDetected(name: string, k: nat)
    requires k < |SqliteSuffixes|
    ensures GetStorageType(name + SqliteSuffixes[k]) == kSqLite
  {
    EndsWithAppend(name, SqliteSuffixes[k]);
    StorageTypeBySuffix(name + SqliteSuffixes[k]);
  }

  /** An output without a dot, such as "-", is a JSON store. */
  lemma DotlessIsJson(output: string)
    requires '.' !in output
    ensures GetStorageType(output) == kJson
  {
    StorageTypeBySuffix(output);
    forall k | 0 <= k < |SqliteSuffixes|
      ensures !EndsWith(output, SqliteSuffixes[k])
    {
      assert SqliteSuffixes[k][0] == '.';
    }
  }

  /**
   * Outputs are lower-cased before they are recorded, so a SQLite suffix is
   * recognised however it is capitalised.
   */
  lemma SuffixIgnoresCase(name: string, spelled: string, k: nat)
    requires k < |SqliteSuffixes| && ToLower(spelled) == SqliteSuffixes[k]
    ensures GetStorageType(ToLower(name + spelled)) == kSqLite
  {
    ToLowerAppend(name, spelled);
    SqliteSuffixDetected(ToLower(name), k);
  }

  /** Every value lower-cased, in order. */
  function LowerAll(values: seq<string>): (r: seq<string>)
    ensures |r| == |values|
    ensures forall k :: 0 <= k < |values| ==> r[k] == ToLower(values[k])
  {
    seq(|values|, k requires 0 <= k < |values| => ToLower(values[k]))
  }

  /** The outputs after parsing: those recorded, or "-" alone when there are none. */
  function ParsedOutputs(recorded: seq<string>, values: seq<string>): seq<string> {
    if recorded + LowerAll(values) == [] then ["-"] else recorded + LowerAll(values)
  }

  /**
   * Parsing the `--output` values `values` into a fresh list keeps them in
   * order and lower-cased, and yields exactly ["-"] when there are none.
   */
  lemma ParsedOutputsOfValues(values: seq<string>)
    ensures values == [] ==> ParsedOutputs([], values) == ["-"]
    ensures values != [] ==>
      (|ParsedOutputs([], values)| == |values|
       && forall k :: 0 <= k < |values| ==> ParsedOutputs([], values)[k] == ToLower(values[k]))
  {
    assert [] + LowerAll(values) == LowerAll(values);
  }

  /** Every parsed output is already lower case. */
  lemma ParsedOutputsLower(values: seq<string>)
    ensures forall o :: o in ParsedOutputs([], values) ==> ToLower(o) == o
  {
    assert [] + LowerAll(values) == LowerAll(values);
    forall o | o in ParsedOutputs([], values)
      ensures ToLower(o) == o
    {
      if values != [] {
        var k :| 0 <= k < |values| && LowerAll(values)[k] == o;
        ToLowerIdempotent(values[k]);
      }
    }
  }

  /** The store each output becomes. */
  datatype Store = SqliteStore(database: string) | JsonStdout | JsonFile(path: string)

  function StoreOf(output: string): Store {
    if GetStorageType(output) == kSqLite then SqliteStore(output)
    else if output == "-" then JsonStdout
    else JsonFile(output)
  }

  /** Whether initialising the store for `output` fails. */
  predicate InitFails(output: string, init: string -> Result<(), Error>) {
    GetStorageType(output) == kSqLite && init(output).Err?
  }

  /** `ToStores` over `outputs`: the stores in order, or the error of the first failing `Init`. */
  function StoresOf(outputs: seq<string>, init: string -> Result<(), Error>): Result<seq<Store>, Error>
    decreases |outputs|
  {
    if outputs == [] then Ok([])
    else
      var last := outputs[|outputs| - 1];
      match StoresOf(outputs[..|outputs| - 1], init)
      case Err(e) => Err(e)
      case Ok(stores) =>
        if InitFails(last, init) then Err(init(last).error) else Ok(stores + [StoreOf(last)])
  }

  /** `ToStores` succeeds iff no SQLite `Init` fails, and then yields one store per output in order. */
  lemma {:induction false} StoresInOrder(outputs: seq<string>, init: string -> Result<(), Error>)
    ensures StoresOf(outputs, init).Ok? <==> forall k :: 0 <= k < |outputs| ==> !InitFails(outputs[k], init)
    ensures StoresOf(outputs, init).Ok? ==>
      |StoresOf(outputs, init).value| == |outputs|
      && forall k :: 0 <= k < |outputs| ==> StoresOf(outputs, init).value[k] == StoreOf(outputs[k])
    decreases |outputs|
  {
    if outputs != [] {
      var n := |outputs| - 1;
      StoresInOrder(outputs[..n], init);
      assert forall k :: 0 <= k < n ==> outputs[..n][k] == outputs[k];
    }
  }

  /** A failing `ToStores` returns the error of the first output whose `Init` fails. */
  lemma {:induction false} FirstFailureReturned(outputs: seq<string>, init: string -> Result<(), Error>)
    requires StoresOf(outputs, init).Err?
    ensures exists k ::
      (0 <= k < |outputs| && InitFails(outputs[k], init)
       && StoresOf(outputs, init).error == init(outputs[k]).error
       && forall j :: 0 <= j < k ==> !InitFails(outputs[j], init))
    decreases |outputs|
  {
    var n := |outputs| - 1;
    var prefix := outputs[..n];
    assert forall j :: 0 <= j < n ==> prefix[j] == outputs[j];
    if StoresOf(prefix, init).Err? {
      FirstFailureReturned(prefix, init);
      var k :| 0 <= k < n && InitFails(prefix[k], init) && StoresOf(prefix, init).error == init(prefix[k]).error
        && forall j :: 0 <= j < k ==> !InitFails(prefix[j], init);
      assert InitFails(outputs[k], init);
    } else {
      StoresInOrder(prefix, init);
      assert InitFails(outputs[n], init);
    }
  }

  class Cli {
    /** The outputs recorded so far, lower-cased. */
    var output: seq<string>
    /** Whether logging has been switched off (an output on standard output). */
    var loggingOff: bool

    constructor()
      ensures output == [] && !loggingOff
    {
      output := [];
      loggingOff := false;
    }

    /** The `--output` callback: "-" switches logging off; the value is recorded lower-cased. */
    method RecordOutput(value: string)
      modifies this
      ensures output == old(output) + [ToLower(value)]
      ensures loggingOff == (old(loggingOff) || value == "-")
    {
      if value == "-" {
        loggingOff := true;
      }
      output := output + [ToLower(value)];
    }

    /**
     * `Parse` given the `--output` values in command-line order: each is
     * recorded, and if none was, the outputs become ["-"] with logging off.
     */
    method Parse(values: seq<string>)
      modifies this
      ensures output == ParsedOutputs(old(output), values)
      ensures loggingOff == (old(loggingOff) || "-" in values || old(output) + values == [])
    {
      for i := 0 to |values|
        invariant output == old(output) + LowerAll(values[..i])
        invariant loggingOff == (old(loggingOff) || "-" in values[..i])
      {
        RecordOutput(values[i]);
        assert values[..i + 1] == values[..i] + [values[i]];
        assert LowerAll(values[..i + 1]) == LowerAll(values[..i]) + [ToLower(values[i])];
      }
      assert values[..|values|] == values;
      if output == [] {
        output := output + ["-"];
        loggingOff := true;
        assert old(output) + LowerAll(values) == [];
      }
    }

    /** `ToStores`: one store per output in order; the first failing `Init` ends it with its error. */
    method ToStores(init: string -> Result<(), Error>) returns (r: Result<seq<Store>, Error>)
      ensures r == StoresOf(output, init)
    {
      var stores: seq<Store> := [];
      for i := 0 to |output|
        invariant StoresOf(output[..i], init) == Ok(stores)
      {
        assert output[..i + 1][..i] == output[..i];
        var o := output[i];
        match GetStorageType(o)
        case kSqLite =>
          var result := init(o);
          if result.Err? {
            assert output[..i + 1][i] == o;
            FailureIsFinal(output, i + 1, init);
            return Err(result.error);
          }
          stores := stores + [SqliteStore(o)];
        case kJson =>
          if o == "-" {
            stores := stores + [JsonStdout];
          } else {
            stores := stores + [JsonFile(o)];
          }
      }
      assert output[..|output|] == output;
      r := Ok(stores);
    }
  }

  /** Once `ToStores` has failed on a prefix, it fails with the same error on the whole list. */
  lemma {:induction false} FailureIsFinal(outputs: seq<string>, i: nat, init: string -> Result<(), Error>)
    requires i <= |outputs| && StoresOf(outputs[..i], init).Err?
    ensures StoresOf(outputs, init) == StoresOf(outputs[..i], init)
    decreases |outputs| - i
  {
    if i < |outputs| {
      assert outputs[..i + 1][..i] == outputs[..i];
      FailureIsFinal(outputs, i + 1, init);
    } else {
      assert outputs[..i] == outputs;
    }
  }
}

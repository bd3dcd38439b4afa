/**
 * `DatabaseStorage`: stores the entries of one event in SQLite, routing each
 * entry to the insert statements of its entry type, and initialises the
 * database by running the one schema migration. Random UUIDs are the values
 * `uuid(0)`, `uuid(1)`, … of a generator fixed by the environment; `drawn`
 * counts how many have been taken.
 */
module Storage {
  import opened Wrappers
  import opened Schema
  import opened Entries
  import opened Database
  import opened Migrations

  // Call traces of a successful store

  /** The calls binding `data[i]` at position `i + 1`, in order. */
  function DataBinds(statement: Statement, data: seq<string>): seq<Call>
    decreases |data|
  {
    if data == [] then []
    else DataBinds(statement, data[..|data| - 1]) + [BindChars(statement, |data|, data[|data| - 1])]
  }

  /** `BindValues`: the entry UUID at position 0, the data after it, then step and reset. */
  function ValueCalls(statement: Statement, data: seq<string>, entryUuid: string): seq<Call> {
    [BindChars(statement, 0, entryUuid)] + DataBinds(statement, data) + [NextWhile(statement), Reset(statement)]
  }

  /** One modifier row: its own UUID, the entry's UUID and the modifier, then step and reset. */
  function ModifierBlock(statement: Statement, modifierUuid: string, entryUuid: string, modifier: string): seq<Call> {
    [ BindChars(statement, 0, modifierUuid), BindChars(statement, 1, entryUuid), BindChars(statement, 2, modifier)
    , NextWhile(statement), Reset(statement) ]
  }

  /** `BindValuesModifier`: one block per modifier, drawing UUIDs `uuid(first)`, `uuid(first + 1)`, …. */
  function ModifierCalls(statement: Statement, modifiers: seq<string>, entryUuid: string, uuid: nat -> string, first: nat): seq<Call>
    decreases |modifiers|
  {
    if modifiers == [] then []
    else
      ModifierCalls(statement, modifiers[..|modifiers| - 1], entryUuid, uuid, first)
      + ModifierBlock(statement, uuid(first + |modifiers| - 1), entryUuid, modifiers[|modifiers| - 1])
  }

  /** The builds `SetOptionalStatement` issues for a statement not built yet in this call. */
  function BuildIfMissing(statement: Statement, built: set<Statement>): seq<Call> {
    if statement in built then [] else [BuildQuery(statement)]
  }

  /** `InsertEvents` for one entry whose entry UUID is `uuid(first)`. */
  function EntryCalls(uuid: nat -> string, entry: Entry, built: set<Statement>, first: nat): seq<Call> {
    var insert := InsertEvent(entry.entryType);
    var modifier := InsertModifier(entry.entryType);
    (BuildIfMissing(insert, built) + BuildIfMissing(modifier, built))
    + (ValueCalls(insert, entry.data, uuid(first)) + ModifierCalls(modifier, entry.modifiers, uuid(first), uuid, first + 1))
  }

  /** The statements of an entry's type. */
  function StatementsOf(entryType: EntryType): set<Statement> {
    {InsertEvent(entryType), InsertModifier(entryType)}
  }

  lemma StatementsOfMembers(entryType: EntryType, statement: Statement)
    ensures statement in StatementsOf(entryType) <==> statement == InsertEvent(entryType) || statement == InsertModifier(entryType)
  {
  }

  /** The statements built while storing `entries`: those of every entry with data. */
  function Built(entries: seq<Entry>): set<Statement>
    decreases |entries|
  {
    if entries == [] then {}
    else (if entries[0].data == [] then {} else StatementsOf(entries[0].entryType)) + Built(entries[1..])
  }

  /** The UUIDs drawn while storing one entry: none without data, else one for it and one per modifier. */
  function DrawsOf(entry: Entry): nat {
    if entry.data == [] then 0 else 1 + |entry.modifiers|
  }

  /** The UUIDs drawn while storing `entries`. */
  function Draws(entries: seq<Entry>): nat
    decreases |entries|
  {
    if entries == [] then 0 else DrawsOf(entries[0]) + Draws(entries[1..])
  }

  /** The calls for one entry, given the statements built so far and the index of its first UUID. */
  type EntryTrace = (Entry, set<Statement>, nat) -> seq<Call>

  function EntryTraceOf(uuid: nat -> string): EntryTrace {
    (entry: Entry, built: set<Statement>, first: nat) => EntryCalls(uuid, entry, built, first)
  }

  /**
   * The loop of `StoreEvent` over `entries` when no call fails, given the
   * statements built so far and the index of the next UUID; entries without
   * data are skipped.
   */
  function StoreCalls(entryCalls: EntryTrace, entries: seq<Entry>, built: set<Statement>, first: nat): seq<Call>
    decreases |entries|
  {
    if entries == [] then []
    else if entries[0].data == [] then StoreCalls(entryCalls, entries[1..], built, first)
    else
      entryCalls(entries[0], built, first)
      + StoreCalls(entryCalls, entries[1..], built + StatementsOf(entries[0].entryType), first + DrawsOf(entries[0]))
  }

  /** The loop step over an entry without data: nothing is issued, built or drawn. */
  lemma StoreStepEmpty(entryCalls: EntryTrace, entries: seq<Entry>, i: nat, built: set<Statement>, first: nat)
    requires i < |entries| && entries[i].data == []
    ensures StoreCalls(entryCalls, entries[i..], built, first) == StoreCalls(entryCalls, entries[i + 1..], built, first)
    ensures Draws(entries[i..]) == Draws(entries[i + 1..])
  {
    assert entries[i..][1..] == entries[i + 1..];
  }

  lemma DrawsStep(entries: seq<Entry>, i: nat)
    requires i < |entries|
    ensures Draws(entries[i..]) == DrawsOf(entries[i]) + Draws(entries[i + 1..])
  {
    assert entries[i..][1..] == entries[i + 1..];
  }

  /** The loop step over an entry with data: its trace comes first, then the rest with its statements built. */
  lemma StoreStepData(entryCalls: EntryTrace, entries: seq<Entry>, i: nat, built: set<Statement>, first: nat)
    requires i < |entries| && entries[i].data != []
    ensures StoreCalls(entryCalls, entries[i..], built, first)
      == entryCalls(entries[i], built, first)
         + StoreCalls(entryCalls, entries[i + 1..], built + StatementsOf(entries[i].entryType), first + DrawsOf(entries[i]))
    ensures Draws(entries[i..]) == DrawsOf(entries[i]) + Draws(entries[i + 1..])
  {
    assert entries[i..][1..] == entries[i + 1..];
  }

  // Properties of the traces

  /** `data[k]` is bound at position `k + 1`, in order, and nothing else is bound. */
  lemma {:induction false} DataBindPositions(statement: Statement, data: seq<string>)
    ensures |DataBinds(statement, data)| == |data|
    ensures forall k :: 0 <= k < |data| ==> DataBinds(statement, data)[k] == BindChars(statement, k + 1, data[k])
    decreases |data|
  {
    if data != [] {
      DataBindPositions(statement, data[..|data| - 1]);
    }
  }

  /** The `j`-th modifier row binds `uuid(first + j)`, the entry UUID and `modifiers[j]`. */
  lemma {:induction false} ModifierRows(statement: Statement, modifiers: seq<string>, entryUuid: string, uuid: nat -> string, first: nat)
    ensures |ModifierCalls(statement, modifiers, entryUuid, uuid, first)| == 5 * |modifiers|
    ensures forall j :: 0 <= j < |modifiers| ==>
      ModifierCalls(statement, modifiers, entryUuid, uuid, first)[5 * j..5 * j + 5]
        == ModifierBlock(statement, uuid(first + j), entryUuid, modifiers[j])
    decreases |modifiers|
  {
    if modifiers != [] {
      var n := |modifiers| - 1;
      var prefix := ModifierCalls(statement, modifiers[..n], entryUuid, uuid, first);
      var calls := ModifierCalls(statement, modifiers, entryUuid, uuid, first);
      ModifierRows(statement, modifiers[..n], entryUuid, uuid, first);
      var block := ModifierBlock(statement, uuid(first + n), entryUuid, modifiers[n]);
      assert calls == prefix + block;
      forall j | 0 <= j < |modifiers|
        ensures calls[5 * j..5 * j + 5] == ModifierBlock(statement, uuid(first + j), entryUuid, modifiers[j])
      {
        if j < n {
          SliceOfLeft(prefix, block, 5 * j, 5 * j + 5);
          assert modifiers[..n][j] == modifiers[j];
        } else {
          SliceOfRight(prefix, block);
        }
      }
    }
  }

  lemma SliceOfLeft(a: seq<Call>, b: seq<Call>, lo: nat, hi: nat)
    requires lo <= hi <= |a|
    ensures (a + b)[lo..hi] == a[lo..hi]
  {
  }

  lemma SliceOfRight(a: seq<Call>, b: seq<Call>)
    ensures (a + b)[|a|..|a| + |b|] == b
  {
  }

  /** The statement a call works on, if any. */
  function StatementOf(call: Call): Option<Statement> {
    match call
    case BuildQuery(s) => Some(s)
    case BindInt(s, _, _) => Some(s)
    case BindChars(s, _, _) => Some(s)
    case Next(s) => Some(s)
    case NextWhile(s) => Some(s)
    case Exec(s) => Some(s)
    case Reset(s) => Some(s)
    case _ => None
  }

  /** Every call of `calls` works on one of `statements`. */
  predicate Within(calls: seq<Call>, statements: set<Statement>) {
    forall k :: 0 <= k < |calls| ==> StatementOf(calls[k]).Some? && StatementOf(calls[k]).value in statements
  }

  lemma {:induction false} DataBindsWithin(statement: Statement, data: seq<string>)
    ensures Within(DataBinds(statement, data), {statement})
    decreases |data|
  {
    if data != [] {
      DataBindsWithin(statement, data[..|data| - 1]);
    }
  }

  lemma {:induction false} ModifierCallsWithin(statement: Statement, modifiers: seq<string>, entryUuid: string, uuid: nat -> string, first: nat)
    ensures Within(ModifierCalls(statement, modifiers, entryUuid, uuid, first), {statement})
    decreases |modifiers|
  {
    if modifiers != [] {
      ModifierCallsWithin(statement, modifiers[..|modifiers| - 1], entryUuid, uuid, first);
    }
  }

  /** Each entry goes to the insert and modifier statements of its own type, and to no other. */
  lemma EntryRouted(uuid: nat -> string, entry: Entry, built: set<Statement>, first: nat)
    ensures Within(EntryCalls(uuid, entry, built, first), StatementsOf(entry.entryType))
  {
    var insert := InsertEvent(entry.entryType);
    var modifier := InsertModifier(entry.entryType);
    DataBindsWithin(insert, entry.data);
    ModifierCallsWithin(modifier, entry.modifiers, uuid(first), uuid, first + 1);
    var parts := [ BuildIfMissing(insert, built), BuildIfMissing(modifier, built)
                 , ValueCalls(insert, entry.data, uuid(first))
                 , ModifierCalls(modifier, entry.modifiers, uuid(first), uuid, first + 1) ];
    forall p | 0 <= p < |parts|
      ensures Within(parts[p], StatementsOf(entry.entryType))
    {
    }
    WithinConcat(parts[0], parts[1], StatementsOf(entry.entryType));
    WithinConcat(parts[2], parts[3], StatementsOf(entry.entryType));
    WithinConcat(parts[0] + parts[1], parts[2] + parts[3], StatementsOf(entry.entryType));
  }

  lemma WithinConcat(a: seq<Call>, b: seq<Call>, statements: set<Statement>)
    requires Within(a, statements) && Within(b, statements)
    ensures Within(a + b, statements)
  {
    forall k | 0 <= k < |a + b|
      ensures StatementOf((a + b)[k]).Some? && StatementOf((a + b)[k]).value in statements
    {
      if k >= |a| {
        assert (a + b)[k] == b[k - |a|];
      }
    }
  }

  /** How often `call` occurs in `calls`. */
  function Count(calls: seq<Call>, call: Call): nat {
    multiset(calls)[call]
  }

  /** Occurrences in a concatenation add up. */
  lemma CountAppend(a: seq<Call>, b: seq<Call>, call: Call)
    ensures Count(a + b, call) == Count(a, call) + Count(b, call)
  {
    assert multiset(a + b) == multiset(a) + multiset(b);
  }

  /** Binding data builds nothing. */
  lemma {:induction false} DataBindsNoBuild(statement: Statement, data: seq<string>, s: Statement)
    ensures Count(DataBinds(statement, data), BuildQuery(s)) == 0
    decreases |data|
  {
    if data != [] {
      var n := |data| - 1;
      DataBindsNoBuild(statement, data[..n], s);
      CountAppend(DataBinds(statement, data[..n]), [BindChars(statement, |data|, data[n])], BuildQuery(s));
    }
  }

  /** Inserting an entry's row builds nothing. */
  lemma ValueCallsNoBuild(statement: Statement, data: seq<string>, entryUuid: string, s: Statement)
    ensures Count(ValueCalls(statement, data, entryUuid), BuildQuery(s)) == 0
  {
    var head := [BindChars(statement, 0, entryUuid)];
    var step := [NextWhile(statement), Reset(statement)];
    DataBindsNoBuild(statement, data, s);
    CountAppend(head, DataBinds(statement, data), BuildQuery(s));
    CountAppend(head + DataBinds(statement, data), step, BuildQuery(s));
  }

  /** One modifier row builds nothing. */
  lemma BlockNoBuild(statement: Statement, modifierUuid: string, entryUuid: string, modifier: string, s: Statement)
    ensures Count(ModifierBlock(statement, modifierUuid, entryUuid, modifier), BuildQuery(s)) == 0
  {
    var block := ModifierBlock(statement, modifierUuid, entryUuid, modifier);
    assert multiset(block) == multiset{block[0], block[1], block[2], block[3], block[4]};
  }

  /** Inserting modifier rows builds nothing. */
  lemma {:induction false} ModifierCallsNoBuild(statement: Statement, modifiers: seq<string>, entryUuid: string, uuid: nat -> string, first: nat, s: Statement)
    ensures Count(ModifierCalls(statement, modifiers, entryUuid, uuid, first), BuildQuery(s)) == 0
    decreases |modifiers|
  {
    if modifiers != [] {
      var n := |modifiers| - 1;
      ModifierCallsNoBuild(statement, modifiers[..n], entryUuid, uuid, first, s);
      BlockNoBuild(statement, uuid(first + n), entryUuid, modifiers[n], s);
      CountAppend(ModifierCalls(statement, modifiers[..n], entryUuid, uuid, first),
        ModifierBlock(statement, uuid(first + n), entryUuid, modifiers[n]), BuildQuery(s));
    }
  }

  /** The two optional builds of an entry type build each missing statement once. */
  lemma BuildsCount(insert: Statement, modifier: Statement, built: set<Statement>, statement: Statement)
    requires insert != modifier
    ensures Count(BuildIfMissing(insert, built) + BuildIfMissing(modifier, built), BuildQuery(statement))
      == if (statement == insert || statement == modifier) && statement !in built then 1 else 0
  {
    CountAppend(BuildIfMissing(insert, built), BuildIfMissing(modifier, built), BuildQuery(statement));
  }

  /** An entry's calls build each of its statements once if it is not built yet, and nothing else. */
  lemma EntryBuilds(uuid: nat -> string, entry: Entry, built: set<Statement>, first: nat, statement: Statement)
    ensures Count(EntryCalls(uuid, entry, built, first), BuildQuery(statement))
      == if statement in StatementsOf(entry.entryType) && statement !in built then 1 else 0
  {
    var insert := InsertEvent(entry.entryType);
    var modifier := InsertModifier(entry.entryType);
    var builds := BuildIfMissing(insert, built) + BuildIfMissing(modifier, built);
    var values := ValueCalls(insert, entry.data, uuid(first));
    var modifiers := ModifierCalls(modifier, entry.modifiers, uuid(first), uuid, first + 1);
    var call := BuildQuery(statement);
    ValueCallsNoBuild(insert, entry.data, uuid(first), statement);
    ModifierCallsNoBuild(modifier, entry.modifiers, uuid(first), uuid, first + 1, statement);
    CountAppend(values, modifiers, call);
    CountAppend(builds, values + modifiers, call);
    BuildsCount(insert, modifier, built, statement);
    StatementsOfMembers(entry.entryType, statement);
  }

  /** What `EntryBuilds` states, for every entry at once. */
  ghost predicate BuildsOwnStatements(entryCalls: EntryTrace) {
    forall entry, built, first, statement :: Count(entryCalls(entry, built, first), BuildQuery(statement))
      == if statement in StatementsOf(entry.entryType) && statement !in built then 1 else 0
  }

  lemma EntryTraceBuilds(uuid: nat -> string)
    ensures BuildsOwnStatements(EntryTraceOf(uuid))
  {
    forall entry, built, first, statement
      ensures Count(EntryTraceOf(uuid)(entry, built, first), BuildQuery(statement))
        == if statement in StatementsOf(entry.entryType) && statement !in built then 1 else 0
    {
      EntryBuilds(uuid, entry, built, first, statement);
    }
  }

  /**
   * Each statement is built at most once per `StoreEvent`: exactly once if
   * some entry of its type has data and it is not built yet, never otherwise.
   */
  lemma {:induction false} BuiltOnce(entryCalls: EntryTrace, entries: seq<Entry>, built: set<Statement>, first: nat, statement: Statement)
    requires BuildsOwnStatements(entryCalls)
    ensures Count(StoreCalls(entryCalls, entries, built, first), BuildQuery(statement))
      == if statement in Built(entries) && statement !in built then 1 else 0
    decreases |entries|
  {
    if entries != [] {
      var e := entries[0];
      if e.data == [] {
        BuiltOnce(entryCalls, entries[1..], built, first, statement);
      } else {
        BuiltOnce(entryCalls, entries[1..], built + StatementsOf(e.entryType), first + DrawsOf(e), statement);
      }
    }
  }

  /** The entries that carry data, in order. */
  function WithData(entries: seq<Entry>): (r: seq<Entry>)
    decreases |entries|
  {
    if entries == [] then []
    else (if entries[0].data == [] then [] else [entries[0]]) + WithData(entries[1..])
  }

  /** Entries without data leave no trace: storing them is storing the others alone. */
  lemma {:induction false} EmptyEntriesSkipped(entryCalls: EntryTrace, entries: seq<Entry>, built: set<Statement>, first: nat)
    ensures StoreCalls(entryCalls, entries, built, first) == StoreCalls(entryCalls, WithData(entries), built, first)
    ensures Built(entries) == Built(WithData(entries)) && Draws(entries) == Draws(WithData(entries))
    decreases |entries|
  {
    if entries != [] {
      var e := entries[0];
      if e.data == [] {
        EmptyEntriesSkipped(entryCalls, entries[1..], built, first);
        assert WithData(entries) == [] + WithData(entries[1..]) == WithData(entries[1..]);
      } else {
        EmptyEntriesSkipped(entryCalls, entries[1..], built + StatementsOf(e.entryType), first + DrawsOf(e));
        var kept := [e] + WithData(entries[1..]);
        assert kept[0] == e && kept[1..] == WithData(entries[1..]);
      }
    }
  }

  /** What `EntryRouted` states, for every entry at once. */
  ghost predicate RoutesByType(entryCalls: EntryTrace) {
    forall entry, built, first :: Within(entryCalls(entry, built, first), StatementsOf(entry.entryType))
  }

  lemma EntryTraceRouted(uuid: nat -> string)
    ensures RoutesByType(EntryTraceOf(uuid))
  {
    forall entry, built, first
      ensures Within(EntryTraceOf(uuid)(entry, built, first), StatementsOf(entry.entryType))
    {
      EntryRouted(uuid, entry, built, first);
    }
  }

  /** A store only works on the statements of the entries with data. */
  lemma {:induction false} StoreCallsWithin(entryCalls: EntryTrace, entries: seq<Entry>, built: set<Statement>, first: nat)
    requires RoutesByType(entryCalls)
    ensures Within(StoreCalls(entryCalls, entries, built, first), Built(entries))
    decreases |entries|
  {
    if entries != [] {
      var e := entries[0];
      if e.data == [] {
        StoreCallsWithin(entryCalls, entries[1..], built, first);
      } else {
        var built' := built + StatementsOf(e.entryType);
        var first' := first + DrawsOf(e);
        StoreCallsWithin(entryCalls, entries[1..], built', first');
        WithinSubset(StoreCalls(entryCalls, entries[1..], built', first'), Built(entries[1..]), Built(entries));
        WithinSubset(entryCalls(e, built, first), StatementsOf(e.entryType), Built(entries));
        WithinConcat(entryCalls(e, built, first), StoreCalls(entryCalls, entries[1..], built', first'), Built(entries));
      }
    }
  }

  lemma WithinSubset(calls: seq<Call>, small: set<Statement>, large: set<Statement>)
    requires Within(calls, small) && small <= large
    ensures Within(calls, large)
  {
  }

  // Trace bookkeeping

  /**
   * `after` is `before` followed by a non-empty prefix of `trace`: the calls
   * of `trace` issued in order, up to the one that failed.
   */
  predicate Stopped(after: seq<Call>, before: seq<Call>, trace: seq<Call>) {
    |before| < |after| <= |before| + |trace| && after == before + trace[..|after| - |before|]
  }

  lemma AppendAssoc(a: seq<Call>, b: seq<Call>, c: seq<Call>)
    ensures a + (b + c) == a + b + c
  {
  }

  /** A failure once `head` has been issued is a failure within `head + tail`. */
  lemma StoppedAfter(after: seq<Call>, mid: seq<Call>, before: seq<Call>, head: seq<Call>, tail: seq<Call>)
    requires mid == before + head && Stopped(after, mid, tail)
    ensures Stopped(after, before, head + tail)
  {
    var n := |after| - |mid|;
    assert (head + tail)[..|head| + n] == head + tail[..n];
    AppendAssoc(before, head, tail[..n]);
  }

  /** A failure within `head` is a failure within `head + tail`. */
  lemma StoppedExtend(after: seq<Call>, before: seq<Call>, head: seq<Call>, tail: seq<Call>)
    requires Stopped(after, before, head)
    ensures Stopped(after, before, head + tail)
  {
    var n := |after| - |before|;
    assert (head + tail)[..n] == head[..n];
  }

  /** A failure within a prefix of `trace` is a failure within `trace`. */
  lemma StoppedWithin(after: seq<Call>, before: seq<Call>, head: seq<Call>, trace: seq<Call>)
    requires Stopped(after, before, head) && |head| <= |trace| && trace[..|head|] == head
    ensures Stopped(after, before, trace)
  {
    var n := |after| - |before|;
    assert trace[..n] == head[..n];
  }

  /**
   * A run that set out to issue `trace` after the calls `before`: either it
   * issued all of `trace` and nothing failed, or it stopped at the first
   * call that failed, which is the last call issued and the error reported.
   */
  ghost predicate Ran(r: Result<(), Error>, after: seq<Call>, failedAfter: seq<nat>, before: seq<Call>, failedBefore: seq<nat>,
                      trace: seq<Call>, failing: set<nat>)
  {
    (r.Ok? ==> after == before + trace && failedAfter == failedBefore)
    && (r.Err? ==>
          Stopped(after, before, trace) && |after| - 1 in failing
          && failedAfter == failedBefore + [|after| - 1] && r.error == CallError(|after| - 1))
  }

  /** A run that failed within `head` failed within `head + tail`. */
  lemma RanExtend(r: Result<(), Error>, after: seq<Call>, failedAfter: seq<nat>, before: seq<Call>, failedBefore: seq<nat>,
                  head: seq<Call>, tail: seq<Call>, failing: set<nat>)
    requires r.Err? && Ran(r, after, failedAfter, before, failedBefore, head, failing)
    ensures Ran(r, after, failedAfter, before, failedBefore, head + tail, failing)
  {
    StoppedExtend(after, before, head, tail);
  }

  /** `head` issued without failure, then a run of `tail`, is a run of `head + tail`. */
  lemma RanAfter(r: Result<(), Error>, after: seq<Call>, failedAfter: seq<nat>, mid: seq<Call>, before: seq<Call>, failed: seq<nat>,
                 head: seq<Call>, tail: seq<Call>, failing: set<nat>)
    requires mid == before + head && Ran(r, after, failedAfter, mid, failed, tail, failing)
    ensures Ran(r, after, failedAfter, before, failed, head + tail, failing)
  {
    if r.Ok? {
      AppendAssoc(before, head, tail);
    } else {
      StoppedAfter(after, mid, before, head, tail);
    }
  }

  /** `Connection.Issue` is a run of its one call. */
  lemma RanIssue(r: Result<(), Error>, after: seq<Call>, failedAfter: seq<nat>, before: seq<Call>, failedBefore: seq<nat>,
                 call: Call, failing: set<nat>)
    requires after == before + [call]
    requires r.Ok? ==> failedAfter == failedBefore
    requires r.Err? ==>
      |after| - 1 in failing && failedAfter == failedBefore + [|after| - 1] && r.error == CallError(|before|)
    ensures Ran(r, after, failedAfter, before, failedBefore, [call], failing)
  {
    if r.Err? {
      assert [call][..|after| - |before|] == [call];
    }
  }

  /** `Connection.StepAndReset` is a run of its step and its reset. */
  lemma RanStepAndReset(r: Result<(), Error>, after: seq<Call>, failedAfter: seq<nat>, before: seq<Call>, failedBefore: seq<nat>,
                        statement: Statement, failing: set<nat>)
    requires r.Ok? ==> after == before + [NextWhile(statement), Reset(statement)] && failedAfter == failedBefore
    requires r.Err? ==>
      (after == before + [NextWhile(statement)] || after == before + [NextWhile(statement), Reset(statement)])
      && |after| > 0 && |after| - 1 in failing && failedAfter == failedBefore + [|after| - 1] && r.error == CallError(|after| - 1)
    ensures Ran(r, after, failedAfter, before, failedBefore, [NextWhile(statement), Reset(statement)], failing)
  {
    if r.Err? {
      var trace := [NextWhile(statement), Reset(statement)];
      if after == before + [NextWhile(statement)] {
        assert trace[..1] == [NextWhile(statement)];
      } else {
        assert trace[..2] == trace;
      }
    }
  }

  /** A failure in the row of `modifiers[i]` is a failure within all the rows. */
  lemma RanModifiers(r: Result<(), Error>, after: seq<Call>, failedAfter: seq<nat>, done: seq<Call>, before: seq<Call>, failed: seq<nat>,
                     statement: Statement, modifiers: seq<string>, i: nat, entryUuid: string, uuid: nat -> string, first: nat, failing: set<nat>)
    requires i < |modifiers| && r.Err?
    requires done == before + ModifierCalls(statement, modifiers[..i], entryUuid, uuid, first)
    requires Ran(r, after, failedAfter, done, failed, ModifierBlock(statement, uuid(first + i), entryUuid, modifiers[i]), failing)
    ensures Ran(r, after, failedAfter, before, failed, ModifierCalls(statement, modifiers, entryUuid, uuid, first), failing)
  {
    var head := ModifierCalls(statement, modifiers[..i], entryUuid, uuid, first);
    var block := ModifierBlock(statement, uuid(first + i), entryUuid, modifiers[i]);
    StoppedAfter(after, done, before, head, block);
    ModifierStep(statement, modifiers, i, entryUuid, uuid, first);
    ModifierCallsPrefix(statement, modifiers, i + 1, entryUuid, uuid, first);
    StoppedWithin(after, before, head + block, ModifierCalls(statement, modifiers, entryUuid, uuid, first));
  }

  /** Neither a `Commit` nor a `Rollback`. */
  predicate Plain(calls: seq<Call>) {
    Commit !in calls && Rollback !in calls
  }

  lemma {:induction false} DataBindsPlain(statement: Statement, data: seq<string>)
    ensures Plain(DataBinds(statement, data))
    decreases |data|
  {
    if data != [] {
      DataBindsPlain(statement, data[..|data| - 1]);
    }
  }

  lemma {:induction false} ModifierCallsPlain(statement: Statement, modifiers: seq<string>, entryUuid: string, uuid: nat -> string, first: nat)
    ensures Plain(ModifierCalls(statement, modifiers, entryUuid, uuid, first))
    decreases |modifiers|
  {
    if modifiers != [] {
      ModifierCallsPlain(statement, modifiers[..|modifiers| - 1], entryUuid, uuid, first);
    }
  }

  /** One more modifier row. */
  lemma ModifierStep(statement: Statement, modifiers: seq<string>, i: nat, entryUuid: string, uuid: nat -> string, first: nat)
    requires i < |modifiers|
    ensures ModifierCalls(statement, modifiers[..i + 1], entryUuid, uuid, first)
      == ModifierCalls(statement, modifiers[..i], entryUuid, uuid, first) + ModifierBlock(statement, uuid(first + i), entryUuid, modifiers[i])
  {
    assert modifiers[..i + 1][..i] == modifiers[..i];
  }

  /** Issuing the row of `modifiers[i]` after the rows before it issues the rows up to it. */
  lemma ModifiersStep(after: seq<Call>, done: seq<Call>, before: seq<Call>, statement: Statement, modifiers: seq<string>, i: nat,
                      entryUuid: string, uuid: nat -> string, first: nat)
    requires i < |modifiers|
    requires done == before + ModifierCalls(statement, modifiers[..i], entryUuid, uuid, first)
    requires after == done + ModifierBlock(statement, uuid(first + i), entryUuid, modifiers[i])
    ensures after == before + ModifierCalls(statement, modifiers[..i + 1], entryUuid, uuid, first)
  {
    ModifierStep(statement, modifiers, i, entryUuid, uuid, first);
    AppendAssoc(before, ModifierCalls(statement, modifiers[..i], entryUuid, uuid, first),
      ModifierBlock(statement, uuid(first + i), entryUuid, modifiers[i]));
  }

  /** The rows of the first `j` modifiers come first. */
  lemma {:induction false} ModifierCallsPrefix(statement: Statement, modifiers: seq<string>, j: nat, entryUuid: string, uuid: nat -> string, first: nat)
    requires j <= |modifiers|
    ensures var head := ModifierCalls(statement, modifiers[..j], entryUuid, uuid, first);
      var all := ModifierCalls(statement, modifiers, entryUuid, uuid, first);
      |head| <= |all| && all[..|head|] == head
    decreases |modifiers|
  {
    if j == |modifiers| {
      assert modifiers[..j] == modifiers;
    } else {
      var n := |modifiers| - 1;
      ModifierCallsPrefix(statement, modifiers[..n], j, entryUuid, uuid, first);
      assert modifiers[..n][..j] == modifiers[..j];
    }
  }

  lemma EntryCallsPlain(uuid: nat -> string, entry: Entry, built: set<Statement>, first: nat)
    ensures Plain(EntryCalls(uuid, entry, built, first))
  {
    DataBindsPlain(InsertEvent(entry.entryType), entry.data);
    ModifierCallsPlain(InsertModifier(entry.entryType), entry.modifiers, uuid(first), uuid, first + 1);
  }

  /** Every entry trace of `entryCalls` is plain. */
  ghost predicate TracesPlain(entryCalls: EntryTrace) {
    forall entry, built, first :: Plain(entryCalls(entry, built, first))
  }

  lemma EntryTracePlain(uuid: nat -> string)
    ensures TracesPlain(EntryTraceOf(uuid))
  {
    forall entry, built, first
      ensures Plain(EntryTraceOf(uuid)(entry, built, first))
    {
      EntryCallsPlain(uuid, entry, built, first);
    }
  }

  lemma {:induction false} StoreCallsPlain(entryCalls: EntryTrace, entries: seq<Entry>, built: set<Statement>, first: nat)
    requires TracesPlain(entryCalls)
    ensures Plain(StoreCalls(entryCalls, entries, built, first))
    decreases |entries|
  {
    if entries != [] {
      var e := entries[0];
      if e.data == [] {
        StoreCallsPlain(entryCalls, entries[1..], built, first);
      } else {
        StoreCallsPlain(entryCalls, entries[1..], built + StatementsOf(e.entryType), first + DrawsOf(e));
      }
    }
  }

  /** The calls of a `StoreEvent` in which no call fails. */
  function StoreTrace(database: string, uuid: nat -> string, entries: seq<Entry>, first: nat): seq<Call> {
    [Connect(database)] + ([Transaction] + (StoreCalls(EntryTraceOf(uuid), entries, {}, first) + [Commit]))
  }

  /**
   * A failed `StoreEvent` neither commits nor rolls back: the only `Commit`
   * it may have issued is the call that failed, and there is no `Rollback`.
   */
  lemma FailedStoreLeavesTransactionOpen(after: seq<Call>, before: seq<Call>, database: string, uuid: nat -> string, entries: seq<Entry>, first: nat)
    requires Stopped(after, before, StoreTrace(database, uuid, entries, first))
    ensures Commit !in after[|before|..|after| - 1] && Rollback !in after[|before|..]
  {
    var body := [Connect(database), Transaction] + StoreCalls(EntryTraceOf(uuid), entries, {}, first);
    var trace := StoreTrace(database, uuid, entries, first);
    var n := |after| - |before|;
    EntryTracePlain(uuid);
    StoreCallsPlain(EntryTraceOf(uuid), entries, {}, first);
    assert Plain(body);
    assert trace == body + [Commit];
    assert after[|before|..] == trace[..n];
    assert after[|before|..|after| - 1] == trace[..n - 1] == body[..n - 1];
    if n <= |body| {
      assert trace[..n] == body[..n];
    } else {
      assert trace[..n] == body + [Commit];
    }
  }

  /** Bookkeeping of the loop of `StoreEntries` when an entry is stored. */
  lemma StoreStep(after: seq<Call>, before: seq<Call>, start: seq<Call>, done: seq<Call>, issued: seq<Call>, rest: seq<Call>, tail: seq<Call>,
                   all: seq<Call>)
    requires before == start + done && done + rest == all && rest == issued + tail && after == before + issued
    ensures after == start + (done + issued) && (done + issued) + tail == all
  {
    AppendAssoc(start, done, issued);
    AppendAssoc(done, issued, tail);
  }

  /** A failure while storing one entry is a failure within the whole loop. */
  lemma StoreFailed(r: Result<(), Error>, after: seq<Call>, failedAfter: seq<nat>, before: seq<Call>, start: seq<Call>, failed: seq<nat>,
                    done: seq<Call>, issued: seq<Call>, rest: seq<Call>, tail: seq<Call>, all: seq<Call>, failing: set<nat>)
    requires r.Err? && before == start + done && done + rest == all && rest == issued + tail
    requires Ran(r, after, failedAfter, before, failed, issued, failing)
    ensures Ran(r, after, failedAfter, start, failed, all, failing)
  {
    RanExtend(r, after, failedAfter, before, failed, issued, tail, failing);
    RanAfter(r, after, failedAfter, before, start, failed, done, issued + tail, failing);
  }

  /** The schema migration `Init` runs. */
  function InitMigration(initializeSql: string): Migration {
    Migration(1, "initialize database tables", initializeSql, true)
  }

  class DatabaseStorage {
    const connection: Connection
    const database: string
    /** The random UUID generator's outputs, in the order they are drawn. */
    const uuid: nat -> string
    var drawn: nat
    /** The SHA-512 digest the migration checksums use. */
    const digest: string -> string
    /** The SQL of the schema migration, passed through unread. */
    const initializeSql: string

    constructor(connection: Connection, database: string, uuid: nat -> string, digest: string -> string, initializeSql: string)
      ensures this.connection == connection && this.database == database && this.uuid == uuid
      ensures this.digest == digest && this.initializeSql == initializeSql && drawn == 0
    {
      this.connection := connection;
      this.database := database;
      this.uuid := uuid;
      this.digest := digest;
      this.initializeSql := initializeSql;
      drawn := 0;
    }

    /** `boost::uuids::random_generator()()`: the next UUID of the generator. */
    method NewUuid() returns (u: string)
      modifies this`drawn
      ensures u == uuid(old(drawn)) && drawn == old(drawn) + 1
    {
      u := uuid(drawn);
      drawn := drawn + 1;
    }

    /** Builds `statement` unless this `StoreEvent` call has built it already. */
    method SetOptionalStatement(built: set<Statement>, statement: Statement) returns (built': set<Statement>)
      modifies connection`calls, connection`cursor
      ensures built' == built + {statement}
      ensures connection.calls == old(connection.calls) + BuildIfMissing(statement, built)
    {
      if statement !in built {
        connection.Build(statement);
      }
      built' := built + {statement};
    }

    /** Binds the entry UUID at 0 and `data[i]` at `i + 1`, then steps and resets. */
    method BindValues(statement: Statement, data: seq<string>, entryUuid: string) returns (r: Result<(), Error>)
      modifies connection`calls, connection`failed
      ensures Ran(r, connection.calls, connection.failed, old(connection.calls), old(connection.failed),
                  ValueCalls(statement, data, entryUuid), connection.failing)
    {
      connection.Bind(BindChars(statement, 0, entryUuid));
      for i := 0 to |data|
        invariant connection.calls == old(connection.calls) + [BindChars(statement, 0, entryUuid)] + DataBinds(statement, data[..i])
        invariant connection.failed == old(connection.failed)
      {
        connection.Bind(BindChars(statement, i + 1, data[i]));
        assert data[..i + 1][..i] == data[..i];
      }
      assert data[..|data|] == data;
      ghost var bound := connection.calls;
      r := connection.StepAndReset(statement);
      RanStepAndReset(r, connection.calls, connection.failed, bound, old(connection.failed), statement, connection.failing);
      RanAfter(r, connection.calls, connection.failed, bound, old(connection.calls), old(connection.failed),
        [BindChars(statement, 0, entryUuid)] + DataBinds(statement, data), [NextWhile(statement), Reset(statement)], connection.failing);
    }

    /** Inserts one row per modifier, in list order, stopping at the first failure. */
    method BindValuesModifier(statement: Statement, modifiers: seq<string>, entryUuid: string) returns (r: Result<(), Error>)
      modifies this`drawn, connection`calls, connection`failed
      ensures Ran(r, connection.calls, connection.failed, old(connection.calls), old(connection.failed),
                  ModifierCalls(statement, modifiers, entryUuid, uuid, old(drawn)), connection.failing)
      ensures r.Ok? ==> drawn == old(drawn) + |modifiers|
    {
      for i := 0 to |modifiers|
        invariant connection.calls == old(connection.calls) + ModifierCalls(statement, modifiers[..i], entryUuid, uuid, old(drawn))
        invariant connection.failed == old(connection.failed) && drawn == old(drawn) + i
      {
        ghost var done := connection.calls;
        r := BindModifier(statement, modifiers[i], entryUuid);
        if r.Err? {
          RanModifiers(r, connection.calls, connection.failed, done, old(connection.calls), old(connection.failed),
            statement, modifiers, i, entryUuid, uuid, old(drawn), connection.failing);
          return;
        }
        ModifiersStep(connection.calls, done, old(connection.calls), statement, modifiers, i, entryUuid, uuid, old(drawn));
      }
      assert modifiers[..|modifiers|] == modifiers;
      r := Ok(());
    }

    /** One iteration of `BindValuesModifier`: a fresh UUID, three binds, step and reset. */
    method BindModifier(statement: Statement, modifier: string, entryUuid: string) returns (r: Result<(), Error>)
      modifies this`drawn, connection`calls, connection`failed
      ensures drawn == old(drawn) + 1
      ensures Ran(r, connection.calls, connection.failed, old(connection.calls), old(connection.failed),
                  ModifierBlock(statement, uuid(old(drawn)), entryUuid, modifier), connection.failing)
    {
      var modifierUuid := NewUuid();
      connection.Bind(BindChars(statement, 0, modifierUuid));
      connection.Bind(BindChars(statement, 1, entryUuid));
      connection.Bind(BindChars(statement, 2, modifier));
      ghost var bound := connection.calls;
      r := connection.StepAndReset(statement);
      ghost var binds := [BindChars(statement, 0, modifierUuid), BindChars(statement, 1, entryUuid), BindChars(statement, 2, modifier)];
      RanStepAndReset(r, connection.calls, connection.failed, bound, old(connection.failed), statement, connection.failing);
      RanAfter(r, connection.calls, connection.failed, bound, old(connection.calls), old(connection.failed),
        binds, [NextWhile(statement), Reset(statement)], connection.failing);
      assert binds + [NextWhile(statement), Reset(statement)] == ModifierBlock(statement, modifierUuid, entryUuid, modifier);
    }

    /** `InsertEvents`: builds the entry type's statements if needed, then inserts the entry and its modifiers. */
    method InsertEvents(entry: Entry, built: set<Statement>) returns (r: Result<(), Error>, built': set<Statement>)
      modifies this`drawn, connection`calls, connection`failed, connection`cursor
      ensures built' == built + StatementsOf(entry.entryType)
      ensures Ran(r, connection.calls, connection.failed, old(connection.calls), old(connection.failed),
                  EntryCalls(uuid, entry, built, old(drawn)), connection.failing)
      ensures r.Ok? ==> drawn == old(drawn) + 1 + |entry.modifiers|
    {
      var insert := InsertEvent(entry.entryType);
      var modifier := InsertModifier(entry.entryType);
      built' := SetOptionalStatement(built, insert);
      built' := SetOptionalStatement(built', modifier);
      assert BuildIfMissing(modifier, built + {insert}) == BuildIfMissing(modifier, built);
      ghost var builds := BuildIfMissing(insert, built) + BuildIfMissing(modifier, built);
      ghost var prepared := connection.calls;
      var entryUuid := NewUuid();
      ghost var values := ValueCalls(insert, entry.data, entryUuid);
      ghost var rows := ModifierCalls(modifier, entry.modifiers, entryUuid, uuid, old(drawn) + 1);
      r := BindValues(insert, entry.data, entryUuid);
      if r.Err? {
        RanExtend(r, connection.calls, connection.failed, prepared, old(connection.failed), values, rows, connection.failing);
      } else {
        ghost var inserted := connection.calls;
        r := BindValuesModifier(modifier, entry.modifiers, entryUuid);
        RanAfter(r, connection.calls, connection.failed, inserted, prepared, old(connection.failed), values, rows, connection.failing);
      }
      RanAfter(r, connection.calls, connection.failed, prepared, old(connection.calls), old(connection.failed),
        builds, values + rows, connection.failing);
    }

    /**
     * `trace` gives, for every entry, the calls `InsertEvents` issues for it;
     * the fact is only put to use where an `EntryCalls` term already occurs.
     */
    ghost predicate Issues(trace: EntryTrace) {
      forall entry, built, first {:trigger EntryCalls(uuid, entry, built, first)} ::
        trace(entry, built, first) == EntryCalls(uuid, entry, built, first)
    }

    lemma TraceIssues()
      ensures Issues(EntryTraceOf(uuid))
    {
    }

    /** One step of the loop of `StoreEvent`: `entries[i]` is inserted if it has data. */
    method StoreEntry(entries: seq<Entry>, i: nat, built: set<Statement>, ghost trace: EntryTrace)
      returns (r: Result<(), Error>, built': set<Statement>, ghost issued: seq<Call>)
      requires i < |entries| && Issues(trace)
      modifies this`drawn, connection`calls, connection`failed, connection`cursor
      ensures Ran(r, connection.calls, connection.failed, old(connection.calls), old(connection.failed), issued, connection.failing)
      ensures StoreCalls(trace, entries[i..], built, old(drawn))
        == issued + StoreCalls(trace, entries[i + 1..], built', old(drawn) + DrawsOf(entries[i]))
      ensures r.Ok? ==> drawn == old(drawn) + DrawsOf(entries[i])
    {
      if entries[i].data == [] {
        StoreStepEmpty(trace, entries, i, built, drawn);
        assert connection.calls + [] == connection.calls;
        return Ok(()), built, [];
      }
      StoreStepData(trace, entries, i, built, drawn);
      issued := EntryCalls(uuid, entries[i], built, drawn);
      r, built' := InsertEvents(entries[i], built);
    }

    /** The loop of `StoreEvent`: every entry in turn, stopping at the first failure. */
    method StoreEntries(entries: seq<Entry>, ghost trace: EntryTrace) returns (r: Result<(), Error>)
      requires Issues(trace)
      modifies this`drawn, connection`calls, connection`failed, connection`cursor
      ensures Ran(r, connection.calls, connection.failed, old(connection.calls), old(connection.failed),
                  StoreCalls(trace, entries, {}, old(drawn)), connection.failing)
      ensures r.Ok? ==> drawn == old(drawn) + Draws(entries)
    {
      ghost var all := StoreCalls(trace, entries, {}, old(drawn));
      ghost var done: seq<Call> := [];
      assert entries[0..] == entries;
      var built: set<Statement> := {};
      r := Ok(());
      for i := 0 to |entries|
        invariant connection.calls == old(connection.calls) + done
        invariant done + StoreCalls(trace, entries[i..], built, drawn) == all
        invariant connection.failed == old(connection.failed)
        invariant old(drawn) + Draws(entries) == drawn + Draws(entries[i..])
        invariant r.Ok?
      {
        ghost var before := connection.calls;
        ghost var rest := StoreCalls(trace, entries[i..], built, drawn);
        ghost var d := drawn;
        ghost var issued;
        DrawsStep(entries, i);
        r, built, issued := StoreEntry(entries, i, built, trace);
        ghost var tail := StoreCalls(trace, entries[i + 1..], built, d + DrawsOf(entries[i]));
        if r.Err? {
          StoreFailed(r, connection.calls, connection.failed, before, old(connection.calls), old(connection.failed),
            done, issued, rest, tail, all, connection.failing);
          return;
        }
        StoreStep(connection.calls, before, old(connection.calls), done, issued, rest, tail, all);
        done := done + issued;
      }
      assert entries[|entries|..] == [];
      assert done + [] == done;
    }

    /**
     * `StoreEvent`: connects, opens a transaction, inserts every entry with
     * data and commits. The first failure is returned as it is: the calls
     * issued are the successful run's calls up to the one that failed.
     */
    method StoreEvent(entries: seq<Entry>) returns (r: Result<(), Error>)
      modifies this`drawn, connection`calls, connection`failed, connection`cursor
      ensures Ran(r, connection.calls, connection.failed, old(connection.calls), old(connection.failed),
                  StoreTrace(database, uuid, entries, old(drawn)), connection.failing)
      ensures r.Ok? ==> drawn == old(drawn) + Draws(entries)
    {
      ghost var stores := StoreCalls(EntryTraceOf(uuid), entries, {}, old(drawn));
      ghost var failed := connection.failed;
      r := connection.Issue(Connect(database));
      RanIssue(r, connection.calls, connection.failed, old(connection.calls), failed, Connect(database), connection.failing);
      if r.Err? {
        RanExtend(r, connection.calls, connection.failed, old(connection.calls), failed,
          [Connect(database)], [Transaction] + (stores + [Commit]), connection.failing);
        return;
      }
      ghost var connected := connection.calls;
      r := OpenAndStore(entries);
      RanAfter(r, connection.calls, connection.failed, connected, old(connection.calls), failed,
        [Connect(database)], [Transaction] + (stores + [Commit]), connection.failing);
    }

    /** `StoreEvent` once connected: the transaction, the entries and the commit. */
    method OpenAndStore(entries: seq<Entry>) returns (r: Result<(), Error>)
      modifies this`drawn, connection`calls, connection`failed, connection`cursor
      ensures Ran(r, connection.calls, connection.failed, old(connection.calls), old(connection.failed),
                  [Transaction] + (StoreCalls(EntryTraceOf(uuid), entries, {}, old(drawn)) + [Commit]), connection.failing)
      ensures r.Ok? ==> drawn == old(drawn) + Draws(entries)
    {
      ghost var stores := StoreCalls(EntryTraceOf(uuid), entries, {}, old(drawn));
      ghost var failed := connection.failed;
      r := connection.Issue(Transaction);
      RanIssue(r, connection.calls, connection.failed, old(connection.calls), failed, Transaction, connection.failing);
      if r.Err? {
        RanExtend(r, connection.calls, connection.failed, old(connection.calls), failed,
          [Transaction], stores + [Commit], connection.failing);
        return;
      }
      ghost var begun := connection.calls;
      r := StoreAndCommit(entries);
      RanAfter(r, connection.calls, connection.failed, begun, old(connection.calls), failed,
        [Transaction], stores + [Commit], connection.failing);
    }

    /** `StoreEvent` once the transaction is open: the entries, then the commit. */
    method StoreAndCommit(entries: seq<Entry>) returns (r: Result<(), Error>)
      modifies this`drawn, connection`calls, connection`failed, connection`cursor
      ensures Ran(r, connection.calls, connection.failed, old(connection.calls), old(connection.failed),
                  StoreCalls(EntryTraceOf(uuid), entries, {}, old(drawn)) + [Commit], connection.failing)
      ensures r.Ok? ==> drawn == old(drawn) + Draws(entries)
    {
      ghost var stores := StoreCalls(EntryTraceOf(uuid), entries, {}, old(drawn));
      ghost var failed := connection.failed;
      TraceIssues();
      r := StoreEntries(entries, EntryTraceOf(uuid));
      if r.Err? {
        RanExtend(r, connection.calls, connection.failed, old(connection.calls), failed, stores, [Commit], connection.failing);
        return;
      }
      ghost var stored := connection.calls;
      r := connection.Issue(Commit);
      RanIssue(r, connection.calls, connection.failed, stored, failed, Commit, connection.failing);
      RanAfter(r, connection.calls, connection.failed, stored, old(connection.calls), failed, stores, [Commit], connection.failing);
    }

    /** `Init`: connects, then applies the schema migration. */
    method Init() returns (r: Result<(), Error>)
      modifies connection`calls, connection`failed, connection`cursor
      ensures r.Ok? ==>
        ReadBack(connection.rows).Ok?
        && Pending(digest, [InitMigration(initializeSql)], ReadBack(connection.rows).value).Ok?
        && connection.calls == old(connection.calls) + [Connect(database)] + [Transaction] + CreateTableCalls + ReadCalls(|connection.rows|)
             + ApplyCalls(digest, Pending(digest, [InitMigration(initializeSql)], ReadBack(connection.rows).value).value) + [Commit]
      ensures r.Err? && |connection.calls| == |old(connection.calls)| + 1 ==>
        connection.calls == old(connection.calls) + [Connect(database)] && r.error == CallError(|old(connection.calls)|)
      ensures r.Err? && |connection.calls| > |old(connection.calls)| + 1 ==>
        connection.calls[|connection.calls| - 1] == Rollback
    {
      r := connection.Issue(Connect(database));
      if r.Err? {
        return;
      }
      ghost var connected := connection.calls;
      var migrate := new Migrate(connection, [InitMigration(initializeSql)], digest);
      assert migrate.migrations == [InitMigration(initializeSql)];
      ghost var cause;
      r, cause := migrate.ApplyMigrations();
    }
  }

  /** On an empty database, `Init` creates the table and runs the schema migration once. */
  lemma FreshDatabaseInit(digest: string -> string, initializeSql: string)
    ensures ReadBack([]) == Ok([])
    ensures Pending(digest, [InitMigration(initializeSql)], []) == Ok([InitMigration(initializeSql)])
    ensures ApplyCalls(digest, [InitMigration(initializeSql)])
      == MigrationCalls(InitMigration(initializeSql), Checksum(digest, InitMigration(initializeSql)))
  {
    var m := InitMigration(initializeSql);
    assert ReadBack([]).value == [];
    assert [m][Min(1, 0)..] == [m];
    AppendApplied(digest, [], m);
  }

  /** Once the schema migration's record is stored, `Init` runs nothing again. */
  lemma InitializedDatabaseInit(digest: string -> string, initializeSql: string)
    ensures var m := InitMigration(initializeSql);
      var rows := [StoredRow(Some(1), Some(Checksum(digest, m)))];
      ReadBack(rows) == Ok([AppliedMigration(1, Checksum(digest, m))])
      && Pending(digest, [m], ReadBack(rows).value) == Ok([])
  {
    var m := InitMigration(initializeSql);
    var rows := [StoredRow(Some(1), Some(Checksum(digest, m)))];
    ReadBackVersions(rows);
    assert ReadBack(rows).value == [AppliedMigration(1, Checksum(digest, m))];
    ExactRecordsRerun(digest, [m], ReadBack(rows).value);
  }
}

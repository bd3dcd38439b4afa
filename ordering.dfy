/**
 * The iteration order of a `std::map<std::string, …>`: its keys ascending
 * under `std::string::operator<`.
 */
module Ordering {
  import opened Text

  predicate StrictlySorted(s: seq<string>) {
    forall i, j :: 0 <= i < j < |s| ==> Less(s[i], s[j])
  }

  predicate IsMinimum(m: string, keys: set<string>) {
    m in keys && forall k :: k in keys && k != m ==> Less(m, k)
  }

  lemma {:induction false} MinimumExists(keys: set<string>)
    requires keys != {}
    ensures exists m :: IsMinimum(m, keys)
    decreases |keys|
  {
    var x :| x in keys;
    if keys == {x} {
      assert IsMinimum(x, keys);
    } else {
      MinimumExists(keys - {x});
      var rest :| IsMinimum(rest, keys - {x});
      LessTrichotomy(x, rest);
      if Less(x, rest) {
        forall k | k in keys && k != x
          ensures Less(x, k)
        {
          if k != rest {
            LessTransitive(x, rest, k);
          }
        }
        assert IsMinimum(x, keys);
      } else {
        assert IsMinimum(rest, keys);
      }
    }
  }

  lemma MinimumUnique(keys: set<string>)
    ensures forall a, b :: IsMinimum(a, keys) && IsMinimum(b, keys) ==> a == b
  {
    forall a, b | IsMinimum(a, keys) && IsMinimum(b, keys)
      ensures a == b
    {
      if a != b {
        LessAsymmetric(a, b);
      }
    }
  }

  function Minimum(keys: set<string>): (m: string)
    requires keys != {}
    ensures IsMinimum(m, keys)
  {
    MinimumExists(keys);
    MinimumUnique(keys);
    var m :| IsMinimum(m, keys);
    m
  }

  /** The keys of a map in the order a range-for over a `std::map` visits them. */
  function SortedKeys(keys: set<string>): (r: seq<string>)
    ensures |r| == |keys|
    ensures forall k :: k in keys <==> k in r
    decreases |keys|
  {
    if keys == {} then []
    else
      var m := Minimum(keys);
      [m] + SortedKeys(keys - {m})
  }

  /** The visiting order is strictly ascending, so no key is visited twice. */
  lemma {:induction false} SortedKeysAscending(keys: set<string>)
    ensures StrictlySorted(SortedKeys(keys))
    decreases |keys|
  {
    if keys != {} {
      var m := Minimum(keys);
      var rest := SortedKeys(keys - {m});
      SortedKeysAscending(keys - {m});
      forall j | 0 <= j < |rest|
        ensures Less(m, rest[j])
      {
        assert rest[j] in keys - {m};
      }
      assert SortedKeys(keys) == [m] + rest;
    }
  }
}

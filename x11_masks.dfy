/**
 * XInput2 bit masks: `XISetMask` (event selection), the `OnMasks` walk over
 * the set bits of a valuator mask, and the two ways the code turns a raw
 * event's valuator mask and values into a valuator map.
 */
module XMasks {
  import opened XTypes

  /** The byte with only bit `k` set: `1 << k`. */
  function Bit(k: nat): bv8
    requires k < 8
  {
    [1, 2, 4, 8, 16, 32, 64, 128][k]
  }

  /** `XIMaskIsSet(mask, i)`: bit `i % 8` of byte `i / 8`. */
  predicate MaskIsSet(mask: seq<bv8>, i: nat)
    requires i / 8 < |mask|
  {
    mask[i / 8] & Bit(i % 8) != 0
  }

  /** `XISetMask(mask, e)` on one byte of the mask. */
  function SetBit(b: bv8, k: nat): bv8
    requires k < 8
  {
    b | Bit(k)
  }

  /** Setting bit `k` of a byte sets exactly that bit and keeps the others. */
  lemma SetBitBits(b: bv8, k: nat, j: nat)
    requires k < 8 && j < 8
    ensures SetBit(b, k) & Bit(j) != 0 <==> b & Bit(j) != 0 || j == k
  {
  }

  /** Two bytes with the same bits are the same byte. */
  lemma SameBits(a: bv8, b: bv8)
    requires forall j: nat :: j < 8 ==> (a & Bit(j) != 0 <==> b & Bit(j) != 0)
    ensures a == b
  {
    assert Bit(0) == 1 && Bit(1) == 2 && Bit(2) == 4 && Bit(3) == 8;
    assert Bit(4) == 16 && Bit(5) == 32 && Bit(6) == 64 && Bit(7) == 128;
  }

  /** Every event of `events` fits in a mask of `n` bytes. */
  predicate Fits(events: seq<nat>, n: nat)
  {
    forall k :: 0 <= k < |events| ==> events[k] / 8 < n
  }

  /** The mask after `XISetMask` of each event of `events`, in order. */
  function WithBits(mask: seq<bv8>, events: seq<nat>): (r: seq<bv8>)
    requires Fits(events, |mask|)
    ensures |r| == |mask|
  {
    if events == [] then mask
    else
      var e := events[|events| - 1];
      var before := WithBits(mask, events[..|events| - 1]);
      before[e / 8 := SetBit(before[e / 8], e % 8)]
  }

  /** A bit is set after `WithBits` exactly when it was set before or it is one of the events. */
  lemma {:induction false} WithBitsBits(mask: seq<bv8>, events: seq<nat>, i: nat)
    requires Fits(events, |mask|) && i / 8 < |mask|
    ensures MaskIsSet(WithBits(mask, events), i) <==> MaskIsSet(mask, i) || i in events
  {
    if events != [] {
      var e := events[|events| - 1];
      var init := events[..|events| - 1];
      assert events == init + [e];
      WithBitsBits(mask, init, i);
      var before := WithBits(mask, init);
      if i / 8 == e / 8 {
        SetBitBits(before[e / 8], e % 8, i % 8);
        assert i % 8 == e % 8 <==> i == e;
      }
    }
  }

  /** Neither the order of the events nor repeated events change the mask. */
  lemma WithBitsOrderIrrelevant(mask: seq<bv8>, events1: seq<nat>, events2: seq<nat>)
    requires Fits(events1, |mask|) && Fits(events2, |mask|)
    requires forall e :: e in events1 <==> e in events2
    ensures WithBits(mask, events1) == WithBits(mask, events2)
  {
    var m1 := WithBits(mask, events1);
    var m2 := WithBits(mask, events2);
    forall b | 0 <= b < |mask|
      ensures m1[b] == m2[b]
    {
      WithBitsSameByte(mask, events1, events2, b);
    }
  }

  /** One byte of the mask after two event lists with the same members. */
  lemma WithBitsSameByte(mask: seq<bv8>, events1: seq<nat>, events2: seq<nat>, b: nat)
    requires Fits(events1, |mask|) && Fits(events2, |mask|) && b < |mask|
    requires forall e :: e in events1 <==> e in events2
    ensures WithBits(mask, events1)[b] == WithBits(mask, events2)[b]
  {
    var m1 := WithBits(mask, events1);
    var m2 := WithBits(mask, events2);
    forall j: nat | j < 8
      ensures m1[b] & Bit(j) != 0 <==> m2[b] & Bit(j) != 0
    {
      var i: nat := b * 8 + j;
      assert i / 8 == b && i % 8 == j;
      WithBitsBits(mask, events1, i);
      WithBitsBits(mask, events2, i);
    }
    SameBits(m1[b], m2[b]);
  }

  /**
   * `XISetMask` of each event, in place: the mask ends up with exactly the
   * bits it had plus one bit per event.
   */
  method SetMask(mask: array<bv8>, events: seq<nat>)
    requires Fits(events, mask.Length)
    modifies mask
    ensures mask[..] == WithBits(old(mask[..]), events)
  {
    ghost var initial := mask[..];
    for k := 0 to |events|
      invariant mask[..] == WithBits(initial, events[..k])
    {
      var e := events[k];
      assert events[..k + 1][..k] == events[..k];
      mask[e / 8] := SetBit(mask[e / 8], e % 8);
    }
    assert events[..|events|] == events;
  }

  /** The set bits below `n`, in ascending order. */
  function SetIndices(mask: seq<bv8>, n: nat): (r: seq<nat>)
    requires n <= |mask| * 8
  {
    if n == 0 then []
    else SetIndices(mask, n - 1) + (if MaskIsSet(mask, n - 1) then [n - 1] else [])
  }

  predicate StrictlyAscending(s: seq<nat>)
  {
    forall j, k :: 0 <= j < k < |s| ==> s[j] < s[k]
  }

  /** `SetIndices` lists exactly the set bits below `n`, each once, in ascending order. */
  lemma {:induction false} SetIndicesCorrect(mask: seq<bv8>, n: nat)
    requires n <= |mask| * 8
    ensures StrictlyAscending(SetIndices(mask, n))
    ensures forall i: nat :: i in SetIndices(mask, n) <==> i < n && MaskIsSet(mask, i)
  {
    if n > 0 {
      SetIndicesCorrect(mask, n - 1);
      var prefix := SetIndices(mask, n - 1);
      forall j | 0 <= j < |prefix|
        ensures prefix[j] < n - 1
      {
        var i: nat := prefix[j];
        assert i in prefix;
      }
    }
  }

  /**
   * `OnMasks`: call the callback on every set bit of the first `maskLen`
   * bytes, lowest bit first; the visited bits are returned in call order.
   */
  method OnMasks(mask: seq<bv8>, maskLen: nat) returns (visited: seq<nat>)
    requires maskLen <= |mask|
    ensures visited == SetIndices(mask, maskLen * 8)
  {
    visited := [];
    for i := 0 to maskLen * 8
      invariant visited == SetIndices(mask, i)
    {
      if MaskIsSet(mask, i) {
        visited := visited + [i];
      }
    }
  }

  /** A mask of `n` zero bytes with `events` set, then walked, visits exactly `events`, ascending. */
  lemma SetThenWalk(n: nat, events: seq<nat>)
    requires Fits(events, n)
    ensures StrictlyAscending(SetIndices(WithBits(seq(n, _ => 0 as bv8), events), n * 8))
    ensures forall i: nat :: i in SetIndices(WithBits(seq(n, _ => 0 as bv8), events), n * 8) <==> i in events
  {
    var zero := seq(n, _ => 0 as bv8);
    var m := WithBits(zero, events);
    SetIndicesCorrect(m, n * 8);
    forall i | i in events
      ensures i < n * 8
    {
      var k :| 0 <= k < |events| && events[k] == i;
    }
    forall i: nat | i < n * 8
      ensures MaskIsSet(m, i) <==> i in events
    {
      WithBitsBits(zero, events, i);
    }
  }

  /** The raw event's mask and values agree: one value per set bit. */
  predicate WellFormed(raw: RawEvent)
  {
    raw.maskLen <= |raw.mask| && |raw.values| == |SetIndices(raw.mask, raw.maskLen * 8)|
  }

  /** The first valuator value, where the `(*values)++` reads start. */
  function FirstValue(raw: RawEvent): int
  {
    if |raw.values| > 0 then raw.values[0] else 0
  }

  /** The map `(*values)++` builds: the j-th key reads `first + j`. */
  function BumpedValuators(keys: seq<nat>, first: int): map<int, int>
  {
    if keys == [] then map[]
    else BumpedValuators(keys[..|keys| - 1], first)[keys[|keys| - 1] := first + |keys| - 1]
  }

  /** Distinct keys each read their own bumped value, and nothing else is a key. */
  lemma {:induction false} BumpedValuatorsAt(keys: seq<nat>, first: int)
    requires StrictlyAscending(keys)
    ensures BumpedValuators(keys, first).Keys == set k | k in keys
    ensures forall j :: 0 <= j < |keys| ==> BumpedValuators(keys, first)[keys[j]] == first + j
  {
    if keys != [] {
      var prefix := keys[..|keys| - 1];
      BumpedValuatorsAt(prefix, first);
      assert keys == prefix + [keys[|keys| - 1]];
      forall j | 0 <= j < |prefix|
        ensures keys[j] != keys[|keys| - 1]
      {
      }
    }
  }

  /**
   * The raw event once the pointer-and-key switch's `GetValuators` has run:
   * its first value has been incremented once per set bit, in place.
   */
  function AfterBump(raw: RawEvent): (r: RawEvent)
    requires WellFormed(raw)
    ensures WellFormed(r) && r.mask == raw.mask && r.maskLen == raw.maskLen
  {
    var n := |SetIndices(raw.mask, raw.maskLen * 8)|;
    if n == 0 then raw else raw.(values := raw.values[0 := FirstValue(raw) + n])
  }

  /**
   * The pointer-and-key switch's `GetValuators`: the value pointer is bumped
   * in place by `(*values)++`, so the k-th set bit maps to the first value
   * plus k instead of the k-th value, and the event's first value ends up
   * incremented by the number of set bits.
   */
  method GetValuatorsBumped(raw: RawEvent) returns (keys: seq<nat>, valuators: map<int, int>, bumped: RawEvent)
    requires WellFormed(raw)
    ensures keys == SetIndices(raw.mask, raw.maskLen * 8)
    ensures valuators == BumpedValuators(keys, FirstValue(raw))
    ensures bumped == AfterBump(raw)
  {
    keys := OnMasks(raw.mask, raw.maskLen);
    valuators := map[];
    var current := FirstValue(raw);
    for k := 0 to |keys|
      invariant current == FirstValue(raw) + k
      invariant valuators == BumpedValuators(keys[..k], FirstValue(raw))
    {
      assert keys[..k + 1][..k] == keys[..k];
      assert BumpedValuators(keys[..k + 1], FirstValue(raw)) == valuators[keys[k] := current];
      valuators := valuators[keys[k] := current];
      current := current + 1;
    }
    assert keys[..|keys|] == keys;
    bumped := if |keys| == 0 then raw else raw.(values := raw.values[0 := current]);
  }

  /** The map `XDeviceRefresh::getValuators` builds: the j-th key reads the j-th value. */
  function ReadValuators(keys: seq<nat>, values: seq<int>): map<int, int>
    requires |keys| <= |values|
  {
    if keys == [] then map[]
    else ReadValuators(keys[..|keys| - 1], values)[keys[|keys| - 1] := values[|keys| - 1]]
  }

  /** Distinct keys each read their own value, and nothing else is a key. */
  lemma {:induction false} ReadValuatorsAt(keys: seq<nat>, values: seq<int>)
    requires StrictlyAscending(keys) && |keys| <= |values|
    ensures ReadValuators(keys, values).Keys == set k | k in keys
    ensures forall j :: 0 <= j < |keys| ==> ReadValuators(keys, values)[keys[j]] == values[j]
  {
    if keys != [] {
      var prefix := keys[..|keys| - 1];
      ReadValuatorsAt(prefix, values);
      assert keys == prefix + [keys[|keys| - 1]];
      forall j | 0 <= j < |prefix|
        ensures keys[j] != keys[|keys| - 1]
      {
      }
    }
  }

  /** `XDeviceRefresh::getValuators`: the value pointer advances, so the k-th set bit maps to the k-th value. */
  method GetValuators(raw: RawEvent) returns (keys: seq<nat>, valuators: map<int, int>)
    requires WellFormed(raw)
    ensures keys == SetIndices(raw.mask, raw.maskLen * 8)
    ensures valuators == ReadValuators(keys, raw.values)
  {
    keys := OnMasks(raw.mask, raw.maskLen);
    valuators := map[];
    for k := 0 to |keys|
      invariant valuators == ReadValuators(keys[..k], raw.values)
    {
      assert keys[..k + 1][..k] == keys[..k];
      assert ReadValuators(keys[..k + 1], raw.values) == valuators[keys[k] := raw.values[k]];
      valuators := valuators[keys[k] := raw.values[k]];
    }
    assert keys[..|keys|] == keys;
  }

  /** The two valuator readings agree exactly when the values count up by one from the first. */
  lemma BumpedAgreesIffConsecutive(raw: RawEvent)
    requires WellFormed(raw)
    ensures var keys := SetIndices(raw.mask, raw.maskLen * 8);
      BumpedValuators(keys, FirstValue(raw)) == ReadValuators(keys, raw.values)
      <==> forall j :: 0 <= j < |keys| ==> raw.values[j] == raw.values[0] + j
  {
    var keys := SetIndices(raw.mask, raw.maskLen * 8);
    SetIndicesCorrect(raw.mask, raw.maskLen * 8);
    KeyedAgreeIff(keys, raw.values, FirstValue(raw));
  }

  /** `BumpedAgreesIffConsecutive` for any ascending keys and enough values. */
  lemma KeyedAgreeIff(keys: seq<nat>, values: seq<int>, first: int)
    requires StrictlyAscending(keys) && |keys| <= |values|
    requires |keys| > 0 ==> first == values[0]
    ensures BumpedValuators(keys, first) == ReadValuators(keys, values)
      <==> forall j :: 0 <= j < |keys| ==> values[j] == first + j
  {
    BumpedValuatorsAt(keys, first);
    ReadValuatorsAt(keys, values);
    var bumped := BumpedValuators(keys, first);
    var read := ReadValuators(keys, values);
    if forall j :: 0 <= j < |keys| ==> values[j] == first + j {
      forall k | k in bumped.Keys
        ensures bumped[k] == read[k]
      {
        var j :| 0 <= j < |keys| && keys[j] == k;
      }
    } else {
      var j :| 0 <= j < |keys| && values[j] != first + j;
      assert bumped[keys[j]] != read[keys[j]];
    }
  }
}

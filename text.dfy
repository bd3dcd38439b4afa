/**
 * Text helpers shared by the model: decimal rendering (`std::to_string` of an
 * integer), decimal parsing (`std::stoi` / `std::stol`), ASCII lower-casing
 * (`std::tolower` over a string), suffix tests and `std::string::operator<`.
 */
module Text {
  import opened Wrappers

  predicate IsDigit(c: char) { '0' <= c <= '9' }

  predicate AllDigits(s: string) { forall i :: 0 <= i < |s| ==> IsDigit(s[i]) }

  function DigitChar(d: nat): (c: char)
    requires d < 10
    ensures IsDigit(c)
  {
    (48 + d) as char
  }

  function DigitValue(c: char): (d: nat)
    requires IsDigit(c)
    ensures d < 10 && DigitChar(d) == c
  {
    (c as int - 48) as nat
  }

  /** Decimal text of a natural number, most significant digit first. */
  function NatToString(n: nat): (r: string)
    ensures |r| >= 1 && AllDigits(r)
    ensures r[0] == '0' ==> n == 0
    decreases n
  {
    if n < 10 then [DigitChar(n)] else NatToString(n / 10) + [DigitChar(n % 10)]
  }

  /** `std::to_string` of a signed integer. */
  function IntToString(i: int): (r: string)
    ensures |r| >= 1
    ensures i >= 0 <==> r[0] != '-'
  {
    if i < 0 then "-" + NatToString(-i) else NatToString(i)
  }

  /** Value of a run of decimal digits. */
  function DigitsValue(s: string): nat
    requires AllDigits(s)
    decreases |s|
  {
    if |s| == 0 then 0 else DigitsValue(s[..|s| - 1]) * 10 + DigitValue(s[|s| - 1])
  }

  /** Length of the longest prefix of `s` made of digits. */
  function DigitRun(s: string): (k: nat)
    ensures k <= |s| && AllDigits(s[..k])
    ensures k < |s| ==> !IsDigit(s[k])
    decreases |s|
  {
    if |s| == 0 || !IsDigit(s[0]) then 0
    else
      var k := 1 + DigitRun(s[1..]);
      assert s[..k] == [s[0]] + s[1..][..k - 1];
      k
  }

  predicate IsSpace(c: char) { c == ' ' || c == '\t' || c == '\n' || c == '\r' || c == 11 as char || c == 12 as char }

  function DropSpace(s: string): (r: string)
    ensures |r| <= |s| && r == s[|s| - |r|..]
    ensures |r| > 0 ==> !IsSpace(r[0])
    decreases |s|
  {
    if |s| > 0 && IsSpace(s[0]) then DropSpace(s[1..]) else s
  }

  /**
   * `std::stoi`: skips leading white space, reads an optional sign and the
   * longest run of digits after it, and fails when that run is empty; text
   * after the digits is ignored. The `std::out_of_range` case is not modelled.
   */
  function ParseInt(s: string): (r: Option<int>)
    ensures r.None? <==> var t := DropSpace(s);
                         var u := if |t| > 0 && (t[0] == '-' || t[0] == '+') then t[1..] else t;
                         |u| == 0 || !IsDigit(u[0])
  {
    ParseSigned(DropSpace(s))
  }

  lemma DropSpaceNoSpace(s: string)
    requires |s| > 0 && !IsSpace(s[0])
    ensures DropSpace(s) == s
  {
  }

  /** The sign and digits `std::stoi` reads once white space is skipped. */
  function ParseSigned(t: string): (r: Option<int>)
    ensures r.None? <==> var u := if |t| > 0 && (t[0] == '-' || t[0] == '+') then t[1..] else t;
                         |u| == 0 || !IsDigit(u[0])
  {
    if |t| > 0 && t[0] == '-' then
      match ParseDigits(t[1..])
      case None => None
      case Some(magnitude) => Some(-magnitude)
    else if |t| > 0 && t[0] == '+' then ParseDigits(t[1..])
    else ParseDigits(t)
  }

  /** The value of the longest run of digits at the start of `u`, if it is not empty. */
  function ParseDigits(u: string): (r: Option<int>)
    ensures r.None? <==> |u| == 0 || !IsDigit(u[0])
  {
    var k := DigitRun(u);
    if k == 0 then None else Some(DigitsValue(u[..k]) as int)
  }

  lemma {:induction false} DigitsValueOfNatToString(n: nat)
    ensures DigitsValue(NatToString(n)) == n
    decreases n
  {
    if n >= 10 {
      var s := NatToString(n);
      DigitsValueOfNatToString(n / 10);
      assert s[..|s| - 1] == NatToString(n / 10);
    }
  }

  /** Reading back the decimal text of an integer gives the integer. */
  lemma ParseIntOfIntToString(i: int)
    ensures ParseInt(IntToString(i)) == Some(i)
  {
    var s := IntToString(i);
    var digits := if i < 0 then NatToString(-i) else NatToString(i);
    assert DropSpace(s) == s;
    var u := if s[0] == '-' then s[1..] else s;
    assert u == digits;
    DigitRunOfDigits(digits);
    assert digits[..|digits|] == digits;
    DigitsValueOfNatToString(if i < 0 then -i else i);
  }

  lemma {:induction false} DigitRunOfDigits(s: string)
    requires AllDigits(s)
    ensures DigitRun(s) == |s|
    decreases |s|
  {
    if |s| > 0 {
      DigitRunOfDigits(s[1..]);
    }
  }

  /** Decimal rendering is injective. */
  lemma IntToStringInjective(a: int, b: int)
    requires IntToString(a) == IntToString(b)
    ensures a == b
  {
    ParseIntOfIntToString(a);
    ParseIntOfIntToString(b);
  }

  function LowerChar(c: char): (r: char)
    ensures 'A' <= c <= 'Z' ==> r as int == c as int + 32
    ensures !('A' <= c <= 'Z') ==> r == c
  {
    if 'A' <= c <= 'Z' then (c as int + 32) as char else c
  }

  /** `std::tolower` applied to every character (the "C" locale). */
  function ToLower(s: string): (r: string)
    ensures |r| == |s|
    ensures forall i :: 0 <= i < |s| ==> r[i] == LowerChar(s[i])
    decreases |s|
  {
    if |s| == 0 then "" else [LowerChar(s[0])] + ToLower(s[1..])
  }

  /** Lower-casing works character by character, so it distributes over concatenation. */
  lemma {:induction false} ToLowerAppend(a: string, b: string)
    ensures ToLower(a + b) == ToLower(a) + ToLower(b)
  {
    var l := ToLower(a + b);
    var r := ToLower(a) + ToLower(b);
    assert |l| == |r|;
    forall i | 0 <= i < |l|
      ensures l[i] == r[i]
    {
      if i < |a| {
        assert (a + b)[i] == a[i];
      } else {
        assert (a + b)[i] == b[i - |a|];
      }
    }
  }

  /** A text without upper-case letters is its own lower-case form. */
  lemma LowerUnchanged(s: string)
    requires forall i :: 0 <= i < |s| ==> !('A' <= s[i] <= 'Z')
    ensures ToLower(s) == s
  {
  }

  lemma ToLowerIdempotent(s: string)
    ensures ToLower(ToLower(s)) == ToLower(s)
  {
  }

  predicate EndsWith(s: string, suffix: string) {
    |suffix| <= |s| && s[|s| - |suffix|..] == suffix
  }

  /** `std::string::operator<`: lexicographic, a proper prefix comes first. */
  predicate Less(a: string, b: string)
    decreases |a|
  {
    if |a| == 0 then |b| > 0
    else if |b| == 0 then false
    else if a[0] < b[0] then true
    else if a[0] > b[0] then false
    else Less(a[1..], b[1..])
  }

  lemma {:induction false} LessIrreflexive(a: string)
    ensures !Less(a, a)
    decreases |a|
  {
    if |a| > 0 {
      LessIrreflexive(a[1..]);
    }
  }

  lemma {:induction false} LessTrichotomy(a: string, b: string)
    ensures Less(a, b) || Less(b, a) || a == b
    decreases |a|
  {
    if |a| > 0 && |b| > 0 && a[0] == b[0] {
      LessTrichotomy(a[1..], b[1..]);
      if a[1..] == b[1..] {
        assert a == [a[0]] + a[1..] && b == [b[0]] + b[1..];
      }
    }
  }

  lemma {:induction false} LessAsymmetric(a: string, b: string)
    requires Less(a, b)
    ensures !Less(b, a)
    decreases |a|
  {
    if |a| > 0 && |b| > 0 && a[0] == b[0] {
      LessAsymmetric(a[1..], b[1..]);
    }
  }

  lemma {:induction false} LessTransitive(a: string, b: string, c: string)
    requires Less(a, b) && Less(b, c)
    ensures Less(a, c)
    decreases |a|
  {
    if |a| > 0 && |b| > 0 && |c| > 0 && a[0] == b[0] && b[0] == c[0] {
      LessTransitive(a[1..], b[1..], c[1..]);
    }
  }

  /** The items with `separator` between them, as `fmt::join` writes them. */
  function Join(items: seq<string>, separator: string): string
  {
    if items == [] then ""
    else if |items| == 1 then items[0]
    else items[0] + separator + Join(items[1..], separator)
  }

  /** An item put in front of a non-empty list is joined in front of the rest. */
  lemma JoinCons(item: string, rest: seq<string>, separator: string)
    requires rest != []
    ensures Join([item] + rest, separator) == item + (separator + Join(rest, separator))
  {
    assert ([item] + rest)[1..] == rest;
  }

  /** Every item followed by `separator`: what a loop writing "item, " for each item has written. */
  function Terminated(items: seq<string>, separator: string): string
  {
    if items == [] then "" else items[0] + separator + Terminated(items[1..], separator)
  }

  /** One more item written with its separator extends the text at the end. */
  lemma {:induction false} TerminatedSnoc(items: seq<string>, item: string, separator: string)
    ensures Terminated(items + [item], separator) == Terminated(items, separator) + item + separator
  {
    if items != [] {
      assert (items + [item])[1..] == items[1..] + [item];
      TerminatedSnoc(items[1..], item, separator);
    }
  }

  /** Writing every item but the last with its separator, then the last item, gives the joined text. */
  lemma {:induction false} JoinAsTerminated(items: seq<string>, separator: string)
    requires items != []
    ensures Join(items, separator) == Terminated(items[..|items| - 1], separator) + items[|items| - 1]
  {
    if |items| > 1 {
      JoinAsTerminated(items[1..], separator);
      assert items[..|items| - 1][1..] == items[1..][..|items| - 2];
    }
  }

  /** The length of the leading run of `t` without white space. */
  function WordEnd(t: string): (k: nat)
    ensures k <= |t| && forall i :: 0 <= i < k ==> !IsSpace(t[i])
    ensures k < |t| ==> IsSpace(t[k])
  {
    if t == [] || IsSpace(t[0]) then 0 else 1 + WordEnd(t[1..])
  }

  /** What `operator>>` reads into a string: white space is skipped, then one word is read. */
  function Word(s: string): (r: string)
  {
    var t := DropSpace(s);
    t[..WordEnd(t)]
  }

  /** A text without white space is read back whole. */
  lemma WordOfWord(w: string)
    requires forall i :: 0 <= i < |w| ==> !IsSpace(w[i])
    ensures Word(w) == w
  {
    if w != [] {
      DropSpaceNoSpace(w);
    }
    assert WordEnd(w) == |w|;
  }
}

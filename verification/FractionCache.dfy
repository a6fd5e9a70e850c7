/** The keeper's settlement cache as a file: addresses to fractions, with decimal strings for the
    fractions. The text of the JSON object is taken as the sequence of its entries. */
module FractionCache {
  import opened Prelude

  // ----------------------------------------------------------------- decimals

  predicate IsDigit(c: char) {
    '0' <= c <= '9'
  }

  predicate IsDecimal(s: string) {
    s != "" && forall i :: 0 <= i < |s| ==> IsDigit(s[i])
  }

  function DigitChar(d: nat): (c: char)
    requires d < 10
    ensures IsDigit(c) && DigitValue(c) == d
  {
    (d + '0' as nat) as char
  }

  function DigitValue(c: char): nat
    requires IsDigit(c)
  {
    c as nat - '0' as nat
  }

  function ToDecimal(n: nat): string {
    if n < 10 then [DigitChar(n)] else ToDecimal(n / 10) + [DigitChar(n % 10)]
  }

  /** BigInt of a string of digits. */
  function ParseDecimal(s: string): nat
    requires forall i :: 0 <= i < |s| ==> IsDigit(s[i])
    decreases |s|
  {
    if s == "" then 0 else 10 * ParseDecimal(s[..|s| - 1]) + DigitValue(s[|s| - 1])
  }

  lemma {:induction false} DecimalRoundTrip(n: nat)
    ensures IsDecimal(ToDecimal(n)) && ParseDecimal(ToDecimal(n)) == n
  {
    if n >= 10 {
      DecimalRoundTrip(n / 10);
      assert ToDecimal(n)[..|ToDecimal(n)| - 1] == ToDecimal(n / 10);
    } else {
      assert ToDecimal(n)[..0] == "";
    }
  }

  // ---------------------------------------------------------------- addresses

  predicate IsHex(c: char) {
    IsDigit(c) || 'a' <= c <= 'f' || 'A' <= c <= 'F'
  }

  /** 0x and forty hex digits, in either case. */
  predicate IsAddress(s: string) {
    |s| == 42 && s[0] == '0' && s[1] == 'x' && forall i :: 2 <= i < 42 ==> IsHex(s[i])
  }

  function LowerChar(c: char): char {
    if 'A' <= c <= 'Z' then (c as nat + 32) as char else c
  }

  function ToLower(s: string): (r: string)
    ensures |r| == |s|
  {
    seq(|s|, i requires 0 <= i < |s| => LowerChar(s[i]))
  }

  lemma LowerTwice(s: string)
    ensures ToLower(ToLower(s)) == ToLower(s)
  {
    forall i | 0 <= i < |s| ensures ToLower(ToLower(s))[i] == ToLower(s)[i] {
      assert LowerChar(LowerChar(s[i])) == LowerChar(s[i]);
    }
  }

  // ------------------------------------------------------------------- encode

  type Object = seq<(string, string)>

  function Keys(o: Object): set<string> {
    set i | 0 <= i < |o| :: o[i].0
  }

  predicate DistinctKeys(o: Object) {
    forall i, j :: 0 <= i < j < |o| ==> o[i].0 != o[j].0
  }

  /** Setting a property: in place if it is there, at the end otherwise. */
  function Put(o: Object, key: string, value: string): Object
    decreases |o|
  {
    if o == [] then [(key, value)] else
    if o[0].0 == key then [(key, value)] + o[1..] else [o[0]] + Put(o[1..], key, value)
  }

  /** encodeFractionCache, over the cache's entries in their order. */
  function Encode(cache: seq<(string, nat)>): Object
    decreases |cache|
  {
    if cache == [] then [] else
    Put(Encode(cache[..|cache| - 1]), ToLower(cache[|cache| - 1].0), ToDecimal(cache[|cache| - 1].1))
  }

  /** The cache with its keys in lower case; of two that then coincide, the later one stays. */
  function Lowered(cache: seq<(string, nat)>): map<string, nat>
    decreases |cache|
  {
    if cache == [] then map[] else Lowered(cache[..|cache| - 1])[ToLower(cache[|cache| - 1].0) := cache[|cache| - 1].1]
  }

  // ------------------------------------------------------------------- decode

  predicate ValidEntry(e: (string, string)) {
    IsAddress(e.0) && IsDecimal(e.1) && ParseDecimal(e.1) <= WAD
  }

  /** decodeFractionCache, entry by entry; None is the error. */
  function Decode(o: Object): Option<map<string, nat>>
    decreases |o|
  {
    if o == [] then Some(map[]) else
    var m := Decode(o[..|o| - 1]);
    var e := o[|o| - 1];
    if m.Some? && ValidEntry(e) && ToLower(e.0) !in m.value then Some(m.value[ToLower(e.0) := ParseDecimal(e.1)]) else None
  }

  /** The same loop. */
  method DecodeFractionCache(o: Object) returns (cache: Option<map<string, nat>>)
    ensures cache == Decode(o)
  {
    var out := map[];
    for i := 0 to |o|
      invariant Decode(o[..i]) == Some(out)
    {
      assert o[..i + 1][..i] == o[..i];
      var vault, fraction := o[i].0, o[i].1;
      if !IsAddress(vault) || !IsDecimal(fraction) || ParseDecimal(fraction) > WAD || ToLower(vault) in out {
        DecodeFailsForGood(o, i + 1);
        return None;
      }
      out := out[ToLower(vault) := ParseDecimal(fraction)];
    }
    assert o[..|o|] == o;
    return Some(out);
  }

  lemma {:induction false} DecodeFailsForGood(o: Object, n: nat)
    requires n <= |o| && Decode(o[..n]).None?
    ensures Decode(o).None?
    decreases |o|
  {
    if n < |o| {
      assert o[..|o| - 1][..n] == o[..n];
      DecodeFailsForGood(o[..|o| - 1], n);
    } else {
      assert o[..n] == o;
    }
  }

  /** Entry `i` is in the cache. */
  predicate Holds(o: Object, m: map<string, nat>, i: nat)
    requires i < |o|
  {
    ValidEntry(o[i]) && ToLower(o[i].0) in m && m[ToLower(o[i].0)] == ParseDecimal(o[i].1)
  }

  predicate Names(o: Object, key: string) {
    exists i :: 0 <= i < |o| && ToLower(o[i].0) == key
  }

  predicate Acceptable(o: Object) {
    && (forall i :: 0 <= i < |o| ==> ValidEntry(o[i]))
    && (forall i, j :: 0 <= i < j < |o| ==> ToLower(o[i].0) != ToLower(o[j].0))
  }

  lemma {:induction false} DecodedKeys(o: Object, key: string)
    requires Decode(o).Some?
    ensures key in Decode(o).value <==> Names(o, key)
    decreases |o|
  {
    if o != [] {
      var n := |o| - 1;
      DecodedKeys(o[..n], key);
      assert Names(o[..n], key) ==> Names(o, key) by {
        assert forall i :: 0 <= i < n ==> o[..n][i] == o[i];
      }
      assert key == ToLower(o[n].0) ==> Names(o, key);
      assert Names(o, key) && key != ToLower(o[n].0) ==> Names(o[..n], key) by {
        assert forall i :: 0 <= i < n ==> o[..n][i] == o[i];
      }
    }
  }

  lemma {:induction false} DecodedEntries(o: Object, i: nat)
    requires Decode(o).Some? && i < |o|
    ensures Holds(o, Decode(o).value, i)
    decreases |o|
  {
    var n := |o| - 1;
    if i < n {
      DecodedEntries(o[..n], i);
      assert o[..n][i] == o[i];
    }
  }

  lemma AcceptableSplits(o: Object)
    requires o != []
    ensures var n := |o| - 1;
      Acceptable(o) <==> Acceptable(o[..n]) && ValidEntry(o[n]) && !Names(o[..n], ToLower(o[n].0))
  {
    var n := |o| - 1;
    assert forall i :: 0 <= i < n ==> o[..n][i] == o[i];
    if Acceptable(o) {
      assert forall i :: 0 <= i < n ==> ToLower(o[..n][i].0) != ToLower(o[n].0);
    }
    if Acceptable(o[..n]) && ValidEntry(o[n]) && !Names(o[..n], ToLower(o[n].0)) {
      forall i, j | 0 <= i < j < |o| ensures ToLower(o[i].0) != ToLower(o[j].0) {
        assert o[..n][i] == o[i];
        assert j < n ==> o[..n][j] == o[j];
      }
    }
  }

  /** A file is read in full or not at all: it is accepted exactly when every entry is valid and no
      two name the same vault, and then the cache holds every entry, and nothing else. */
  lemma {:induction false} DecodesInFullOrNotAtAll(o: Object)
    ensures Decode(o).Some? <==> Acceptable(o)
    ensures Decode(o).Some? ==> forall i :: 0 <= i < |o| ==> Holds(o, Decode(o).value, i)
    ensures Decode(o).Some? ==> forall k :: k in Decode(o).value <==> Names(o, k)
    decreases |o|
  {
    if Decode(o).Some? {
      forall i | 0 <= i < |o| ensures Holds(o, Decode(o).value, i) { DecodedEntries(o, i); }
      forall k ensures k in Decode(o).value <==> Names(o, k) { DecodedKeys(o, k); }
    }
    if o != [] {
      AcceptableSplits(o);
      DecodesInFullOrNotAtAll(o[..|o| - 1]);
    }
  }

  // --------------------------------------------------------------- round trip

  /** The object's text for a key. */
  function Lookup(o: Object, key: string): Option<string>
    decreases |o|
  {
    if o == [] then None else if o[0].0 == key then Some(o[0].1) else Lookup(o[1..], key)
  }

  lemma {:induction false} PutThenLookup(o: Object, key: string, value: string, k: string)
    ensures Lookup(Put(o, key, value), k) == if k == key then Some(value) else Lookup(o, k)
    decreases |o|
  {
    if o != [] && o[0].0 != key {
      PutThenLookup(o[1..], key, value, k);
      assert ([o[0]] + Put(o[1..], key, value))[1..] == Put(o[1..], key, value);
    } else if o != [] {
      assert ([(key, value)] + o[1..])[1..] == o[1..];
    } else {
      assert [(key, value)][1..] == [];
    }
  }

  lemma {:induction false} PutKeepsDistinct(o: Object, key: string, value: string)
    requires DistinctKeys(o)
    ensures DistinctKeys(Put(o, key, value)) && Keys(Put(o, key, value)) == Keys(o) + {key}
    decreases |o|
  {
    var p := Put(o, key, value);
    if o == [] {
      assert Keys(p) == {key} by { assert p[0].0 == key; }
    } else if o[0].0 == key {
      assert forall i :: 0 <= i < |o| ==> p[i].0 == o[i].0;
      SameKeys(o, p);
      assert key in Keys(o);
    } else {
      PutKeepsDistinct(o[1..], key, value);
      var q := Put(o[1..], key, value);
      assert p == [o[0]] + q;
      HeadAndTailKeys(p);
      HeadAndTailKeys(o);
      assert p[1..] == q;
      assert o[0].0 !in Keys(o[1..]);
      assert forall j :: 0 <= j < |q| ==> q[j].0 in Keys(q);
      assert forall j :: 0 < j < |p| ==> p[j] == q[j - 1];
    }
  }

  lemma SameKeys(o: Object, p: Object)
    requires |o| == |p| && forall i :: 0 <= i < |o| ==> p[i].0 == o[i].0
    ensures Keys(p) == Keys(o) && (DistinctKeys(o) ==> DistinctKeys(p))
  {
    assert forall k :: k in Keys(p) ==> k in Keys(o);
    assert forall k :: k in Keys(o) ==> k in Keys(p);
  }

  lemma HeadAndTailKeys(o: Object)
    requires o != []
    ensures Keys(o) == {o[0].0} + Keys(o[1..])
    ensures DistinctKeys(o) ==> DistinctKeys(o[1..]) && o[0].0 !in Keys(o[1..])
  {
    forall k | k in Keys(o) ensures k in {o[0].0} + Keys(o[1..]) {
      var i :| 0 <= i < |o| && o[i].0 == k;
      assert i > 0 ==> o[1..][i - 1].0 == k;
    }
    forall k | k in Keys(o[1..]) ensures k in Keys(o) {
      var i :| 0 <= i < |o[1..]| && o[1..][i].0 == k;
      assert o[i + 1].0 == k;
    }
  }

  lemma {:induction false} LookupAt(o: Object, i: nat)
    requires DistinctKeys(o) && i < |o|
    ensures Lookup(o, o[i].0) == Some(o[i].1)
    decreases |o|
  {
    if i > 0 {
      assert o[1..][i - 1] == o[i] && o[0].0 != o[i].0;
      HeadAndTailKeys(o);
      LookupAt(o[1..], i - 1);
    }
  }

  /** The encoded object is the lowered cache: each key once, each with its fraction's digits. */
  lemma {:induction false} EncodeIsTheLoweredCache(cache: seq<(string, nat)>)
    ensures var o := Encode(cache);
      && DistinctKeys(o) && Keys(o) == Lowered(cache).Keys
      && (forall k <- Lowered(cache) :: Lookup(o, k) == Some(ToDecimal(Lowered(cache)[k])) && ToLower(k) == k)
    decreases |cache|
  {
    if cache == [] {
      assert Keys([]) == {};
    } else {
      var n := |cache| - 1;
      var key, value := ToLower(cache[n].0), ToDecimal(cache[n].1);
      EncodeIsTheLoweredCache(cache[..n]);
      PutKeepsDistinct(Encode(cache[..n]), key, value);
      LowerTwice(cache[n].0);
      forall k | k in Lowered(cache)
        ensures Lookup(Encode(cache), k) == Some(ToDecimal(Lowered(cache)[k])) && ToLower(k) == k
      {
        PutThenLookup(Encode(cache[..n]), key, value, k);
      }
    }
  }

  /** What the keeper may hold: a fraction at most for each real address. */
  predicate Wellformed(m: map<string, nat>) {
    forall k <- m :: IsAddress(k) && m[k] <= WAD
  }

  lemma EncodedEntry(cache: seq<(string, nat)>, i: nat)
    requires i < |Encode(cache)|
    ensures var e, m := Encode(cache)[i], Lowered(cache);
      e.0 in m && ToLower(e.0) == e.0 && IsDecimal(e.1) && ParseDecimal(e.1) == m[e.0]
  {
    EncodeIsTheLoweredCache(cache);
    assert Encode(cache)[i].0 in Keys(Encode(cache));
    LookupAt(Encode(cache), i);
    DecimalRoundTrip(Lowered(cache)[Encode(cache)[i].0]);
  }

  lemma EncodedIsAcceptable(cache: seq<(string, nat)>)
    ensures Acceptable(Encode(cache)) <==> Wellformed(Lowered(cache))
  {
    var o, m := Encode(cache), Lowered(cache);
    EncodeIsTheLoweredCache(cache);
    forall i | 0 <= i < |o|
      ensures o[i].0 in m && ToLower(o[i].0) == o[i].0
      ensures ValidEntry(o[i]) <==> IsAddress(o[i].0) && m[o[i].0] <= WAD
    {
      EncodedEntry(cache, i);
    }
    if Acceptable(o) {
      forall k | k in m ensures IsAddress(k) && m[k] <= WAD {
        assert k in Keys(o);
      }
    }
  }

  /** Writing the cache and reading it back gives the lowered cache exactly when every key is an
      address and every fraction is at most one; otherwise the file is refused. */
  lemma RoundTrip(cache: seq<(string, nat)>)
    ensures Decode(Encode(cache)) == if Wellformed(Lowered(cache)) then Some(Lowered(cache)) else None
  {
    var o, m := Encode(cache), Lowered(cache);
    EncodedIsAcceptable(cache);
    DecodesInFullOrNotAtAll(o);
    if Acceptable(o) {
      DecodesToLowered(cache);
    }
  }

  lemma DecodesToLowered(cache: seq<(string, nat)>)
    requires Decode(Encode(cache)).Some?
    ensures Decode(Encode(cache)).value == Lowered(cache)
  {
    var o, m := Encode(cache), Lowered(cache);
    var d := Decode(o).value;
    EncodeIsTheLoweredCache(cache);
    forall k | k in m ensures k in d && d[k] == m[k] {
      assert k in Keys(o);
      var i :| 0 <= i < |o| && o[i].0 == k;
      EncodedEntry(cache, i);
      DecodedEntries(o, i);
      assert Holds(o, d, i);
    }
    forall k | k in d ensures k in m {
      DecodedKeys(o, k);
      var i :| 0 <= i < |o| && ToLower(o[i].0) == k;
      EncodedEntry(cache, i);
    }
  }

  // ------------------------------------------------------- texts, by character

  function PowerOfTen(n: nat): nat {
    if n == 0 then 1 else 10 * PowerOfTen(n - 1)
  }

  /** A digit string by the place of each digit, from the left. */
  function PlaceValue(s: string): int {
    if s == "" then 0 else (s[0] as int - 48) * PowerOfTen(|s| - 1) + PlaceValue(s[1..])
  }

  lemma {:induction false} PlacesShift(s: string, c: char)
    ensures PlaceValue(s + [c]) == 10 * PlaceValue(s) + (c as int - 48)
    decreases |s|
  {
    if s == "" {
      assert s + [c] == [c] && [c][1..] == "";
      assert PowerOfTen(0) == 1;
    } else {
      assert (s + [c])[1..] == s[1..] + [c];
      PlacesShift(s[1..], c);
      assert PowerOfTen(|s|) == 10 * PowerOfTen(|s| - 1);
      assert (s[0] as int - 48) * PowerOfTen(|s|) == 10 * ((s[0] as int - 48) * PowerOfTen(|s| - 1));
    }
  }

  lemma {:induction false} DecimalsByPlace(s: string)
    requires forall i :: 0 <= i < |s| ==> IsDigit(s[i])
    ensures ParseDecimal(s) == PlaceValue(s)
    decreases |s|
  {
    if s != "" {
      DecimalsByPlace(s[..|s| - 1]);
      PlacesShift(s[..|s| - 1], s[|s| - 1]);
      assert s == s[..|s| - 1] + [s[|s| - 1]];
    }
  }

  lemma AddressByCharacter(key: string)
    ensures IsAddress(key) <==>
      |key| == 42 && key[..2] == "0x" && forall c <- key[2..] :: '0' <= c <= '9' || 'A' <= c <= 'F' || 'a' <= c <= 'f'
  {
    if |key| == 42 {
      assert key[..2] == [key[0], key[1]];
      forall i | 2 <= i < 42 ensures key[i] in key[2..] {
        assert key[2..][i - 2] == key[i];
      }
      forall c | c in key[2..] ensures exists i :: 2 <= i < 42 && key[i] == c {
        var j :| 0 <= j < 40 && key[2..][j] == c;
        assert key[j + 2] == c;
      }
    }
  }

  /** An entry is accepted exactly when its key is 0x and forty hex digits and its value a decimal number
      of at least one digit, no more than one in 18 decimals. */
  lemma EntriesByCharacter(key: string, value: string)
    ensures ValidEntry((key, value)) <==>
      && |key| == 42 && key[..2] == "0x"
      && (forall c <- key[2..] :: '0' <= c <= '9' || 'A' <= c <= 'F' || 'a' <= c <= 'f')
      && |value| > 0 && (forall c <- value :: '0' <= c <= '9')
      && PlaceValue(value) <= 1_000_000_000_000_000_000
  {
    AddressByCharacter(key);
    forall i | 0 <= i < |value| ensures value[i] in value {
    }
    if forall i :: 0 <= i < |value| ==> IsDigit(value[i]) {
      DecimalsByPlace(value);
    }
  }

  /** Lowering changes the letters A to F, and every other capital, to their small form, 32 codes up, and
      nothing else. */
  lemma LoweredByCharacter(s: string, i: nat)
    requires i < |s|
    ensures |ToLower(s)| == |s|
    ensures ToLower(s)[i] as int == s[i] as int + if 65 <= s[i] as int <= 90 then 32 else 0
  {
  }
}

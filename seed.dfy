/**
 * The pure parts of the seeding script lib/seed.ts: `getRandomSubset` (bounds checks, an
 * in-place Fisher-Yates shuffle of a copy, a prefix) and the integer formulas that pick
 * the generated fields of each document.
 *
 * The model assumes that `Math.random()` returns a multiple of 2^-53 in [0, 1), as common
 * engines do; the language only promises some double in [0, 1). A draw `d < Precision`
 * stands for `d / Precision`, so `Math.floor(Math.random() * n)` is `d * n / Precision`.
 * A sequence of random numbers is a function from the call's index to its draw.
 */
module Seed {
  import opened Wrappers

  const Precision: nat := 0x20_0000_0000_0000

  type Draw = d: nat | d < Precision

  /** `Math.floor(Math.random() * n)` for the draw `d`. */
  function RandomBelow(d: Draw, n: nat): (k: nat)
    ensures n > 0 ==> k < n
    ensures n == 0 ==> k == 0
  {
    ScaledBelow(d, n);
    d * n / Precision
  }

  lemma ScaledBelow(d: Draw, n: nat)
    ensures d * n / Precision <= n && (n > 0 ==> d * n / Precision < n)
  {
    if n > 0 {
      var q := d * n / Precision;
      assert Precision * q <= d * n;
      assert d * n < Precision * n;
    }
  }

  const MinAboveMax: string := "minItems cannot be greater than maxItems"
  const OutOfRange: string := "minItems or maxItems are out of valid range for the array"

  /** `s` with the elements at `i` and `j` exchanged (a no-op when `i == j`). */
  function Swap<T>(s: seq<T>, i: nat, j: nat): (t: seq<T>)
    requires i < |s| && j < |s|
    ensures |t| == |s| && t[i] == s[j] && t[j] == s[i]
    ensures forall k :: 0 <= k < |s| && k != i && k != j ==> t[k] == s[k]
  {
    s[i := s[j]][j := s[i]]
  }

  lemma SwapPermutes<T>(s: seq<T>, i: nat, j: nat)
    requires i < |s| && j < |s|
    ensures multiset(Swap(s, i, j)) == multiset(s)
  {
    if i != j {
      var t := s[i := s[j]];
      assert multiset(t) == multiset(s) - multiset{s[i]} + multiset{s[j]};
    }
  }

  /**
   * The Fisher-Yates iterations for positions `hi - 1` down to 1, the first of them using
   * random call number `call`: position `i` swaps with `Math.floor(Math.random() * (i + 1))`.
   */
  function ShuffleFrom<T>(s: seq<T>, hi: nat, random: nat -> Draw, call: nat): (t: seq<T>)
    requires hi <= |s|
    ensures |t| == |s|
    decreases hi
  {
    if hi <= 1 then s
    else ShuffleFrom(Swap(s, hi - 1, RandomBelow(random(call), hi)), hi - 1, random, call + 1)
  }

  /**
   * The whole shuffle of `getRandomSubset`. Random call 0 picks the subset size, so the
   * loop's calls start at 1.
   */
  function Shuffled<T>(s: seq<T>, random: nat -> Draw): (t: seq<T>)
    ensures |t| == |s|
  {
    ShuffleFrom(s, |s|, random, 1)
  }

  lemma {:induction false} ShuffleFromPermutes<T>(s: seq<T>, hi: nat, random: nat -> Draw, call: nat)
    requires hi <= |s|
    ensures multiset(ShuffleFrom(s, hi, random, call)) == multiset(s)
    decreases hi
  {
    if hi > 1 {
      var j := RandomBelow(random(call), hi);
      SwapPermutes(s, hi - 1, j);
      ShuffleFromPermutes(Swap(s, hi - 1, j), hi - 1, random, call + 1);
    }
  }

  /** The shuffle only reorders: it is a permutation of its input. */
  lemma ShuffledPermutes<T>(s: seq<T>, random: nat -> Draw)
    ensures multiset(Shuffled(s, random)) == multiset(s)
  {
    ShuffleFromPermutes(s, |s|, random, 1);
  }

  /** The subset size `Math.floor(Math.random() * (maxItems - minItems + 1)) + minItems`. */
  function SubsetSize(minItems: int, maxItems: int, d: Draw): (n: int)
    requires minItems <= maxItems
    ensures minItems <= n <= maxItems
  {
    RandomBelow(d, maxItems - minItems + 1) + minItems
  }

  ghost predicate NoDuplicates<T>(s: seq<T>) {
    forall i, j :: 0 <= i < j < |s| ==> s[i] != s[j]
  }

  lemma {:induction false} NoDuplicatesCountsAtMostOne<T>(s: seq<T>, x: T)
    requires NoDuplicates(s)
    ensures multiset(s)[x] <= 1
    decreases |s|
  {
    if s != [] {
      var n := |s| - 1;
      assert s == s[..n] + [s[n]];
      NoDuplicatesCountsAtMostOne(s[..n], x);
      if s[n] == x {
        assert x !in s[..n];
      }
    }
  }

  lemma RepeatCountsTwo<T>(s: seq<T>, i: nat, j: nat)
    requires i < j < |s| && s[i] == s[j]
    ensures multiset(s)[s[i]] >= 2
  {
    assert s == s[..i] + [s[i]] + s[i + 1..j] + [s[j]] + s[j + 1..];
  }

  /** A sub-multiset of a sequence without duplicates has none either. */
  lemma SubMultisetNoDuplicates<T>(s: seq<T>, t: seq<T>)
    requires NoDuplicates(s) && multiset(t) <= multiset(s)
    ensures NoDuplicates(t)
  {
    forall i, j | 0 <= i < j < |t|
      ensures t[i] != t[j]
    {
      if t[i] == t[j] {
        RepeatCountsTwo(t, i, j);
        NoDuplicatesCountsAtMostOne(s, t[i]);
      }
    }
  }

  /**
   * `getRandomSubset(array, minItems, maxItems)`. The bounds checks come first, in the
   * source's order; then a copy of the array is shuffled in place and a prefix of the
   * chosen size is returned. The input array is only read.
   */
  method GetRandomSubset<T>(a: array<T>, minItems: int, maxItems: int, random: nat -> Draw)
    returns (r: Result<seq<T>, string>)
    ensures minItems > maxItems ==> r == Failure(MinAboveMax)
    ensures minItems <= maxItems && (minItems < 0 || maxItems > a.Length) ==> r == Failure(OutOfRange)
    ensures r.Success? <==> 0 <= minItems <= maxItems <= a.Length
    ensures r.Success? ==>
      && minItems <= |r.value| <= maxItems
      && |r.value| == SubsetSize(minItems, maxItems, random(0))
      && r.value == Shuffled(a[..], random)[..|r.value|]
      && multiset(r.value) <= multiset(a[..])
      && (NoDuplicates(a[..]) ==> NoDuplicates(r.value))
  {
    if minItems > maxItems {
      return Failure(MinAboveMax);
    }
    if minItems < 0 || maxItems > a.Length {
      return Failure(OutOfRange);
    }
    var subsetSize := RandomBelow(random(0), maxItems - minItems + 1) + minItems;
    var copy := new T[a.Length](k requires 0 <= k < a.Length reads a => a[k]);
    assert copy[..] == a[..];
    ShuffleInPlace(copy, random);
    var shuffled := copy[..];
    ShuffledPermutes(a[..], random);
    var subset := shuffled[..subsetSize];
    assert shuffled == subset + shuffled[subsetSize..];
    SubMultisetOfPrefix(shuffled, subsetSize);
    if NoDuplicates(a[..]) {
      SubMultisetNoDuplicates(a[..], subset);
    }
    r := Success(subset);
  }

  /** The Fisher-Yates loop of `getRandomSubset`, swapping in place from the last position down to 1. */
  method ShuffleInPlace<T>(copy: array<T>, random: nat -> Draw)
    modifies copy
    ensures copy[..] == Shuffled(old(copy[..]), random)
  {
    var i := copy.Length - 1;
    while i > 0
      invariant -1 <= i < copy.Length && (copy.Length > 0 ==> i >= 0)
      invariant ShuffleFrom(copy[..], i + 1, random, copy.Length - i) == Shuffled(old(copy[..]), random)
    {
      var randomIndex := RandomBelow(random(copy.Length - i), i + 1);
      assert 0 <= randomIndex <= i;
      assert copy[..][i := copy[randomIndex]][randomIndex := copy[i]] == Swap(copy[..], i, randomIndex);
      copy[i], copy[randomIndex] := copy[randomIndex], copy[i];
      i := i - 1;
    }
  }

  lemma SubMultisetOfPrefix<T>(s: seq<T>, n: nat)
    requires n <= |s|
    ensures multiset(s[..n]) <= multiset(s)
  {
    assert s == s[..n] + s[n..];
  }

  // The integer formulas of the generated fields.

  /** Rating, bedrooms and bathrooms: `Math.floor(Math.random() * 5) + 1`. */
  function OneToFive(d: Draw): (n: int)
    ensures 1 <= n <= 5
  {
    RandomBelow(d, 5) + 1
  }

  /** Price: `Math.floor(Math.random() * 9000) + 1000`. */
  function Price(d: Draw): (n: int)
    ensures 1000 <= n <= 9999
  {
    RandomBelow(d, 9000) + 1000
  }

  /** Area: `Math.floor(Math.random() * 3000) + 500`. */
  function Area(d: Draw): (n: int)
    ensures 500 <= n <= 3499
  {
    RandomBelow(d, 3000) + 500
  }

  const PropertyTypes: seq<string> :=
    ["House", "Townhouse", "Condo", "Duplex", "Studio", "Villa", "Apartment", "Other"]

  const Facilities: seq<string> := ["Laundry", "Parking", "Gym", "Wifi", "Pet-friendly"]

  /**
   * `list[Math.floor(Math.random() * list.length)]`: how an agent, an avatar, a property
   * type and a fallback image are picked. On an empty list JavaScript yields `undefined`.
   */
  function Pick<T>(list: seq<T>, d: Draw): (r: Option<T>)
    ensures r.Some? <==> |list| > 0
    ensures r.Some? ==> r.value in list
  {
    var k := RandomBelow(d, |list|);
    if k < |list| then Some(list[k]) else None
  }

  /**
   * The facilities of a property: the facility list, in the order a random sort left it
   * (`arranged`), cut to `Math.floor(Math.random() * facilities.length) + 1` entries.
   */
  function SelectedFacilities(arranged: seq<string>, d: Draw): (r: seq<string>)
    requires multiset(arranged) == multiset(Facilities)
    ensures 1 <= |r| <= 5
    ensures forall f :: f in r ==> f in Facilities
    ensures NoDuplicates(r)
  {
    assert |arranged| == |multiset(arranged)| == 5;
    var r := arranged[..RandomBelow(d, |Facilities|) + 1];
    SubMultisetOfPrefix(arranged, |r|);
    forall f | f in r ensures f in Facilities {
      assert f in multiset(r);
    }
    SubMultisetNoDuplicates(Facilities, r);
    r
  }

  /**
   * The image of property number `i`: `propertiesImages[i]` when `i` is a valid index,
   * otherwise a random pick from the list.
   */
  function PropertyImage<I>(images: seq<I>, i: nat, d: Draw): (r: Option<I>)
    ensures i < |images| ==> r == Some(images[i])
    ensures |images| > 0 ==> r.Some? && r.value in images
    ensures |images| == 0 ==> r.None?
  {
    if |images| - 1 >= i then Some(images[i]) else Pick(images, d)
  }
}

/** The listing filters of hooks/usePropertyFilters.ts: the price bounds of
    the loaded listings and the price, bedrooms and location filter chain
    that produces `filteredProperties`. The hook's React state is a class
    whose setters re-run the filter effect, as the effect's dependency list
    makes React do. */
module PropertyFilters {
  import opened Wrappers
  import opened Seqs
  import opened Strings
  import opened Types

  const DEFAULT_MIN_PRICE: int := 0
  const DEFAULT_MAX_PRICE: int := 2000000

  /** `Math.min(...prices)`. */
  function MinPrice(ps: seq<Property>): (m: int)
    requires ps != []
    ensures forall i :: 0 <= i < |ps| ==> m <= ps[i].price
    ensures exists i :: 0 <= i < |ps| && ps[i].price == m
  {
    if |ps| == 1 then ps[0].price
    else
      var rest := MinPrice(ps[1..]);
      assert forall i :: 1 <= i < |ps| ==> ps[i] == ps[1..][i - 1];
      if ps[0].price <= rest then ps[0].price else rest
  }

  /** `Math.max(...prices)`. */
  function MaxPrice(ps: seq<Property>): (m: int)
    requires ps != []
    ensures forall i :: 0 <= i < |ps| ==> ps[i].price <= m
    ensures exists i :: 0 <= i < |ps| && ps[i].price == m
  {
    if |ps| == 1 then ps[0].price
    else
      var rest := MaxPrice(ps[1..]);
      assert forall i :: 1 <= i < |ps| ==> ps[i] == ps[1..][i - 1];
      if ps[0].price >= rest then ps[0].price else rest
  }

  /** `minMaxPrice`: the default bounds without listings, else the lowest and
      the highest price. */
  function MinMaxPrice(ps: seq<Property>): (r: (int, int))
    ensures ps == [] ==> r == (DEFAULT_MIN_PRICE, DEFAULT_MAX_PRICE)
    ensures ps != [] ==> r == (MinPrice(ps), MaxPrice(ps))
    ensures r.0 <= r.1
  {
    if ps == [] then (DEFAULT_MIN_PRICE, DEFAULT_MAX_PRICE)
    else
      var w := ps[0];
      assert MinPrice(ps) <= w.price <= MaxPrice(ps);
      (MinPrice(ps), MaxPrice(ps))
  }

  /** Every listing's price lies in the bounds of a non-empty list. */
  lemma PricesWithinMinMax(ps: seq<Property>)
    ensures forall i :: 0 <= i < |ps| ==> MinMaxPrice(ps).0 <= ps[i].price <= MinMaxPrice(ps).1
  {
  }

  predicate InPriceRange(range: (int, int), p: Property)
  {
    range.0 <= p.price && p.price <= range.1
  }

  /** The bedrooms filter: 'any' keeps everything; otherwise the text is
      read by `parseInt` and a trailing '+' asks for at least that many. A
      text with no number gives NaN, and no comparison with NaN holds. */
  predicate BedroomsMatch(bedrooms: string, p: Property)
  {
    bedrooms == "any" ||
    match ParseInt(bedrooms)
    case None => false
    case Some(n) => if EndsWith(bedrooms, "+") then p.bedrooms >= n else p.bedrooms == n
  }

  /** The location filter: applied only when the trimmed text is non-empty,
      a case-insensitive search of the untrimmed text in address or title. */
  predicate LocationMatch(location: string, p: Property)
  {
    Trim(location) == "" ||
    Contains(ToLower(p.address), ToLower(location)) || Contains(ToLower(p.title), ToLower(location))
  }

  predicate Keep(range: (int, int), bedrooms: string, location: string, p: Property)
  {
    InPriceRange(range, p) && BedroomsMatch(bedrooms, p) && LocationMatch(location, p)
  }

  function KeepTest(range: (int, int), bedrooms: string, location: string): Property -> bool
  {
    (p: Property) => Keep(range, bedrooms, location, p)
  }

  /** The listings the three filters let through, in their original order. */
  function Filtered(ps: seq<Property>, range: (int, int), bedrooms: string, location: string): (r: seq<Property>)
    ensures |r| <= |ps|
    ensures forall i :: 0 <= i < |r| ==> r[i] in ps && Keep(range, bedrooms, location, r[i])
  {
    Filter(KeepTest(range, bedrooms, location), ps)
  }

  function PriceTest(range: (int, int)): Property -> bool
  {
    (p: Property) => InPriceRange(range, p)
  }

  function PriceBedroomsTest(range: (int, int), bedrooms: string): Property -> bool
  {
    (p: Property) => InPriceRange(range, p) && BedroomsMatch(bedrooms, p)
  }

  function AtLeastTest(numBeds: Option<int>): Property -> bool
  {
    (p: Property) => numBeds.Some? && p.bedrooms >= numBeds.value
  }

  function ExactlyTest(numBeds: Option<int>): Property -> bool
  {
    (p: Property) => numBeds.Some? && p.bedrooms == numBeds.value
  }

  function LocationTest(location: string): Property -> bool
  {
    (p: Property) => Contains(ToLower(p.address), ToLower(location)) || Contains(ToLower(p.title), ToLower(location))
  }

  /** The bedrooms step of the filter effect, after the price step. */
  method FilterBedrooms(tempFiltered: seq<Property>, ghost ps: seq<Property>, ghost range: (int, int), bedrooms: string)
    returns (r: seq<Property>)
    requires tempFiltered == Filter(PriceTest(range), ps)
    ensures r == Filter(PriceBedroomsTest(range, bedrooms), ps)
  {
    r := tempFiltered;
    if bedrooms != "any" {
      var numBeds := ParseInt(bedrooms);
      if EndsWith(bedrooms, "+") {
        r := Filter(AtLeastTest(numBeds), r);
        FilterFilter(PriceTest(range), AtLeastTest(numBeds), PriceBedroomsTest(range, bedrooms), ps);
      } else {
        r := Filter(ExactlyTest(numBeds), r);
        FilterFilter(PriceTest(range), ExactlyTest(numBeds), PriceBedroomsTest(range, bedrooms), ps);
      }
    } else {
      FilterSameTest(PriceTest(range), PriceBedroomsTest(range, bedrooms), ps);
    }
  }

  /** The location step of the filter effect, after the bedrooms step. */
  method FilterLocation(tempFiltered: seq<Property>, ghost ps: seq<Property>, ghost range: (int, int),
                        ghost bedrooms: string, location: string)
    returns (r: seq<Property>)
    requires tempFiltered == Filter(PriceBedroomsTest(range, bedrooms), ps)
    ensures r == Filtered(ps, range, bedrooms, location)
  {
    r := tempFiltered;
    if Trim(location) != "" {
      r := Filter(LocationTest(location), r);
      FilterFilter(PriceBedroomsTest(range, bedrooms), LocationTest(location), KeepTest(range, bedrooms, location), ps);
    } else {
      FilterSameTest(PriceBedroomsTest(range, bedrooms), KeepTest(range, bedrooms, location), ps);
    }
  }

  /** The hook's state. */
  class Filters {
    var properties: seq<Property>
    var filteredProperties: seq<Property>
    var priceRange: (int, int)
    var bedrooms: string
    var location: string

    /** The filter effect has run on the current state. */
    ghost predicate Valid()
      reads this
    {
      filteredProperties == Filtered(properties, priceRange, bedrooms, location)
    }

    /** Mounting with `ps`: the initial state, then both effects. */
    constructor (ps: seq<Property>)
      ensures properties == ps && bedrooms == "any" && location == ""
      ensures priceRange == MinMaxPrice(ps)
      ensures Valid() && filteredProperties == ps
    {
      properties := ps;
      filteredProperties := [];
      priceRange := (DEFAULT_MIN_PRICE, DEFAULT_MAX_PRICE);
      bedrooms := "any";
      location := "";
      new;
      if |ps| > 0 {
        priceRange := MinMaxPrice(ps);
      }
      ApplyFilters();
      DefaultsKeepAll(ps);
    }

    /** The filter effect: `tempFiltered` narrowed step by step. */
    method ApplyFilters()
      modifies this
      ensures properties == old(properties) && priceRange == old(priceRange)
      ensures bedrooms == old(bedrooms) && location == old(location)
      ensures filteredProperties == Filtered(properties, priceRange, bedrooms, location)
    {
      var tempFiltered := properties;
      tempFiltered := Filter(PriceTest(priceRange), tempFiltered);
      tempFiltered := FilterBedrooms(tempFiltered, properties, priceRange, bedrooms);
      tempFiltered := FilterLocation(tempFiltered, properties, priceRange, bedrooms, location);
      filteredProperties := tempFiltered;
    }

    /** New listings: the price range is reset to their bounds (when there
        are any) and the filters re-run. */
    method SetProperties(ps: seq<Property>)
      modifies this
      ensures properties == ps && bedrooms == old(bedrooms) && location == old(location)
      ensures ps != [] ==> priceRange == MinMaxPrice(ps)
      ensures ps == [] ==> priceRange == old(priceRange)
      ensures Valid()
    {
      properties := ps;
      if |ps| > 0 {
        priceRange := MinMaxPrice(ps);
      }
      ApplyFilters();
    }

    method SetPriceRange(range: (int, int))
      modifies this
      ensures priceRange == range
      ensures properties == old(properties) && bedrooms == old(bedrooms) && location == old(location)
      ensures Valid()
    {
      priceRange := range;
      ApplyFilters();
    }

    method SetBedrooms(b: string)
      modifies this
      ensures bedrooms == b
      ensures properties == old(properties) && priceRange == old(priceRange) && location == old(location)
      ensures Valid()
    {
      bedrooms := b;
      ApplyFilters();
    }

    method SetLocation(l: string)
      modifies this
      ensures location == l
      ensures properties == old(properties) && priceRange == old(priceRange) && bedrooms == old(bedrooms)
      ensures Valid()
    {
      location := l;
      ApplyFilters();
    }
  }

  /** The result keeps the listings' order. */
  lemma FilteredIsSubsequence(ps: seq<Property>, range: (int, int), bedrooms: string, location: string)
    ensures IsSubsequence(Filtered(ps, range, bedrooms, location), ps)
  {
    FilterIsSubsequence(KeepTest(range, bedrooms, location), ps);
  }

  /** A listing is kept, as often as it occurs, exactly when all three
      filters accept it. */
  lemma FilteredKeeps(ps: seq<Property>, range: (int, int), bedrooms: string, location: string, p: Property)
    ensures multiset(Filtered(ps, range, bedrooms, location))[p]
         == if Keep(range, bedrooms, location, p) then multiset(ps)[p] else 0
    ensures p in Filtered(ps, range, bedrooms, location) <==> p in ps && Keep(range, bedrooms, location, p)
  {
    FilterMultiset(KeepTest(range, bedrooms, location), ps, p);
  }

  /** 'N+' keeps the listings with at least N bedrooms. */
  lemma BedroomsAtLeast(n: nat, p: Property)
    ensures BedroomsMatch(NatToString(n) + "+", p) <==> p.bedrooms >= n
  {
    var s := NatToString(n);
    ParseIntOfNatToString(n, "+");
    assert (s + "+")[0] != 'a' by { assert (s + "+")[0] == s[0]; }
    assert (s + "+")[|s + "+"| - 1..] == "+";
  }

  /** 'N' keeps the listings with exactly N bedrooms, and 'any' all. */
  lemma BedroomsExactly(n: nat, p: Property)
    ensures BedroomsMatch(NatToString(n), p) <==> p.bedrooms == n
    ensures BedroomsMatch("any", p)
  {
    var s := NatToString(n);
    ParseIntOfNatToString(n, "");
    assert s + "" == s;
    assert s[0] != 'a';
    assert !EndsWith(s, "+") by { assert IsDigit(s[|s| - 1]); }
  }

  /** A text the bedrooms filter cannot read as a number keeps nothing. */
  lemma UnreadableBedroomsKeepNothing(bedrooms: string, p: Property)
    requires bedrooms != "any" && ParseInt(bedrooms).None?
    ensures !BedroomsMatch(bedrooms, p)
  {
  }

  /** A location made only of white space filters nothing. */
  lemma BlankLocationKeepsAll(location: string, p: Property)
    requires forall i :: 0 <= i < |location| ==> IsWhitespace(location[i])
    ensures LocationMatch(location, p)
  {
    TrimEmptyIffBlank(location);
  }

  /** With the filters as they are after loading (any bedrooms, no
      location, the price range reset to the listings' bounds) every
      listing is shown. */
  lemma DefaultsKeepAll(ps: seq<Property>)
    ensures Filtered(ps, MinMaxPrice(ps), "any", "") == ps
  {
    var t := KeepTest(MinMaxPrice(ps), "any", "");
    forall i | 0 <= i < |ps| ensures t(ps[i]) {
      PricesWithinMinMax(ps);
      assert Trim("") == "";
    }
    FilterNoneOrAll(t, ps);
  }
}

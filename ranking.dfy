/**
 * The selection and ranking half of `fetchHandler`: per-model selection
 * (cheapest listing or all listings), the ascending sort by price, and the
 * two "keep all ties, report the first" reductions.
 */
module Ranking {
  import opened Common
  import opened Listings
  import opened Normaliser

  predicate SortedByPrice(s: seq<Listing>)
  {
    forall i, j :: 0 <= i < j < |s| ==> s[i].price.value <= s[j].price.value
  }

  /** Places `x` before the first listing of `s` that is not cheaper than it. */
  function Insert(x: Listing, s: seq<Listing>): (r: seq<Listing>)
    ensures |r| == |s| + 1
  {
    if |s| == 0 || x.price.value <= s[0].price.value then [x] + s
    else [s[0]] + Insert(x, s[1..])
  }

  /** Inserting adds `x` and keeps every other listing. */
  lemma {:induction false} InsertPermutes(x: Listing, s: seq<Listing>)
    ensures multiset(Insert(x, s)) == multiset(s) + multiset{x}
  {
    if |s| > 0 && x.price.value > s[0].price.value {
      InsertPermutes(x, s[1..]);
      assert s == [s[0]] + s[1..];
    }
  }

  /** Inserting into a sorted list keeps it sorted. */
  lemma {:induction false} InsertSorts(x: Listing, s: seq<Listing>)
    requires SortedByPrice(s)
    ensures SortedByPrice(Insert(x, s))
  {
    if |s| == 0 || x.price.value <= s[0].price.value {
      SortedCons(x, s);
    } else {
      var rest := Insert(x, s[1..]);
      assert SortedByPrice(s[1..]) by {
        forall i, j | 0 <= i < j < |s[1..]| ensures s[1..][i].price.value <= s[1..][j].price.value {
          assert s[1..][i] == s[i + 1] && s[1..][j] == s[j + 1];
        }
      }
      InsertSorts(x, s[1..]);
      InsertPermutes(x, s[1..]);
      forall z | z in multiset(s[1..]) + multiset{x} ensures s[0].price.value <= z.price.value {
        if z != x {
          var j :| 0 <= j < |s[1..]| && s[1..][j] == z;
          assert z == s[j + 1];
        }
      }
      NotBelow(s[0], rest, s[1..] + [x]);
      SortedCons(s[0], rest);
    }
  }

  /** A listing no dearer than every listing of a sorted list can go in front of it. */
  lemma SortedCons(y: Listing, t: seq<Listing>)
    requires SortedByPrice(t)
    requires forall k :: 0 <= k < |t| ==> y.price.value <= t[k].price.value
    ensures SortedByPrice([y] + t)
  {
    var r := [y] + t;
    forall i, j | 0 <= i < j < |r| ensures r[i].price.value <= r[j].price.value {
      assert r[j] == t[j - 1];
      if i > 0 {
        assert r[i] == t[i - 1];
      }
    }
  }

  /** A lower bound on the listings of `u` bounds every listing of a permutation of `u`. */
  lemma NotBelow(y: Listing, t: seq<Listing>, u: seq<Listing>)
    requires multiset(t) == multiset(u)
    requires forall z | z in multiset(u) :: y.price.value <= z.price.value
    ensures forall k :: 0 <= k < |t| ==> y.price.value <= t[k].price.value
  {
    forall k | 0 <= k < |t| ensures y.price.value <= t[k].price.value {
      assert t[k] in multiset(t);
    }
  }

  /**
   * `Array.prototype.sort` with the comparator
   * `Number(x.price.value) - Number(y.price.value)`: a stable sort, so listings
   * of equal price keep their relative order.
   */
  function SortByPrice(s: seq<Listing>): (r: seq<Listing>)
    ensures |r| == |s|
  {
    if |s| == 0 then [] else Insert(s[0], SortByPrice(s[1..]))
  }

  /** The sort returns a permutation of its input, in non-decreasing price order. */
  lemma {:induction false} SortByPriceSorts(s: seq<Listing>)
    ensures multiset(SortByPrice(s)) == multiset(s)
    ensures SortedByPrice(SortByPrice(s))
  {
    if |s| > 0 {
      SortByPriceSorts(s[1..]);
      InsertPermutes(s[0], SortByPrice(s[1..]));
      InsertSorts(s[0], SortByPrice(s[1..]));
      assert s == [s[0]] + s[1..];
    }
  }

  /** The listings of `s` priced `p`, in their order in `s`. */
  function PricedAt(s: seq<Listing>, p: int): seq<Listing>
  {
    if |s| == 0 then []
    else (if s[0].price.value == p then [s[0]] else []) + PricedAt(s[1..], p)
  }

  /** Inserting `x` puts it before every listing of its own price. */
  lemma {:induction false} InsertPricedAt(x: Listing, s: seq<Listing>, p: int)
    ensures PricedAt(Insert(x, s), p) == (if x.price.value == p then [x] else []) + PricedAt(s, p)
  {
    if |s| == 0 || x.price.value <= s[0].price.value {
      assert ([x] + s)[1..] == s;
    } else {
      var rest := Insert(x, s[1..]);
      InsertPricedAt(x, s[1..], p);
      assert ([s[0]] + rest)[1..] == rest;
    }
  }

  /**
   * The sort is stable: for every price, the listings of that price appear in
   * the sorted list in the same order as in the input.
   */
  lemma {:induction false} SortByPriceStable(s: seq<Listing>, p: int)
    ensures PricedAt(SortByPrice(s), p) == PricedAt(s, p)
  {
    if |s| > 0 {
      SortByPriceStable(s[1..], p);
      InsertPricedAt(s[0], SortByPrice(s[1..]), p);
    }
  }

  /** The first listing of `s` with the lowest price. */
  function FirstMinPrice(s: seq<Listing>): (k: nat)
    requires |s| > 0
    ensures k < |s|
    ensures forall j :: 0 <= j < |s| ==> s[k].price.value <= s[j].price.value
    ensures forall j :: 0 <= j < k ==> s[j].price.value > s[k].price.value
  {
    if |s| == 1 then 0
    else
      var k := FirstMinPrice(s[1..]);
      if s[0].price.value <= s[1 + k].price.value then 0 else 1 + k
  }

  /** The first listing of `s` with the highest discount. */
  function FirstMaxDiscount(s: seq<Listing>): (k: nat)
    requires |s| > 0
    ensures k < |s|
    ensures forall j :: 0 <= j < |s| ==> s[j].price.discount <= s[k].price.discount
    ensures forall j :: 0 <= j < k ==> s[j].price.discount < s[k].price.discount
  {
    if |s| == 1 then 0
    else
      var k := FirstMaxDiscount(s[1..]);
      if s[0].price.discount >= s[1 + k].price.discount then 0 else 1 + k
  }

  /** Sorting a model's listings and taking `[0]` picks its first cheapest listing. */
  lemma {:induction false} SortHeadIsFirstMin(s: seq<Listing>)
    requires |s| > 0
    ensures SortByPrice(s)[0] == s[FirstMinPrice(s)]
  {
    if |s| > 1 {
      SortHeadIsFirstMin(s[1..]);
    }
  }

  /**
   * The per-model loop of `fetchHandler`: in cheapest mode each model adds
   * the head of its sorted list, otherwise each model adds all its listings.
   * Cheapest mode fails on the first model without listings.
   */
  function Selection(lists: seq<seq<Listing>>, cheapest: bool): Result<seq<Listing>, Error>
  {
    if |lists| == 0 then Ok([])
    else
      var n := |lists| - 1;
      match Selection(lists[..n], cheapest)
      case Err(e) => Err(e)
      case Ok(prefix) =>
        if !cheapest then Ok(prefix + lists[n])
        else if |lists[n]| == 0 then Err(MissingListing(n))
        else Ok(prefix + [SortByPrice(lists[n])[0]])
  }

  /** In all mode the combined list is the concatenation of the model lists, in model order. */
  lemma {:induction false} AllSelectionIsConcat(lists: seq<seq<Listing>>)
    ensures Selection(lists, false) == Ok(Concat(lists))
  {
    if |lists| > 0 {
      var n := |lists| - 1;
      AllSelectionIsConcat(lists[..n]);
      ConcatSnoc(lists[..n], lists[n]);
      assert lists[..n] + [lists[n]] == lists;
    }
  }

  /** Some model has no listing. */
  predicate HasEmptyModel(lists: seq<seq<Listing>>)
  {
    exists i :: 0 <= i < |lists| && |lists[i]| == 0
  }

  /** In cheapest mode the selection fails exactly when some model has no listing. */
  lemma {:induction false} CheapestSelectionFails(lists: seq<seq<Listing>>)
    ensures Selection(lists, true).Err? <==> HasEmptyModel(lists)
  {
    if |lists| > 0 {
      var n := |lists| - 1;
      CheapestSelectionFails(lists[..n]);
      assert HasEmptyModel(lists) <==> HasEmptyModel(lists[..n]) || |lists[n]| == 0 by {
        if HasEmptyModel(lists[..n]) {
          var i :| 0 <= i < n && |lists[..n][i]| == 0;
          assert lists[i] == lists[..n][i];
        }
        if HasEmptyModel(lists) && |lists[n]| != 0 {
          var i :| 0 <= i < |lists| && |lists[i]| == 0;
          assert lists[..n][i] == lists[i];
        }
      }
    }
  }

  /** Each model `i` contributes one listing, the first of its cheapest listings. */
  predicate FirstCheapestOfEach(lists: seq<seq<Listing>>, picks: seq<Listing>)
  {
    && |picks| == |lists|
    && forall i :: 0 <= i < |lists| ==> |lists[i]| > 0 && picks[i] == lists[i][FirstMinPrice(lists[i])]
  }

  lemma {:induction false} CheapestSelectionPicks(lists: seq<seq<Listing>>)
    requires Selection(lists, true).Ok?
    ensures FirstCheapestOfEach(lists, Selection(lists, true).value)
  {
    if |lists| > 0 {
      var n := |lists| - 1;
      var init := lists[..n];
      assert Selection(init, true).Ok?;
      var prefix := Selection(init, true).value;
      var pick := lists[n][FirstMinPrice(lists[n])];
      assert Selection(lists, true).value == prefix + [pick] by {
        SortHeadIsFirstMin(lists[n]);
      }
      assert FirstCheapestOfEach(init + [lists[n]], prefix + [pick]) by {
        CheapestSelectionPicks(init);
        FirstCheapestOfEachSnoc(init, prefix, lists[n]);
      }
      assert init + [lists[n]] == lists;
    }
  }

  lemma FirstCheapestOfEachSnoc(lists: seq<seq<Listing>>, picks: seq<Listing>, l: seq<Listing>)
    requires FirstCheapestOfEach(lists, picks) && |l| > 0
    ensures FirstCheapestOfEach(lists + [l], picks + [l[FirstMinPrice(l)]])
  {
    var lists', picks' := lists + [l], picks + [l[FirstMinPrice(l)]];
    forall i | 0 <= i < |lists'|
      ensures |lists'[i]| > 0 && picks'[i] == lists'[i][FirstMinPrice(lists'[i])]
    {
      if i < |lists| {
        assert lists'[i] == lists[i] && picks'[i] == picks[i];
      }
    }
  }

  /** What the later code reads: the sorted list and the two singled-out listings. */
  datatype Ranked = Ranked(listings: seq<Listing>, maxDiscount: Option<Listing>, minPrice: Option<Listing>)

  /**
   * On a price-sorted list the first listing with the highest discount is
   * the cheapest of the listings sharing that discount.
   */
  lemma FirstMaxDiscountIsCheapest(s: seq<Listing>)
    requires |s| > 0 && SortedByPrice(s)
    ensures forall j :: 0 <= j < |s| && s[j].price.discount == s[FirstMaxDiscount(s)].price.discount ==>
      s[FirstMaxDiscount(s)].price.value <= s[j].price.value
  {
    var k := FirstMaxDiscount(s);
    forall j | 0 <= j < |s| && s[j].price.discount == s[k].price.discount
      ensures s[k].price.value <= s[j].price.value
    {
      assert k <= j;
    }
  }

  /** The selection and ranking part of `fetchHandler`, on the normalised model lists. */
  function Rank(lists: seq<seq<Listing>>, cheapest: bool): (r: Result<Ranked, Error>)
    ensures r.Err? <==> Selection(lists, cheapest).Err?
    ensures r.Err? ==> r.error == Selection(lists, cheapest).error
  {
    match Selection(lists, cheapest)
    case Err(e) => Err(e)
    case Ok(combined) =>
      var sorted := SortByPrice(combined);
      if |sorted| == 0 then Ok(Ranked(sorted, None, None))
      else Ok(Ranked(sorted, Some(sorted[FirstMaxDiscount(sorted)]), Some(sorted[FirstMinPrice(sorted)])))
  }

  /**
   * The ranked list is the combined selection, sorted by price; both
   * reductions are undefined exactly when it is empty.
   */
  lemma RankSortsSelection(lists: seq<seq<Listing>>, cheapest: bool)
    requires Selection(lists, cheapest).Ok?
    ensures var combined := Selection(lists, cheapest).value;
      var r := Rank(lists, cheapest).value;
      && SortedByPrice(r.listings)
      && multiset(r.listings) == multiset(combined)
      && (r.minPrice.None? <==> |combined| == 0)
      && (r.maxDiscount.None? <==> |combined| == 0)
  {
    SortByPriceSorts(Selection(lists, cheapest).value);
  }

  /** The lowest-price pick is the head of the ranked list, and no listing is cheaper. */
  lemma RankMinPrice(lists: seq<seq<Listing>>, cheapest: bool)
    requires Rank(lists, cheapest).Ok? && Rank(lists, cheapest).value.minPrice.Some?
    ensures var r := Rank(lists, cheapest).value;
      && r.minPrice.value == r.listings[0]
      && forall j :: 0 <= j < |r.listings| ==> r.listings[0].price.value <= r.listings[j].price.value
  {
    var s := Rank(lists, cheapest).value.listings;
    SortByPriceSorts(Selection(lists, cheapest).value);
    var m := FirstMinPrice(s);
    assert s[0].price.value <= s[m].price.value;
    assert m == 0;
  }

  /**
   * The largest-discount pick is in the ranked list, no listing has a larger
   * discount, and it is the cheapest of the listings with its discount.
   */
  lemma RankMaxDiscount(lists: seq<seq<Listing>>, cheapest: bool)
    requires Rank(lists, cheapest).Ok? && Rank(lists, cheapest).value.maxDiscount.Some?
    ensures var r := Rank(lists, cheapest).value;
      var best := r.maxDiscount.value;
      && best in r.listings
      && (forall j :: 0 <= j < |r.listings| ==> r.listings[j].price.discount <= best.price.discount)
      && (forall j :: 0 <= j < |r.listings| && r.listings[j].price.discount == best.price.discount ==>
            best.price.value <= r.listings[j].price.value)
  {
    SortByPriceSorts(Selection(lists, cheapest).value);
    FirstMaxDiscountIsCheapest(Rank(lists, cheapest).value.listings);
  }

  /**
   * The `maxDiscountCar` reduction: `ties` is the accumulator array, emptied
   * when a larger discount appears and pushed on every listing that matches
   * the running maximum; the answer is `ties[0]`, undefined on an empty list.
   */
  method MaxDiscountCar(s: seq<Listing>) returns (best: Option<Listing>)
    ensures best == if |s| == 0 then None else Some(s[FirstMaxDiscount(s)])
  {
    var ties: seq<Listing> := [];
    ghost var k := 0;
    var i := 0;
    while i < |s|
      invariant 0 <= i <= |s|
      invariant (|ties| == 0) == (i == 0)
      invariant i > 0 ==>
        && k < i && ties[0] == s[k]
        && (forall j :: 0 <= j < i ==> s[j].price.discount <= s[k].price.discount)
        && (forall j :: 0 <= j < k ==> s[j].price.discount < s[k].price.discount)
        && (forall t :: t in ties ==> t.price.discount == s[k].price.discount)
    {
      var item := s[i];
      var maxRest := if |ties| > 0 then ties[0].price.discount else item.price.discount;
      if item.price.discount > maxRest {
        maxRest := item.price.discount;
        ties := [];
      }
      if item.price.discount == maxRest {
        if |ties| == 0 {
          k := i;
        }
        ties := ties + [item];
      }
      i := i + 1;
    }
    if |ties| == 0 {
      best := None;
    } else {
      assert FirstMaxDiscount(s) == k;
      best := Some(ties[0]);
    }
  }

  /** The `minPriceCar` reduction: as `MaxDiscountCar`, keeping the lowest price. */
  method MinPriceCar(s: seq<Listing>) returns (best: Option<Listing>)
    ensures best == if |s| == 0 then None else Some(s[FirstMinPrice(s)])
  {
    var ties: seq<Listing> := [];
    ghost var k := 0;
    var i := 0;
    while i < |s|
      invariant 0 <= i <= |s|
      invariant (|ties| == 0) == (i == 0)
      invariant i > 0 ==>
        && k < i && ties[0] == s[k]
        && (forall j :: 0 <= j < i ==> s[k].price.value <= s[j].price.value)
        && (forall j :: 0 <= j < k ==> s[j].price.value > s[k].price.value)
        && (forall t :: t in ties ==> t.price.value == s[k].price.value)
    {
      var item := s[i];
      var minRest := if |ties| > 0 then ties[0].price.value else item.price.value;
      if item.price.value < minRest {
        minRest := item.price.value;
        ties := [];
      }
      if item.price.value == minRest {
        if |ties| == 0 {
          k := i;
        }
        ties := ties + [item];
      }
      i := i + 1;
    }
    if |ties| == 0 {
      best := None;
    } else {
      assert FirstMinPrice(s) == k;
      best := Some(ties[0]);
    }
  }

  /** Normalisation of every response, then selection and ranking. */
  function Pipeline(jsonList: seq<Option<Payload>>, cheapest: bool): Result<Ranked, Error>
  {
    match NormaliseAll(jsonList)
    case Err(e) => Err(e)
    case Ok(lists) => Rank(lists, cheapest)
  }

  /**
   * `fetchHandler` up to the output dispatch: maps `formatResponse` over the
   * responses, reassigns `result` model by model, sorts it and runs both
   * reductions.
   */
  method FetchHandler(jsonList: seq<Option<Payload>>, isLowest: bool) returns (r: Result<Ranked, Error>)
    ensures r == Pipeline(jsonList, isLowest)
  {
    var formatted := FormatAll(jsonList);
    if formatted.Err? {
      return Err(formatted.error);
    }
    var result := SelectListings(formatted.value, isLowest);
    if result.Err? {
      return Err(result.error);
    }
    var sorted := SortByPrice(result.value);
    var maxDiscount := MaxDiscountCar(sorted);
    var minPrice := MinPriceCar(sorted);
    r := Ok(Ranked(sorted, maxDiscount, minPrice));
  }

  /** `jsonList.map(formatResponse)`, response by response. */
  method FormatAll(jsonList: seq<Option<Payload>>) returns (r: Result<seq<seq<Listing>>, Error>)
    ensures r == NormaliseAll(jsonList)
  {
    var formatted: seq<seq<Listing>> := [];
    var i := 0;
    while i < |jsonList|
      invariant 0 <= i <= |jsonList|
      invariant NormaliseAll(jsonList[..i]) == Ok(formatted)
    {
      assert jsonList[..i + 1][..i] == jsonList[..i];
      var f := FormatResponse(jsonList[i]);
      if f.Err? {
        NormaliseAllErrorPersists(jsonList, i + 1);
        return Err(f.error);
      }
      formatted := formatted + [f.value];
      i := i + 1;
    }
    assert jsonList[..i] == jsonList;
    r := Ok(formatted);
  }

  /** The per-model loop reassigning `result`: the sorted head or all listings of each model. */
  method SelectListings(lists: seq<seq<Listing>>, isLowest: bool) returns (r: Result<seq<Listing>, Error>)
    ensures r == Selection(lists, isLowest)
  {
    var result: seq<Listing> := [];
    var i := 0;
    while i < |lists|
      invariant 0 <= i <= |lists|
      invariant Selection(lists[..i], isLowest) == Ok(result)
    {
      assert lists[..i + 1][..i] == lists[..i];
      if isLowest {
        var sorted := SortByPrice(lists[i]);
        if |sorted| == 0 {
          SelectionErrorPersists(lists, isLowest, i + 1);
          return Err(MissingListing(i));
        }
        result := result + [sorted[0]];
      } else {
        result := result + lists[i];
      }
      i := i + 1;
    }
    assert lists[..i] == lists;
    r := Ok(result);
  }

  lemma {:induction false} NormaliseAllErrorPersists(jsonList: seq<Option<Payload>>, k: nat)
    requires k <= |jsonList| && NormaliseAll(jsonList[..k]).Err?
    ensures NormaliseAll(jsonList) == NormaliseAll(jsonList[..k])
    decreases |jsonList| - k
  {
    if k < |jsonList| {
      assert jsonList[..k + 1][..k] == jsonList[..k];
      NormaliseAllErrorPersists(jsonList, k + 1);
    } else {
      assert jsonList[..k] == jsonList;
    }
  }

  lemma {:induction false} SelectionErrorPersists(lists: seq<seq<Listing>>, cheapest: bool, k: nat)
    requires k <= |lists| && Selection(lists[..k], cheapest).Err?
    ensures Selection(lists, cheapest) == Selection(lists[..k], cheapest)
    decreases |lists| - k
  {
    if k < |lists| {
      assert lists[..k + 1][..k] == lists[..k];
      SelectionErrorPersists(lists, cheapest, k + 1);
    } else {
      assert lists[..k] == lists;
    }
  }

  /**
   * Worked example: on listings priced 30, 50, 50 with discounts 1, 5, 20
   * the reductions pick the discount-20 listing and the 30.
   */
  lemma ReduceExample(a: Listing, b: Listing, c: Listing)
    requires a.price == Price(50, 5) && b.price == Price(50, 20) && c.price == Price(30, 1)
    ensures SortByPrice([a, b, c]) == [c, a, b]
    ensures FirstMaxDiscount([c, a, b]) == 2 && FirstMinPrice([c, a, b]) == 0
  {
    assert [a, b, c][1..] == [b, c] && [b, c][1..] == [c] && [c][1..] == [];
    assert SortByPrice([c]) == [c];
    assert Insert(b, [c]) == [c, b] by {
      assert [c][1..] == [];
    }
    assert Insert(a, [c, b]) == [c, a, b] by {
      assert [c, b][1..] == [b];
      assert Insert(a, [b]) == [a, b];
    }
    var sorted := [c, a, b];
    assert sorted[1..] == [a, b] && [a, b][1..] == [b];
  }
}

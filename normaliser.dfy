/**
 * `formatResponse`: flattens one vendor payload (brand, then sub-category,
 * then listing id) into the flat list of its listings.
 */
module Normaliser {
  import opened Common
  import opened Listings

  /** The listings of a brand's first sub-category; `None` when it has none. */
  function FirstCollection(node: BrandNode): Option<seq<Listing>>
  {
    if |node.items| == 0 then None else Some(Values(node.items[0].1.items))
  }

  /** How many listings the first sub-category of a brand holds (0 if there is none). */
  function FirstSize(node: BrandNode): nat
  {
    if |node.items| == 0 then 0 else |node.items[0].1.items|
  }

  function TotalFirstSize(brands: Object<BrandNode>): nat
  {
    if |brands| == 0 then 0 else TotalFirstSize(brands[..|brands| - 1]) + FirstSize(brands[|brands| - 1].1)
  }

  /**
   * The listings of every brand's first sub-category, brand after brand; the
   * first brand without a sub-category makes the whole call throw.
   */
  function Flatten(brands: Object<BrandNode>): Result<seq<Listing>, Error>
  {
    if |brands| == 0 then Ok([])
    else
      var last := brands[|brands| - 1];
      match Flatten(brands[..|brands| - 1])
      case Err(e) => Err(e)
      case Ok(prefix) =>
        match FirstCollection(last.1)
        case None => Err(NoSubCategory(last.0))
        case Some(c) => Ok(prefix + c)
  }

  /** What `formatResponse(json)` returns, or the error it throws. */
  function Normalised(json: Option<Payload>): Result<seq<Listing>, Error>
  {
    if json.None? || json.value.items.None? then Ok([]) else Flatten(json.value.items.value)
  }

  /** The nested `forEach` loops of `formatResponse`, pushing onto `result`. */
  method FormatResponse(json: Option<Payload>) returns (r: Result<seq<Listing>, Error>)
    ensures r == Normalised(json)
    ensures json.None? || json.value.items.None? ==> r == Ok([])
  {
    var result: seq<Listing> := [];
    if json.Some? && json.value.items.Some? {
      var brands := json.value.items.value;
      var i := 0;
      while i < |brands|
        invariant 0 <= i <= |brands|
        invariant Flatten(brands[..i]) == Ok(result)
      {
        assert brands[..i + 1][..i] == brands[..i];
        var items := brands[i].1.items;
        if |items| == 0 {
          FlattenErrorPersists(brands, i + 1);
          return Err(NoSubCategory(brands[i].0));
        }
        var collection := items[0].1.items;
        ghost var before := result;
        var j := 0;
        while j < |collection|
          invariant 0 <= j <= |collection|
          invariant result == before + Values(collection[..j])
        {
          result := result + [collection[j].1];
          j := j + 1;
        }
        assert collection[..j] == collection;
        i := i + 1;
      }
      assert brands[..i] == brands;
    }
    r := Ok(result);
  }

  /** Once a prefix of the brands throws, the whole list throws the same error. */
  lemma {:induction false} FlattenErrorPersists(brands: Object<BrandNode>, k: nat)
    requires k <= |brands| && Flatten(brands[..k]).Err?
    ensures Flatten(brands) == Flatten(brands[..k])
    decreases |brands| - k
  {
    if k < |brands| {
      assert brands[..k + 1][..k] == brands[..k];
      FlattenErrorPersists(brands, k + 1);
    } else {
      assert brands[..k] == brands;
    }
  }

  /** The call throws exactly when some brand has no sub-category, and it names the first such brand. */
  lemma {:induction false} FlattenFails(brands: Object<BrandNode>)
    ensures Flatten(brands).Err? <==> exists i :: 0 <= i < |brands| && FirstCollection(brands[i].1).None?
    ensures Flatten(brands).Err? ==>
      exists i :: 0 <= i < |brands| && FirstCollection(brands[i].1).None? &&
        Flatten(brands).error == NoSubCategory(brands[i].0) &&
        forall j :: 0 <= j < i ==> FirstCollection(brands[j].1).Some?
  {
    if |brands| > 0 {
      var n := |brands| - 1;
      var init := brands[..n];
      FlattenFails(init);
      assert forall i :: 0 <= i < n ==> init[i] == brands[i];
    }
  }

  /** On success the output holds exactly as many listings as the first sub-categories together. */
  lemma {:induction false} FlattenLength(brands: Object<BrandNode>)
    requires Flatten(brands).Ok?
    ensures |Flatten(brands).value| == TotalFirstSize(brands)
  {
    if |brands| > 0 {
      FlattenLength(brands[..|brands| - 1]);
    }
  }

  /**
   * On success a listing is in the output exactly when it is the value of
   * some id in the first sub-category of some brand.
   */
  lemma {:induction false} FlattenMembers(brands: Object<BrandNode>, x: Listing)
    requires Flatten(brands).Ok?
    ensures x in Flatten(brands).value <==>
      exists i :: 0 <= i < |brands| && FirstCollection(brands[i].1).Some? && x in FirstCollection(brands[i].1).value
  {
    if |brands| > 0 {
      var n := |brands| - 1;
      var init := brands[..n];
      FlattenMembers(init, x);
      assert forall i :: 0 <= i < n ==> init[i] == brands[i];
    }
  }

  /** Two brand lists that differ only in the sub-categories after the first flatten alike. */
  predicate SameFirstCollections(a: Object<BrandNode>, b: Object<BrandNode>)
  {
    |a| == |b| &&
    forall i :: 0 <= i < |a| ==> a[i].0 == b[i].0 && FirstCollection(a[i].1) == FirstCollection(b[i].1)
  }

  lemma {:induction false} SiblingSubCategoriesIgnored(a: Object<BrandNode>, b: Object<BrandNode>)
    requires SameFirstCollections(a, b)
    ensures Flatten(a) == Flatten(b)
  {
    if |a| > 0 {
      var n := |a| - 1;
      assert SameFirstCollections(a[..n], b[..n]) by {
        forall i | 0 <= i < n
          ensures a[..n][i].0 == b[..n][i].0 && FirstCollection(a[..n][i].1) == FirstCollection(b[..n][i].1)
        {
          assert a[..n][i] == a[i] && b[..n][i] == b[i];
        }
      }
      SiblingSubCategoriesIgnored(a[..n], b[..n]);
    }
  }

  /** `jsonList.map(formatResponse)`: the first payload that throws stops the map. */
  function NormaliseAll(jsonList: seq<Option<Payload>>): (r: Result<seq<seq<Listing>>, Error>)
    ensures r.Ok? ==> |r.value| == |jsonList|
    ensures r.Ok? ==> forall i :: 0 <= i < |jsonList| ==> Normalised(jsonList[i]) == Ok(r.value[i])
  {
    if |jsonList| == 0 then Ok([])
    else
      var n := |jsonList| - 1;
      match NormaliseAll(jsonList[..n])
      case Err(e) => Err(e)
      case Ok(prefix) =>
        match Normalised(jsonList[n])
        case Err(e) => Err(e)
        case Ok(listings) => Ok(prefix + [listings])
  }

  /**
   * The map throws exactly when some response throws, and it throws the error
   * of the first response that does.
   */
  lemma {:induction false} NormaliseAllFails(jsonList: seq<Option<Payload>>)
    ensures NormaliseAll(jsonList).Err? <==> exists i :: 0 <= i < |jsonList| && Normalised(jsonList[i]).Err?
    ensures NormaliseAll(jsonList).Err? ==>
      exists i :: 0 <= i < |jsonList| && Normalised(jsonList[i]) == Err(NormaliseAll(jsonList).error) &&
        forall j :: 0 <= j < i ==> Normalised(jsonList[j]).Ok?
  {
    if |jsonList| > 0 {
      var n := |jsonList| - 1;
      var init := jsonList[..n];
      NormaliseAllFails(init);
      assert forall i :: 0 <= i < n ==> init[i] == jsonList[i];
    }
  }

  /**
   * Worked example: one brand whose one sub-category holds two listings
   * normalises to those two listings, in key order; a second sub-category
   * beside the first would be dropped.
   */
  lemma NormaliseExample(l1: Listing, l2: Listing, sibling: SubCategory)
    ensures var cat := SubCategory([("id1", l1), ("id2", l2)]);
      && Normalised(Some(Payload(Some([("brandA", BrandNode([("catX", cat)]))])))) == Ok([l1, l2])
      && Normalised(Some(Payload(Some([("brandA", BrandNode([("catX", cat), ("catY", sibling)]))])))) == Ok([l1, l2])
  {
    var cat := SubCategory([("id1", l1), ("id2", l2)]);
    var one: Object<BrandNode> := [("brandA", BrandNode([("catX", cat)]))];
    var two: Object<BrandNode> := [("brandA", BrandNode([("catX", cat), ("catY", sibling)]))];
    assert Values(cat.items) == [l1, l2];
    assert one[..0] == [] && two[..0] == [];
    assert Flatten(one) == Ok([] + [l1, l2]);
    assert Flatten(two) == Ok([] + [l1, l2]);
    assert [] + [l1, l2] == [l1, l2];
  }
}

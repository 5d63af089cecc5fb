/**
 * The fixed brand/model catalogue and `carsList`/`options`, which turn it
 * into the request records sent for one region.
 */
module Catalogue {
  import opened Common

  /** One catalogue entry: the fields of a request body. */
  datatype ModelSpec = ModelSpec(distance: Option<int>, slug: string, brandId: string)

  /** A catalogue entry spread into a new object together with `regions`. */
  datatype Request = Request(distance: Option<int>, slug: string, brandId: string, regions: int)

  /** Brand to (model key to entry). */
  type Catalogue = Object<Object<ModelSpec>>

  const Volkswagen: Object<ModelSpec> := [
    ("polo", ModelSpec(Some(0), "volkswagen/polo/sedan", "volkswagen")),
    ("golf", ModelSpec(Some(0), "volkswagen/golf/hatchback", "volkswagen"))]

  const Skoda: Object<ModelSpec> := [
    ("rapid", ModelSpec(Some(0), "skoda/rapid/liftback", "skoda")),
    ("octavia", ModelSpec(Some(0), "skoda/octavia/liftback", "skoda")),
    ("kodiaq", ModelSpec(Some(0), "skoda/kodiaq/suv", "skoda"))]

  const Audi: Object<ModelSpec> := [
    ("a3", ModelSpec(Some(0), "audi/a3/sedan", "audi")),
    ("a4", ModelSpec(None, "audi/a4/sedan", "audi"))]

  const Bmw: Object<ModelSpec> := [
    ("thirdGt", ModelSpec(None, "bmw/3gt/hatchback", "bmw")),
    ("third", ModelSpec(None, "bmw/3/sedan", "bmw")),
    ("x1New", ModelSpec(None, "bmw/x1_generation/suv", "bmw")),
    ("x1", ModelSpec(None, "bmw/x1/suv", "bmw")),
    ("x3", ModelSpec(None, "bmw/x3/suv", "bmw"))]

  /** The `cars` object. */
  const Cars: Catalogue := [("volkswagen", Volkswagen), ("skoda", Skoda), ("audi", Audi), ("bmw", Bmw)]

  /** `regionsData.msk.id` and `regionsData.spb.id`. */
  const MskId: int := 3
  const SpbId: int := 10

  /** `{...entry, regions: regionId}` for every entry, in key order. */
  function Tagged(models: Object<ModelSpec>, regionId: int): seq<Request>
  {
    seq(|models|, i requires 0 <= i < |models| =>
      Request(models[i].1.distance, models[i].1.slug, models[i].1.brandId, regionId))
  }

  /** `cars[b]` destructured and spread: a missing brand spreads as nothing. */
  function BrandModels(cat: Catalogue, b: string): Object<ModelSpec>
  {
    match Get(cat, b)
    case None => []
    case Some(models) => models
  }

  /** `defaultList = {...volkswagen, ...audi, ...bmw, ...skoda}`. */
  function DefaultList(cat: Catalogue): (r: Object<ModelSpec>)
    ensures forall k :: k in Keys(r) <==>
      || k in Keys(BrandModels(cat, "volkswagen")) || k in Keys(BrandModels(cat, "audi"))
      || k in Keys(BrandModels(cat, "bmw")) || k in Keys(BrandModels(cat, "skoda"))
  {
    Spread(Spread(Spread(Spread([], BrandModels(cat, "volkswagen")), BrandModels(cat, "audi")),
      BrandModels(cat, "bmw")), BrandModels(cat, "skoda"))
  }

  /**
   * `carsList(regionId, brand)`: `None` for no brand (or the falsy empty
   * string). The result is `None` where the source logs "No brand provided
   * in store!" and returns undefined.
   */
  function CarsList(cat: Catalogue, regionId: int, brand: Option<string>): (r: Option<seq<Request>>)
    ensures brand.Some? && brand.value != "" ==> (r.None? <==> brand.value !in Keys(cat))
    ensures brand.None? || brand.value == "" ==> r.Some? && |r.value| == |DefaultList(cat)|
    ensures r.Some? ==> forall q :: q in r.value ==> q.regions == regionId
  {
    if brand.Some? && brand.value != "" then
      match Get(cat, brand.value)
      case None => None
      case Some(models) => Some(Tagged(models, regionId))
    else Some(Tagged(DefaultList(cat), regionId))
  }

  /**
   * `options(brand)`: the same request list for both regions, tagged with
   * the Moscow and the Saint Petersburg id.
   */
  function Options(cat: Catalogue, brand: Option<string>): (r: (Option<seq<Request>>, Option<seq<Request>>))
    ensures r.0.None? <==> r.1.None?
    ensures r.0.Some? ==>
      && |r.0.value| == |r.1.value|
      && forall i :: 0 <= i < |r.0.value| ==>
           && r.0.value[i].regions == MskId
           && r.1.value[i].regions == SpbId
           && r.0.value[i].slug == r.1.value[i].slug
           && r.0.value[i].brandId == r.1.value[i].brandId
           && r.0.value[i].distance == r.1.value[i].distance
  {
    (CarsList(cat, MskId, brand), CarsList(cat, SpbId, brand))
  }

  /** A known brand gives one request per model of that brand, in catalogue order. */
  lemma KnownBrand(cat: Catalogue, regionId: int, b: string, models: Object<ModelSpec>)
    requires DistinctKeys(cat) && (b, models) in cat && b != ""
    ensures CarsList(cat, regionId, Some(b)).Some?
    ensures var r := CarsList(cat, regionId, Some(b)).value;
      && |r| == |models|
      && forall i :: 0 <= i < |models| ==>
           r[i] == Request(models[i].1.distance, models[i].1.slug, models[i].1.brandId, regionId)
  {
    GetDistinct(cat, b, models);
  }

  /**
   * When the four brands share no model key, the default list is their
   * models one brand after another: volkswagen, audi, bmw, skoda.
   */
  lemma {:induction false} DefaultListIsConcat(cat: Catalogue)
    requires DistinctKeys(BrandModels(cat, "volkswagen") + BrandModels(cat, "audi") +
      BrandModels(cat, "bmw") + BrandModels(cat, "skoda"))
    ensures DefaultList(cat) == BrandModels(cat, "volkswagen") + BrandModels(cat, "audi") +
      BrandModels(cat, "bmw") + BrandModels(cat, "skoda")
  {
    var v, a, b, s := BrandModels(cat, "volkswagen"), BrandModels(cat, "audi"),
      BrandModels(cat, "bmw"), BrandModels(cat, "skoda");
    assert DistinctKeys(v + a + b) by {
      DistinctSplit(v + a + b, s);
    }
    assert DistinctKeys(v + a) by {
      DistinctSplit(v + a, b);
    }
    assert DistinctKeys([] + v) by {
      DistinctSplit(v, a);
      assert [] + v == v;
    }
    SpreadAppends([], v);
    assert [] + v == v;
    SpreadAppends(v, a);
    SpreadAppends(v + a, b);
    SpreadAppends(v + a + b, s);
  }

  /** The four brands of the shipped catalogue, as `carsList` destructures them. */
  lemma CarsBrands()
    ensures BrandModels(Cars, "volkswagen") == Volkswagen && BrandModels(Cars, "audi") == Audi
    ensures BrandModels(Cars, "bmw") == Bmw && BrandModels(Cars, "skoda") == Skoda
  {
    assert DistinctKeys(Cars);
    assert Cars[0] == ("volkswagen", Volkswagen) && Cars[1] == ("skoda", Skoda);
    assert Cars[2] == ("audi", Audi) && Cars[3] == ("bmw", Bmw);
    GetDistinct(Cars, "volkswagen", Volkswagen);
    GetDistinct(Cars, "audi", Audi);
    GetDistinct(Cars, "bmw", Bmw);
    GetDistinct(Cars, "skoda", Skoda);
  }

  /** Within each brand of the shipped catalogue the model keys differ. */
  lemma BrandKeysDistinct()
    ensures DistinctKeys(Volkswagen) && DistinctKeys(Audi) && DistinctKeys(Bmw) && DistinctKeys(Skoda)
  {
  }

  lemma AudiKeysApart()
    ensures NoneOfKeys(Audi, Volkswagen)
  {
    assert Keys(Volkswagen) == ["polo", "golf"];
  }

  lemma BmwKeysApart()
    ensures NoneOfKeys(Bmw, Volkswagen + Audi)
  {
    assert Keys(Volkswagen + Audi) == ["polo", "golf", "a3", "a4"];
  }

  lemma SkodaKeysApart()
    ensures NoneOfKeys(Skoda, Volkswagen + Audi + Bmw)
  {
    assert Keys(Volkswagen + Audi + Bmw) == ["polo", "golf", "a3", "a4", "thirdGt", "third", "x1New", "x1", "x3"];
  }

  /** The twelve model keys of the shipped catalogue are pairwise different. */
  lemma DefaultKeysDistinct()
    ensures DistinctKeys(Volkswagen + Audi + Bmw + Skoda)
  {
    BrandKeysDistinct();
    AudiKeysApart();
    BmwKeysApart();
    SkodaKeysApart();
    DistinctJoin(Volkswagen, Audi);
    DistinctJoin(Volkswagen + Audi, Bmw);
    DistinctJoin(Volkswagen + Audi + Bmw, Skoda);
  }

  /**
   * With no brand, `carsList` on the shipped catalogue asks for every model
   * of volkswagen, audi, bmw and skoda, in that order: twelve requests.
   */
  lemma DefaultCars(regionId: int)
    ensures CarsList(Cars, regionId, None) == Some(Tagged(Volkswagen + Audi + Bmw + Skoda, regionId))
    ensures |CarsList(Cars, regionId, None).value| == 12
  {
    CarsBrands();
    DefaultKeysDistinct();
    DefaultListIsConcat(Cars);
  }
}

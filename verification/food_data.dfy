/** The pure part of fetching FoodData Central data: the property dictionary built
    once in `main`, the remaining-request budget, and the filtering and renaming of
    the fetched nutrients inside `get_food_data`. */
module FoodData {
  import opened Wrappers
  import opened TandoorModels
  import opened UsdaModels

  /** FDC nutrient id to Tandoor property name. */
  type Dictionary = map<int, string>

  /** No later property in `props` has the same FDC id as `props[i]`. */
  predicate LastWithId(props: seq<InternalProperty>, i: int)
    requires 0 <= i < |props|
  {
    forall j :: i < j < |props| ==> props[j].fdcId != props[i].fdcId
  }

  /** `collect` of `(fdc_id, name)` pairs into a `HashMap`: a later duplicate id overwrites an earlier one. */
  function BuildDictionary(props: seq<InternalProperty>): (d: Dictionary)
    ensures d.Keys == set p | p in props :: p.fdcId
    ensures forall i :: 0 <= i < |props| && LastWithId(props, i) ==> d[props[i].fdcId] == props[i].name
  {
    if |props| == 0 then map[]
    else
      var init := props[..|props| - 1];
      var last := props[|props| - 1];
      assert forall i :: 0 <= i < |init| ==> init[i] == props[i];
      assert props == init + [last];
      BuildDictionary(init)[last.fdcId := last.name]
  }

  /** With pairwise distinct ids every property maps its id to its own name. */
  lemma DistinctIdsKeepEveryName(props: seq<InternalProperty>)
    requires forall i, j :: 0 <= i < j < |props| ==> props[i].fdcId != props[j].fdcId
    ensures forall i :: 0 <= i < |props| ==> BuildDictionary(props)[props[i].fdcId] == props[i].name
  {
    forall i | 0 <= i < |props|
      ensures LastWithId(props, i)
    {
    }
  }

  /** `X-RateLimit-Remaining`, already read as a number; a missing header counts as no requests left. */
  function RequestsLeft(header: Option<int>): (n: int)
    ensures header.None? ==> n == 0
    ensures header.Some? ==> n == header.value
  {
    header.GetOr(0)
  }

  /** The nutrient is one the Tandoor instance tracks as a property. */
  predicate Tracked(n: Nutrient, dict: Dictionary) {
    n.info.id in dict
  }

  /** `retain` of the tracked nutrients. */
  function KeepTracked(ns: seq<Nutrient>, dict: Dictionary): (kept: seq<Nutrient>)
    ensures |kept| <= |ns|
    ensures forall n :: n in kept <==> n in ns && Tracked(n, dict)
  {
    if |ns| == 0 then []
    else if Tracked(ns[0], dict) then [ns[0]] + KeepTracked(ns[1..], dict)
    else KeepTracked(ns[1..], dict)
  }

  /** Filtering a concatenation filters each part: kept nutrients keep their relative order. */
  lemma {:induction false} KeepTrackedAppend(a: seq<Nutrient>, b: seq<Nutrient>, dict: Dictionary)
    ensures KeepTracked(a + b, dict) == KeepTracked(a, dict) + KeepTracked(b, dict)
  {
    if |a| == 0 {
      assert a + b == b;
    } else {
      assert (a + b)[1..] == a[1..] + b;
      KeepTrackedAppend(a[1..], b, dict);
    }
  }

  /** A list of tracked nutrients passes the filter unchanged. */
  lemma {:induction false} KeepTrackedAllTracked(ns: seq<Nutrient>, dict: Dictionary)
    requires forall i :: 0 <= i < |ns| ==> Tracked(ns[i], dict)
    ensures KeepTracked(ns, dict) == ns
  {
    if |ns| > 0 {
      KeepTrackedAllTracked(ns[1..], dict);
    }
  }

  /** The loop over `&mut food_nutrients`: a tracked nutrient takes its Tandoor name, the rest are untouched. */
  function RenameTracked(ns: seq<Nutrient>, dict: Dictionary): (r: seq<Nutrient>)
    ensures |r| == |ns|
    ensures forall i :: 0 <= i < |ns| ==> r[i].amount == ns[i].amount && r[i].info.id == ns[i].info.id
    ensures forall i :: 0 <= i < |ns| && Tracked(ns[i], dict) ==> r[i].info.name == dict[ns[i].info.id]
    ensures forall i :: 0 <= i < |ns| && !Tracked(ns[i], dict) ==> r[i] == ns[i]
  {
    if |ns| == 0 then []
    else
      var n := ns[0];
      var head := if Tracked(n, dict) then n.(info := n.info.(name := dict[n.info.id])) else n;
      [head] + RenameTracked(ns[1..], dict)
  }

  /** Renaming twice renames once. */
  lemma RenameTrackedIdempotent(ns: seq<Nutrient>, dict: Dictionary)
    ensures RenameTracked(RenameTracked(ns, dict), dict) == RenameTracked(ns, dict)
  {
  }

  /** The nutrient list `get_food_data` returns: tracked nutrients only, each under its Tandoor name. */
  function TrackedNutrients(ns: seq<Nutrient>, dict: Dictionary): (r: seq<Nutrient>)
    ensures |r| <= |ns|
    ensures forall i :: 0 <= i < |r| ==> Tracked(r[i], dict) && r[i].info.name == dict[r[i].info.id]
    ensures forall n :: n in ns && Tracked(n, dict) ==> n.(info := n.info.(name := dict[n.info.id])) in r
    ensures forall i :: 0 <= i < |r| ==>
      exists n :: n in ns && Tracked(n, dict) && r[i] == n.(info := n.info.(name := dict[n.info.id]))
  {
    var kept := KeepTracked(ns, dict);
    var r := RenameTracked(kept, dict);
    assert forall n :: n in kept ==> Tracked(n, dict);
    forall n | n in ns && Tracked(n, dict)
      ensures n.(info := n.info.(name := dict[n.info.id])) in r
    {
      var i :| 0 <= i < |kept| && kept[i] == n;
      assert r[i] == n.(info := n.info.(name := dict[n.info.id]));
    }
    forall i | 0 <= i < |r|
      ensures exists n :: n in ns && Tracked(n, dict) && r[i] == n.(info := n.info.(name := dict[n.info.id]))
    {
      var n := kept[i];
      assert n in kept;
      assert r[i] == n.(info := n.info.(name := dict[n.info.id]));
    }
    r
  }

  /** What the FoodData Central request produced, once the transport is abstracted away. */
  datatype LookupResponse =
    | LookupFailed                                          // send, status or body decoding failed
    | LookupOk(rateLimitRemaining: Option<int>, food: UsdaFood)

  /** `get_food_data` after its HTTP call. */
  function GetFoodData(response: LookupResponse, dict: Dictionary): (r: Result<UsdaApiResponse, ()>)
    ensures r.Success? <==> response.LookupOk?
    ensures r.Success? ==> r.value.requestsLeft == RequestsLeft(response.rateLimitRemaining)
    ensures r.Success? ==> r.value.food.fdcId == response.food.fdcId
    ensures r.Success? ==> r.value.food.nutrients == TrackedNutrients(response.food.nutrients, dict)
  {
    match response
    case LookupFailed => Failure(())
    case LookupOk(header, food) =>
      Success(UsdaApiResponse(RequestsLeft(header), food.(nutrients := TrackedNutrients(food.nutrients, dict))))
  }
}

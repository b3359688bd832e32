/** The importer proper: building the food to push (`create_updated_food`), the
    fate of one food in `main`'s loop, the counters of the whole loop, and the run
    as `main` sequences it. Network answers are inputs: `net(i)` is what the
    FoodData Central lookup and the Tandoor update return for the i-th food. */
module Importer {
  import opened Wrappers
  import opened TandoorModels
  import opened UsdaModels
  import opened Conversions
  import opened FdcId
  import opened FoodData
  import opened Pagination
  import opened Endpoints

  /** Fewer requests left than this and the loop sleeps after the update. */
  const ThrottleThreshold := 20
  /** How long it sleeps, in seconds. */
  const ThrottleSeconds := 60

  predicate ShouldThrottle(requestsLeft: int) {
    requestsLeft < ThrottleThreshold
  }

  /** The loop sleeps for a budget of 19 but not of 20, and a smaller budget never sleeps less. */
  lemma ThrottleBoundary(fewer: int, more: int)
    requires fewer <= more
    ensures ShouldThrottle(19) && !ShouldThrottle(20) && ShouldThrottle(0)
    ensures ShouldThrottle(more) ==> ShouldThrottle(fewer)
  {
  }

  /** `create_updated_food`: the food converted for the api, its properties replaced by
      one per fetched nutrient. `fromNutrient` is `ApiTandoorFoodProperty::from(&USDANutrient)`. */
  function CreateUpdatedFood(food: InternalFood, usda: UsdaFood, formatAmount: Amount -> string,
                             fromNutrient: Nutrient -> ApiFoodProperty): (r: Result<(int, ApiFood), ()>)
    ensures r.Success?
    ensures r.value.0 == food.id
    ensures var f := r.value.1;
      f.id == food.id && f.name == food.name && f.fdcId == food.fdcId && f.url == food.url
    ensures |r.value.1.properties| == |usda.nutrients|
    ensures forall i :: 0 <= i < |usda.nutrients| ==> r.value.1.properties[i] == fromNutrient(usda.nutrients[i])
  {
    var converted := ApiFoodFromBorrowed(food, formatAmount);
    var cleared := converted.(properties := []);
    var added := seq(|usda.nutrients|, i requires 0 <= i < |usda.nutrients| => fromNutrient(usda.nutrients[i]));
    Success((food.id, cleared.(properties := cleared.properties + added)))
  }

  /** None of the food's old properties survive: foods that differ only in their properties
      give the same update, whatever the amount formatting. */
  lemma CreateUpdatedFoodDiscardsOldProperties(food: InternalFood, ps: seq<InternalFoodProperty>, usda: UsdaFood,
                                                formatAmount: Amount -> string, otherFormat: Amount -> string,
                                                fromNutrient: Nutrient -> ApiFoodProperty)
    ensures CreateUpdatedFood(food, usda, formatAmount, fromNutrient)
         == CreateUpdatedFood(food.(properties := ps), usda, otherFormat, fromNutrient)
  {
  }

  /** Why a food with an FDC id was not updated. */
  datatype Reason = LookupError | BuildError | PushError

  /** The three counters of `main`'s loop, one per terminal outcome. */
  datatype Outcome = NoFdcId | NotUpdated(reason: Reason) | Updated

  /** The external effects of processing one food, in order. */
  datatype Action = Lookup(fdcId: int) | Push(foodId: int, food: ApiFood) | Sleep(seconds: int)

  datatype FoodReport = FoodReport(outcome: Outcome, actions: seq<Action>)

  /** What the network answers for one food: the FoodData Central lookup and whether the PATCH succeeds. */
  datatype FoodNetwork = FoodNetwork(lookup: LookupResponse, pushSucceeds: bool)

  /** One iteration of `main`'s loop. */
  function ProcessFood(food: InternalFood, dict: Dictionary, net: FoodNetwork, formatAmount: Amount -> string,
                       fromNutrient: Nutrient -> ApiFoodProperty): (rep: FoodReport)
    ensures rep.outcome.NoFdcId? <==> GetFdcId(food).None?
    ensures rep.outcome.NoFdcId? ==> rep.actions == []
    ensures rep.outcome.Updated? <==> GetFdcId(food).Some? && net.lookup.LookupOk? && net.pushSucceeds
    ensures rep.outcome.NotUpdated? ==> rep.outcome.reason != BuildError
    ensures GetFdcId(food).Some? && net.lookup.LookupFailed? ==>
      rep == FoodReport(NotUpdated(LookupError), [Lookup(GetFdcId(food).value)])
    ensures GetFdcId(food).Some? && net.lookup.LookupOk? ==>
      |rep.actions| >= 2 &&
      rep.actions[1] == Push(food.id, CreateUpdatedFood(food, GetFoodData(net.lookup, dict).value.food,
                                                        formatAmount, fromNutrient).value.1)
    ensures GetFdcId(food).Some? && net.lookup.LookupOk? && !net.pushSucceeds ==>
      rep.outcome == NotUpdated(PushError) && |rep.actions| == 2
    ensures GetFdcId(food).Some? ==> |rep.actions| > 0 && rep.actions[0] == Lookup(GetFdcId(food).value)
    ensures forall k :: 0 <= k < |rep.actions| && rep.actions[k].Push? ==>
      k == 1 && rep.actions[k].foodId == food.id && rep.actions[k].food.id == food.id
    ensures forall k :: 0 <= k < |rep.actions| && rep.actions[k].Sleep? ==>
      && rep.outcome.Updated?
      && k == |rep.actions| - 1
      && rep.actions[k].seconds == ThrottleSeconds
      && ShouldThrottle(RequestsLeft(net.lookup.rateLimitRemaining))
    ensures rep.outcome.Updated? && ShouldThrottle(RequestsLeft(net.lookup.rateLimitRemaining)) ==>
      |rep.actions| == 3 && rep.actions[2] == Sleep(ThrottleSeconds)
    ensures rep.outcome.Updated? && !ShouldThrottle(RequestsLeft(net.lookup.rateLimitRemaining)) ==>
      |rep.actions| == 2
  {
    match GetFdcId(food)
    case None => FoodReport(NoFdcId, [])
    case Some(id) =>
      var data := GetFoodData(net.lookup, dict);
      if data.Failure? then FoodReport(NotUpdated(LookupError), [Lookup(id)])
      else
        var built := CreateUpdatedFood(food, data.value.food, formatAmount, fromNutrient);
        if built.Failure? then FoodReport(NotUpdated(BuildError), [Lookup(id)])
        else
          var pushed := [Lookup(id), Push(built.value.0, built.value.1)];
          if !net.pushSucceeds then FoodReport(NotUpdated(PushError), pushed)
          else if ShouldThrottle(data.value.requestsLeft) then FoodReport(Updated, pushed + [Sleep(ThrottleSeconds)])
          else FoodReport(Updated, pushed)
  }

  /** The food pushed carries one property per tracked nutrient, each renamed to its Tandoor name. */
  lemma PushedFoodHasTrackedNutrients(food: InternalFood, dict: Dictionary, net: FoodNetwork,
                                      formatAmount: Amount -> string, fromNutrient: Nutrient -> ApiFoodProperty)
    requires GetFdcId(food).Some? && net.lookup.LookupOk?
    ensures var rep := ProcessFood(food, dict, net, formatAmount, fromNutrient);
      var tracked := TrackedNutrients(net.lookup.food.nutrients, dict);
      && |rep.actions| >= 2
      && rep.actions[1].Push?
      && |rep.actions[1].food.properties| == |tracked|
      && (forall i :: 0 <= i < |tracked| ==> rep.actions[1].food.properties[i] == fromNutrient(tracked[i]))
      && (forall i :: 0 <= i < |tracked| ==> tracked[i].info.id in dict && tracked[i].info.name == dict[tracked[i].info.id])
  {
  }

  /** A missing `X-RateLimit-Remaining` header means a sleep after every successful update. */
  lemma MissingHeaderThrottles(food: InternalFood, dict: Dictionary, usda: UsdaFood,
                               formatAmount: Amount -> string, fromNutrient: Nutrient -> ApiFoodProperty)
    requires GetFdcId(food).Some?
    ensures var rep := ProcessFood(food, dict, FoodNetwork(LookupOk(None, usda), true), formatAmount, fromNutrient);
      rep.outcome.Updated? && rep.actions[|rep.actions| - 1] == Sleep(ThrottleSeconds)
  {
  }

  /** A failed update never sleeps, however low the budget. */
  lemma NoSleepWithoutUpdate(food: InternalFood, dict: Dictionary, net: FoodNetwork,
                             formatAmount: Amount -> string, fromNutrient: Nutrient -> ApiFoodProperty)
    requires !net.pushSucceeds
    ensures forall a :: a in ProcessFood(food, dict, net, formatAmount, fromNutrient).actions ==> !a.Sleep?
  {
  }

  datatype Counters = Counters(updated: nat, notUpdated: nat, noFdcId: nat)

  /** The counter increment of one iteration. */
  function Unit(o: Outcome): (c: Counters)
    ensures c.updated + c.notUpdated + c.noFdcId == 1
    ensures c.updated == 1 <==> o.Updated?
    ensures c.notUpdated == 1 <==> o.NotUpdated?
    ensures c.noFdcId == 1 <==> o.NoFdcId?
  {
    Counters(if o.Updated? then 1 else 0, if o.NotUpdated? then 1 else 0, if o.NoFdcId? then 1 else 0)
  }

  function Add(c: Counters, d: Counters): Counters {
    Counters(c.updated + d.updated, c.notUpdated + d.notUpdated, c.noFdcId + d.noFdcId)
  }

  /** The counters after a sequence of iterations. */
  function Tally(reports: seq<FoodReport>): Counters
  {
    if |reports| == 0 then Counters(0, 0, 0)
    else Add(Tally(reports[..|reports| - 1]), Unit(reports[|reports| - 1].outcome))
  }

  /** Every food is counted exactly once. */
  lemma {:induction false} TallyTotal(reports: seq<FoodReport>)
    ensures Tally(reports).updated + Tally(reports).notUpdated + Tally(reports).noFdcId == |reports|
  {
    if |reports| > 0 {
      TallyTotal(reports[..|reports| - 1]);
    }
  }

  /** One more iteration adds that food's increment. */
  lemma TallySnoc(reports: seq<FoodReport>, rep: FoodReport)
    ensures Tally(reports + [rep]) == Add(Tally(reports), Unit(rep.outcome))
  {
    assert (reports + [rep])[..|reports|] == reports;
  }

  /** Counting one more report of a list. */
  lemma TallyStep(reports: seq<FoodReport>, i: nat)
    requires i < |reports|
    ensures Tally(reports[..i + 1]) == Add(Tally(reports[..i]), Unit(reports[i].outcome))
  {
    assert reports[..i + 1] == reports[..i] + [reports[i]];
    TallySnoc(reports[..i], reports[i]);
  }

  /** The counters of two stretches of the loop add up: each food contributes on its own. */
  lemma {:induction false} TallyAppend(a: seq<FoodReport>, b: seq<FoodReport>)
    ensures Tally(a + b) == Add(Tally(a), Tally(b))
  {
    if |b| == 0 {
      assert a + b == a;
    } else {
      var n := |b| - 1;
      assert a + b == (a + b[..n]) + [b[n]];
      assert b == b[..n] + [b[n]];
      TallySnoc(a + b[..n], b[n]);
      TallySnoc(b[..n], b[n]);
      TallyAppend(a, b[..n]);
    }
  }

  /** Which of the three counters an outcome belongs to. */
  datatype Kind = UpdatedKind | NotUpdatedKind | NoFdcIdKind

  function KindOf(o: Outcome): Kind {
    match o
    case Updated => UpdatedKind
    case NotUpdated(_) => NotUpdatedKind
    case NoFdcId => NoFdcIdKind
  }

  function CounterOf(c: Counters, k: Kind): nat {
    match k
    case UpdatedKind => c.updated
    case NotUpdatedKind => c.notUpdated
    case NoFdcIdKind => c.noFdcId
  }

  /** Positions of the foods whose outcome is of kind `k`. */
  function PositionsOf(reports: seq<FoodReport>, k: Kind): set<nat> {
    set i: nat | i < |reports| && KindOf(reports[i].outcome) == k
  }

  lemma PositionsOfStep(reports: seq<FoodReport>, k: Kind)
    requires |reports| > 0
    ensures KindOf(reports[|reports| - 1].outcome) == k ==>
              PositionsOf(reports, k) == PositionsOf(reports[..|reports| - 1], k) + {|reports| - 1}
    ensures KindOf(reports[|reports| - 1].outcome) != k ==>
              PositionsOf(reports, k) == PositionsOf(reports[..|reports| - 1], k)
  {
  }

  lemma CardAddFresh(a: set<nat>, n: nat)
    requires n !in a
    ensures |a + {n}| == |a| + 1
  {
  }

  /** Each counter counts exactly the foods whose outcome is of its kind. */
  lemma {:induction false} TallyCountsKind(reports: seq<FoodReport>, k: Kind)
    ensures CounterOf(Tally(reports), k) == |PositionsOf(reports, k)|
  {
    if |reports| > 0 {
      var n := |reports| - 1;
      var before := PositionsOf(reports[..n], k);
      TallyCountsKind(reports[..n], k);
      PositionsOfStep(reports, k);
      if KindOf(reports[n].outcome) == k {
        assert n !in before;
        CardAddFresh(before, n);
      }
    }
  }

  /** `updated_foods`, `not_updated_foods` and `no_fdc_id` count exactly the foods with that outcome. */
  lemma TallyCountsEach(reports: seq<FoodReport>)
    ensures Tally(reports).updated == |PositionsOf(reports, UpdatedKind)|
    ensures Tally(reports).notUpdated == |PositionsOf(reports, NotUpdatedKind)|
    ensures Tally(reports).noFdcId == |PositionsOf(reports, NoFdcIdKind)|
  {
    TallyCountsKind(reports, UpdatedKind);
    TallyCountsKind(reports, NotUpdatedKind);
    TallyCountsKind(reports, NoFdcIdKind);
  }

  /** The body of `main`'s loop applied to every food in turn. */
  method ProcessAll(foods: seq<InternalFood>, dict: Dictionary, net: nat -> FoodNetwork,
                    formatAmount: Amount -> string, fromNutrient: Nutrient -> ApiFoodProperty)
    returns (reports: seq<FoodReport>)
    ensures |reports| == |foods|
    ensures forall i :: 0 <= i < |foods| ==> reports[i] == ProcessFood(foods[i], dict, net(i), formatAmount, fromNutrient)
  {
    reports := seq(|foods|, i requires 0 <= i < |foods| => ProcessFood(foods[i], dict, net(i), formatAmount, fromNutrient));
  }

  /** The three counters of `main`'s loop: `no_fdc_id`, `not_updated_foods`, `updated_foods`. */
  method CountOutcomes(reports: seq<FoodReport>) returns (c: Counters)
    ensures c == Tally(reports)
    ensures c.updated + c.notUpdated + c.noFdcId == |reports|
    ensures c.updated == |PositionsOf(reports, UpdatedKind)|
    ensures c.notUpdated == |PositionsOf(reports, NotUpdatedKind)|
    ensures c.noFdcId == |PositionsOf(reports, NoFdcIdKind)|
  {
    c := Counters(0, 0, 0);
    var i := 0;
    while i < |reports|
      invariant i <= |reports|
      invariant c == Tally(reports[..i])
    {
      var rep := reports[i];
      c := Add(c, Unit(rep.outcome));
      TallyStep(reports, i);
      i := i + 1;
    }
    assert reports[..i] == reports;
    TallyTotal(reports);
    TallyCountsEach(reports);
  }

  /** `main`'s loop over the foods with its three counters. */
  method ImportFoods(foods: seq<InternalFood>, dict: Dictionary, net: nat -> FoodNetwork,
                     formatAmount: Amount -> string, fromNutrient: Nutrient -> ApiFoodProperty)
    returns (c: Counters, reports: seq<FoodReport>)
    ensures |reports| == |foods|
    ensures forall i :: 0 <= i < |foods| ==> reports[i] == ProcessFood(foods[i], dict, net(i), formatAmount, fromNutrient)
    ensures c == Tally(reports)
    ensures c.updated + c.notUpdated + c.noFdcId == |foods|
  {
    reports := ProcessAll(foods, dict, net, formatAmount, fromNutrient);
    c := CountOutcomes(reports);
  }

  /** The property dictionary `main` works with: a failed fetch is only logged and leaves it empty. */
  function DictionaryOf(properties: Result<seq<InternalProperty>, ()>): (d: Dictionary)
    ensures properties.Failure? ==> d == map[]
    ensures properties.Success? ==> d.Keys == set p | p in properties.value :: p.fdcId
    ensures properties.Success? ==> d == BuildDictionary(properties.value)
  {
    match properties
    case Success(ps) => BuildDictionary(ps)
    case Failure(_) => map[]
  }

  datatype RunResult =
    | CountPanic(expected: int, received: int)                  // the `panic!` of `get_foods`
    | PropertiesUnavailable                                      // only the guarded run ends this way
    | Completed(counters: Counters, reports: seq<FoodReport>)

  /** The foods the loop sees: a non-panicking `get_foods` error is only logged and leaves the list empty. */
  function FoodsSeen(pages: seq<PageResponse>): seq<InternalFood>
    requires Terminates(pages)
  {
    if FoodsOutcome(pages).Success? then FoodsOutcome(pages).value else []
  }

  /** `main` as written, from the property fetch to the final counters. */
  method RunImport(host: string, properties: Result<seq<InternalProperty>, ()>, pages: seq<PageResponse>,
                   net: nat -> FoodNetwork, formatAmount: Amount -> string, fromNutrient: Nutrient -> ApiFoodProperty)
    returns (run: RunResult)
    requires Terminates(pages)
    ensures run.CountPanic? <==> FoodsOutcome(pages).Failure? && FoodsOutcome(pages).error.CountMismatch?
    ensures !run.PropertiesUnavailable?
    ensures run.Completed? ==>
      && |run.reports| == |FoodsSeen(pages)|
      && (forall i :: 0 <= i < |run.reports| ==>
            run.reports[i] == ProcessFood(FoodsSeen(pages)[i], DictionaryOf(properties), net(i), formatAmount, fromNutrient))
      && run.counters.updated + run.counters.notUpdated + run.counters.noFdcId == |run.reports|
      && run.counters.updated <= I32Max && run.counters.notUpdated <= I32Max && run.counters.noFdcId <= I32Max
    ensures run.Completed? ==> run.counters == Tally(run.reports)
  {
    var dict := DictionaryOf(properties);
    var fetched, _ := GetFoods(ApiBaseUrl(host) + "food/", pages);
    if fetched.Failure? && fetched.error.CountMismatch? {
      return CountPanic(fetched.error.expected, fetched.error.received);
    }
    var foods := if fetched.Success? then fetched.value else [];
    if fetched.Success? {
      SuccessMeansCountMatches(pages);
    }
    var counters, reports := ImportFoods(foods, dict, net, formatAmount, fromNutrient);
    run := Completed(counters, reports);
  }

  /** With an empty dictionary every update that goes through wipes the food's properties. */
  lemma FailedPropertyFetchWipesProperties(properties: Result<seq<InternalProperty>, ()>, food: InternalFood,
                                           net: FoodNetwork, formatAmount: Amount -> string,
                                           fromNutrient: Nutrient -> ApiFoodProperty)
    requires properties.Failure?
    requires GetFdcId(food).Some? && net.lookup.LookupOk? && net.pushSucceeds
    ensures var rep := ProcessFood(food, DictionaryOf(properties), net, formatAmount, fromNutrient);
      rep.outcome.Updated? && rep.actions[1].Push? && rep.actions[1].food.properties == []
  {
    PushedFoodHasTrackedNutrients(food, DictionaryOf(properties), net, formatAmount, fromNutrient);
  }

  /** `main` with the property fetch treated as fatal: no food is touched unless the property types arrived. */
  method RunImportGuarded(host: string, properties: Result<seq<InternalProperty>, ()>, pages: seq<PageResponse>,
                          net: nat -> FoodNetwork, formatAmount: Amount -> string, fromNutrient: Nutrient -> ApiFoodProperty)
    returns (run: RunResult)
    requires Terminates(pages)
    ensures properties.Failure? <==> run.PropertiesUnavailable?
    ensures properties.Success? ==>
      (run.CountPanic? <==> FoodsOutcome(pages).Failure? && FoodsOutcome(pages).error.CountMismatch?)
    ensures run.Completed? ==>
      && properties.Success?
      && |run.reports| == |FoodsSeen(pages)|
      && (forall i :: 0 <= i < |run.reports| ==>
            run.reports[i] == ProcessFood(FoodsSeen(pages)[i], BuildDictionary(properties.value), net(i), formatAmount, fromNutrient))
      && run.counters.updated + run.counters.notUpdated + run.counters.noFdcId == |run.reports|
    ensures run.Completed? ==> run.counters == Tally(run.reports)
  {
    if properties.Failure? {
      return PropertiesUnavailable;
    }
    run := RunImport(host, properties, pages, net, formatAmount, fromNutrient);
  }

  const EggUrl := DetailsMarker + "12345" + NutrientsMarker

  /** The id of the worked example comes from its URL. */
  lemma EggUrlGivesId(egg: InternalFood)
    requires egg.url == Some(EggUrl)
    ensures GetFdcId(egg) == Some(12345)
  {
    assert EggUrl == "" + DetailsMarker + "12345" + NutrientsMarker + "" by {
      assert "" + DetailsMarker == DetailsMarker;
      assert EggUrl + "" == EggUrl;
    }
    UrlIdWinsOverField(egg, "", "12345", "");
    assert ParseDecimal("12345") == 12345 by {
      assert "1"[..0] == "";
      assert ParseDecimal("1") == 1;
      assert "12"[..1] == "1";
      assert ParseDecimal("12") == 12;
      assert "123"[..2] == "12";
      assert ParseDecimal("123") == 123;
      assert "1234"[..3] == "123";
      assert ParseDecimal("1234") == 1234;
      assert "12345"[..4] == "1234";
    }
  }

  /** Of the nutrients 203 and 999 only 203 is tracked, and it takes the Tandoor name. */
  lemma ProteinIsTheOnlyTracked(a: Amount, b: Amount)
    ensures TrackedNutrients([Nutrient(Some(a), NutrientInformation(203, "Protein, total")),
                              Nutrient(Some(b), NutrientInformation(999, "Other"))],
                             BuildDictionary([InternalProperty("Protein", 203)]))
         == [Nutrient(Some(a), NutrientInformation(203, "Protein"))]
  {
    var dict := BuildDictionary([InternalProperty("Protein", 203)]);
    assert dict == map[203 := "Protein"];
    var ns := [Nutrient(Some(a), NutrientInformation(203, "Protein, total")),
               Nutrient(Some(b), NutrientInformation(999, "Other"))];
    assert KeepTracked(ns, dict) == [ns[0]] by {
      assert ns[1..][1..] == [];
    }
  }

  /** The worked example: only the tracked nutrient 203 survives, renamed to "Protein", and the food is updated
      without a sleep, its id taken from the URL. */
  lemma ProteinExample(formatAmount: Amount -> string, fromNutrient: Nutrient -> ApiFoodProperty, a: Amount, b: Amount)
    ensures var dict := BuildDictionary([InternalProperty("Protein", 203)]);
      var egg := InternalFood(7, "Egg", None, [], Some(EggUrl));
      var usda := UsdaFood(12345, [Nutrient(Some(a), NutrientInformation(203, "Protein, total")),
                                   Nutrient(Some(b), NutrientInformation(999, "Other"))]);
      var rep := ProcessFood(egg, dict, FoodNetwork(LookupOk(Some(100), usda), true), formatAmount, fromNutrient);
      rep == FoodReport(Updated, [Lookup(12345), Push(7, ApiFood(7, "Egg", None,
               [fromNutrient(Nutrient(Some(a), NutrientInformation(203, "Protein")))], Some(EggUrl)))])
  {
    var dict := BuildDictionary([InternalProperty("Protein", 203)]);
    var egg := InternalFood(7, "Egg", None, [], Some(EggUrl));
    var usda := UsdaFood(12345, [Nutrient(Some(a), NutrientInformation(203, "Protein, total")),
                                 Nutrient(Some(b), NutrientInformation(999, "Other"))]);
    var protein := Nutrient(Some(a), NutrientInformation(203, "Protein"));
    EggUrlGivesId(egg);
    ProteinIsTheOnlyTracked(a, b);
    var data := GetFoodData(LookupOk(Some(100), usda), dict);
    assert data == Success(UsdaApiResponse(100, UsdaFood(12345, [protein])));
    var built := CreateUpdatedFood(egg, data.value.food, formatAmount, fromNutrient);
    var updated := built.value.1;
    assert updated.properties == [fromNutrient(protein)] by {
      assert |updated.properties| == 1 && updated.properties[0] == fromNutrient(protein);
    }
    assert updated == ApiFood(7, "Egg", None, [fromNutrient(protein)], Some(EggUrl));
  }
}

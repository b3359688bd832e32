# tandoor_importer in Dafny

A model of the core of `tandoor_importer`. The program copies nutrient data from the
USDA FoodData Central (FDC) database into a Tandoor recipe manager. It works in four steps:

1. It fetches the Tandoor property types and builds a dictionary from FDC nutrient id to the
   Tandoor property name.
2. It fetches every Tandoor food by following the `next` links of the paginated food listing.
   It then checks the total against the `count` the last page reports.
3. For each food it resolves the FDC id. An id found in the food's FDC URL wins over the
   `fdc_id` field. It then looks the food up at FDC and keeps only the nutrients the dictionary
   tracks, renamed to their Tandoor names. It replaces the food's properties with those
   nutrients and PATCHes the food back to Tandoor. After a successful update it sleeps 60
   seconds when fewer than 20 FDC requests are left.
4. Three counters record the outcome of every food.

The model also covers two parts of the data model:
- the `ApiEndpoints` table for the Tandoor API versions `v1` and `v2`;
- the `From`/`TryFrom` conversions between the internal and api food records.

Modules, one per source concern:

| file | module | covers |
|---|---|---|
| `wrappers.dfy` | `Wrappers` | `Option`, `Result` |
| `tandoor_models.dfy` | `TandoorModels` | the Tandoor records (`InternalTandoorFood`, `ApiTandoorFood`, …) |
| `usda_models.dfy` | `UsdaModels` | the FDC records (`USDAFood`, `USDANutrient`, …) |
| `conversions.dfy` | `Conversions` | the `From`/`TryFrom` implementations |
| `endpoints.dfy` | `Endpoints` | `ApiEndpoints` |
| `fdc_id.dfy` | `FdcId` | `get_fdc_id` and its regular expression |
| `food_data.dfy` | `FoodData` | the property dictionary, `X-RateLimit-Remaining`, the nutrient filter and rename |
| `pagination.dfy` | `Pagination` | `get_foods` |
| `importer.dfy` | `Importer` | `create_updated_food`, the per-food loop and its counters, `main` |

External inputs become parameters:
- **HTTP.** Each request's answer is an input. `get_foods` reads a sequence of page
  responses: the i-th request receives the i-th response. The per-food loop reads
  `net(i)`, which gives the FDC lookup answer and the PATCH result for the i-th food. The
  property-type fetch is a `Result`.
- **Unseen conversions.** `f32::to_string` and the conversions whose code is not part of this
  model are function parameters, so every property holds for every such function:
  - `ApiTandoorFoodProperty::from(&USDANutrient)`;
  - `InternalTandoorFoodProperty::try_from`.
- **`f32` amounts** are opaque bit patterns, and `0.0` is the all-zero pattern.
- **Effects** the loop would perform are listed as `Lookup`, `Push` and `Sleep` actions in
  each food's report.

Facts about the code that the model keeps:
- `main` never writes the id it used back into the food's `fdc_id`. The pushed food keeps its own
  `fdc_id` (`Importer.CreateUpdatedFood`).
- The `--override` and `--interactive` flags are declared
  (src/models/command_line_arguments.rs:10-15) but never read. The properties are always replaced,
  and a food without an id is never asked about.
- There is no check that skips foods that are already up to date, and there is no concurrency.
  The foods are processed one after another.
- `update_food` serialises the whole `ApiTandoorFood`: id, name, `fdc_id`, properties and url.

## Model

| member | source | states |
|---|---|---|
| Conversions.ToApiProperty | src/models/tandoor/api_tandoor_property.rs:11-15 | the api property type carries the name of the internal one |
| Conversions.ToApiPropertyForgetsFdcId | src/models/tandoor/api_tandoor_property.rs:11-15 | the api property type keeps only the name: two property types with the same name convert to the same value, whatever their FDC ids |
| Conversions.ToApiFoodProperty | src/models/tandoor/api_tandoor_food_property.rs:14-20 | the property type keeps its name; the amount is the formatted amount, and a missing amount is formatted as `0.0` |
| Conversions.MissingAmountIsZero | src/models/tandoor/api_tandoor_food_property.rs:17 | a property without an amount converts exactly like one whose amount is `0.0` |
| Conversions.ToApiProperties | src/models/tandoor/api_tandoor_food.rs:26-29 | the property list is converted element by element: same length, and position i holds the conversion of property i |
| Conversions.ApiFoodFromOwned | src/models/tandoor/api_tandoor_food.rs:20-33 | id, name, `fdc_id` and url are carried over unchanged, and every property is converted in place |
| Conversions.ApiFoodFromBorrowed | src/models/tandoor/api_tandoor_food.rs:35-47 | the same guarantees for the borrowing conversion, which clones each property |
| Conversions.OwnedAndBorrowedAgree | src/models/tandoor/api_tandoor_food.rs:20-48 | the owned and the borrowed conversion produce the same api food for every input |
| Conversions.ConvertibleProperties | src/models/tandoor/internal_tandoor_food.rs:27-31 | `filter_map` keeps a value exactly when some input property converts to it, and never yields more than it is given |
| Conversions.ConvertiblePropertiesAppend | src/models/tandoor/internal_tandoor_food.rs:27-31 | filtering a concatenation is the concatenation of the filtered parts, so successes keep their input order |
| Conversions.ConvertiblePropertiesSingle | src/models/tandoor/internal_tandoor_food.rs:29-30 | one property contributes its conversion when it has one and nothing otherwise |
| Conversions.ConvertiblePropertiesKeepsAll | src/models/tandoor/internal_tandoor_food.rs:27-31 | no property is lost if and only if every property converts |
| Conversions.TryFromApiFood | src/models/tandoor/internal_tandoor_food.rs:20-35 | the conversion never fails; it copies id, name, `fdc_id` and url; the result holds exactly the properties that convert |
| Endpoints.WithBaseUrl | src/models/tandoor/api_tandoor_endpoints.rs:14-35 | succeeds if and only if the version is `v1` or `v2`; on success the table holds exactly the keys `properties` and `food`, under the base URL `http://<host>/api/`, with `food-property-type/` for v1 and `property-type/` for v2; on failure the message ends with the rejected version |
| Endpoints.New | src/models/tandoor/api_tandoor_endpoints.rs:10-12 | behaves exactly as `with_base_url`, so it accepts exactly `v1` and `v2` |
| Endpoints.GetEndpointProperties | src/models/tandoor/api_tandoor_endpoints.rs:37-39 | returns the `properties` entry when present and panics (Failure) exactly when it is missing |
| Endpoints.GetEndpointFood | src/models/tandoor/api_tandoor_endpoints.rs:41-43 | returns the `food` entry when present and panics (Failure) exactly when it is missing |
| Endpoints.GetEndpoint | src/models/tandoor/api_tandoor_endpoints.rs:45-47 | finds a name exactly when the table holds it, and returns its entry |
| Endpoints.ConstructedTableIsComplete | src/models/tandoor/api_tandoor_endpoints.rs:14-51 | on a table built for a supported version neither getter panics, the food endpoint is `<base>food/`, and `get_endpoint` and `get_all_endpoints` know exactly the two names |
| Endpoints.ConstructedAccessors | src/models/tandoor/api_tandoor_endpoints.rs:30-59 | `get_version` returns the version as given and `get_base_url` returns the URL built from the host |
| Endpoints.MainUsesVersionOneEndpoints | src/models/tandoor/api_tandoor_endpoints.rs:19-22 | the v1 table holds the same property-type and food URLs that `main` builds by hand |
| FdcId.DigitRunLength | src/main.rs:300 | `\d+` consumes a maximal run of digits: each counted character is a digit, and the run ends at the end of the string or at a non-digit |
| FdcId.MatchesAtIsPattern | src/main.rs:300 | matching with the maximal digit run loses no match of the regular expression: after the marker, the pattern matches with k digits if and only if the hand matcher matches and k is the run length |
| FdcId.FirstMatch | src/main.rs:304 | `captures` uses the leftmost match: the result matches, no earlier position matches, and None means no position matches |
| FdcId.CapturedDigits | src/main.rs:305 | capture group 1 is a non-empty string of digits |
| FdcId.ParseDecimal | src/main.rs:305 | `parse` of the captured digits: a string of k digits gives a value below 10^k whose units digit is the last character; with `FdcId.ParseShowRoundTrip` it inverts decimal printing |
| FdcId.ParseShowRoundTrip | src/main.rs:305 | parsing the decimal digits of n gives n back |
| FdcId.LeadingZeroIgnored | src/main.rs:305 | a leading zero does not change the parsed id |
| FdcId.UrlFdcId | src/main.rs:300-307 | the URL yields an id if and only if the pattern matches somewhere in it, and the id is non-negative |
| FdcId.GetFdcId | src/main.rs:288-314 | a URL id wins over the `fdc_id` field; without a URL or a match the field is used; None if and only if neither gives an id |
| FdcId.UrlIdWinsOverField | src/main.rs:303-307 | a URL `…food-details/<ds>/nutrients…` with no earlier match yields the value of `ds`, whatever the field holds |
| FdcId.UrlOfIdYieldsId | src/main.rs:303-307 | a URL built from the digits of n yields n |
| FoodData.BuildDictionary | src/main.rs:59 | the keys are exactly the FDC ids of the property types, and each key maps to the name of the last property type with that id |
| FoodData.DistinctIdsKeepEveryName | src/main.rs:59 | when the ids are distinct, every property type maps its id to its own name |
| FoodData.RequestsLeft | src/main.rs:218-224 | a missing rate-limit header counts as zero requests left |
| FoodData.KeepTracked | src/main.rs:229 | `retain` keeps a nutrient if and only if it is in the input and its id is in the dictionary |
| FoodData.KeepTrackedAppend | src/main.rs:229 | filtering a concatenation filters each part, so kept nutrients keep their relative order |
| FoodData.KeepTrackedAllTracked | src/main.rs:229 | a list of tracked nutrients passes the filter unchanged |
| FoodData.RenameTracked | src/main.rs:232-236 | same length; amounts and ids are untouched; a tracked nutrient takes its Tandoor name and any other nutrient is left as is |
| FoodData.RenameTrackedIdempotent | src/main.rs:232-236 | renaming a second time changes nothing |
| FoodData.TrackedNutrients | src/main.rs:228-236 | every returned nutrient is the renamed copy of a tracked input nutrient, and every tracked input nutrient appears renamed |
| FoodData.GetFoodData | src/main.rs:207-244 | succeeds exactly when the lookup succeeds; the budget comes from the header (0 when missing) and the nutrients are the tracked, renamed ones |
| Pagination.LastRead | src/main.rs:170-188 | the loop stops at the first response that fails or has no `next` link |
| Pagination.CollectedLength | src/main.rs:180 | the foods collected number the sum of the page sizes |
| Pagination.GetFoods | src/main.rs:166-194 | the loop returns `FoodsOutcome`, the reference definition: a failed page gives a request error; otherwise all pages' results in order, checked against the last page's count (a mismatch is the panic) and against the i32 range. It requests the food endpoint first and then each `next` link |
| Pagination.SuccessMeansCountMatches | src/main.rs:190-193 | on success every read page arrived, the foods are their results in order, and there are exactly as many as the last page's count and at most `i32::MAX` |
| Pagination.CountDifferenceAlwaysPanics | src/main.rs:190-192 | when every page arrives, at most `i32::MAX` foods arrived, and the count differs from the number received, the run panics (above `i32::MAX` the conversion error is returned instead) |
| Pagination.ThreePageExample | src/main.rs:166-194 | pages of 2, 2 and 1 foods give all five foods when the count is 5, and panic with (6, 5) when it is 6 |
| Importer.CreateUpdatedFood | src/main.rs:252-260 | never fails; returns the food's id; copies name, `fdc_id` and url; the properties are exactly one conversion per fetched nutrient, in order |
| Importer.CreateUpdatedFoodDiscardsOldProperties | src/main.rs:253-255 | the food's old properties have no influence on the update |
| Importer.ProcessFood | src/main.rs:77-134 | no FDC id: counted as no-id with no network call; otherwise the first action is the FDC lookup. Updated if and only if the lookup and the push both succeed. A failed lookup stops the food after the lookup, as a lookup error; a failed push stops it after the push, as a push error. After a successful lookup the second action is always the push: it targets the food's id and carries the food `create_updated_food` builds from the filtered lookup. Building never fails. After an update a 60-second sleep is the last action if and only if fewer than 20 requests are left |
| Importer.PushedFoodHasTrackedNutrients | src/main.rs:90-116 | the pushed food holds one property per tracked nutrient, each under its Tandoor name |
| Importer.MissingHeaderThrottles | src/main.rs:218-224 | without a rate-limit header every successful update is followed by a sleep |
| Importer.ThrottleBoundary | src/main.rs:128-130 | the throttle rule `requests_left < 20`: a budget of 19 (or 0) sleeps, 20 does not, and a smaller budget never sleeps less than a larger one |
| Importer.NoSleepWithoutUpdate | src/main.rs:115-133 | a failed push never sleeps |
| Importer.Unit | src/main.rs:86-123 | each iteration increments exactly one counter: `updated_foods` for an update, `not_updated_foods` for a lookup, build or push failure, `no_fdc_id` for a food without an id |
| Importer.TallyTotal | src/main.rs:74-126 | every food is counted exactly once |
| Importer.TallyAppend | src/main.rs:74-126 | the counters of two stretches of the loop add up |
| Importer.TallyCountsKind | src/main.rs:74-126 | each counter equals the number of foods whose outcome is of that counter's kind |
| Importer.TallyCountsEach | src/main.rs:74-126 | `updated_foods`, `not_updated_foods` and `no_fdc_id` each equal the number of positions with an update, a failure, and no id |
| Importer.ProcessAll | src/main.rs:77-134 | the i-th report is the fate of the i-th food under the i-th network answer |
| Importer.CountOutcomes | src/main.rs:74-126 | the counters are the fold of the outcomes; they sum to the number of foods; each counter is the number of foods with its outcome |
| Importer.ImportFoods | src/main.rs:74-134 | the loop: one report per food, in order, and counters that are the fold of the outcomes and sum to the number of foods |
| Importer.DictionaryOf | src/main.rs:47-59 | a failed property fetch leaves the dictionary empty; otherwise it is the dictionary built from the fetched property types, so its keys are their FDC ids |
| Importer.RunImport | src/main.rs:47-134 | `main` as written: panics if and only if the page count mismatches; otherwise each food seen is processed against the dictionary, and a failed food fetch leaves no foods; the counters are the fold of the outcomes (so each counts exactly its kind, by `Importer.TallyCountsEach`), sum to the number of foods and stay within i32 |
| Importer.FailedPropertyFetchWipesProperties | src/main.rs:55-59 | after a failed property fetch, every update that goes through pushes the food with no properties |
| Importer.RunImportGuarded | src/main.rs:49-58 | with the fetch failure treated as fatal: the run stops before touching any food if and only if the property fetch failed; otherwise it behaves as `main` with the full dictionary, with counters that are the fold of the outcomes |
| Importer.EggUrlGivesId | src/main.rs:300-307 | the URL `food-details/12345/nutrients` yields the id 12345 |
| Importer.ProteinIsTheOnlyTracked | src/main.rs:228-236 | of the nutrients 203 and 999, only 203 is tracked, and it is renamed to the Tandoor name "Protein" |
| Importer.ProteinExample | src/main.rs:77-134 | worked example: the food "Egg" takes id 12345 from its URL and is pushed with the single protein property; with 100 requests left there is no sleep |

## Left out

- HTTP, JSON decoding, headers as text, logging, the configuration file and the command line are
  left out. Each request's outcome is an input: a page response, a lookup response, a push
  flag, or a property-fetch `Result`.
- The 60-second sleep is an action in the report. No clock is modelled.
- `Importer.ImportFoods` and its relatives use unbounded integers for the counters. An `i32`
  overflow would need more than `i32::MAX` foods, and `get_foods` already refuses such a list
  (see `Pagination.SuccessMeansCountMatches`).
- FdcId.UrlFdcId: does not model the panic of `parse().unwrap()` on a digit run beyond
  `i32::MAX`. The id is the unbounded decimal value.
- FdcId.DigitRunLength: `\d` matches ASCII digits only here. The Rust regex crate also matches
  other Unicode decimal digits, which `parse` would then reject with a panic.
- FoodData.RequestsLeft: the header is taken as an already-parsed number. The panics of
  `to_str().unwrap()` and `parse().unwrap()` on a malformed header are not modelled.
- Pagination.GetFoods: requires that the server eventually ends the chain of `next` links. An
  endless chain loops forever in the source and is not modelled.
- The property-type fetch (`get_food_properties`, src/main.rs:146-157) is a single request.
  Only its result is modelled, as the `properties` input of `Importer.RunImport`.
- `update_food` (src/main.rs:271-281) is modelled only as whether the PATCH succeeds. The URL it
  builds is not modelled.
- `ApiTandoorFoodProperty::from(&USDANutrient)`, `InternalTandoorFoodProperty::try_from` and
  `f32::to_string` are not part of this model. They are parameters.
- `get_all_endpoints`, `get_version` and `get_base_url` have no contracts of their own. They
  return fields, and `Endpoints.ConstructedTableIsComplete` and `Endpoints.ConstructedAccessors`
  state what they return on a constructed table.
- The `--override` and `--interactive` flags: never read by the code, so they have no
  behaviour to model.

## Findings

| source | as written | input that shows it | evidently intended | confidence | as-written member | corrected member |
|---|---|---|---|---|---|---|
| src/main.rs:49-59 | a failed property-type fetch is only logged, and the dictionary is built from an empty list | the property fetch fails (for example a network error), then a food with an FDC id whose lookup and push succeed | stop the run, or at least skip the updates, since every update would replace the food's properties with an empty list | medium, not executed | Importer.RunImport (with Importer.FailedPropertyFetchWipesProperties) | Importer.RunImportGuarded |

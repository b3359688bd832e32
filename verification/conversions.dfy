/** Conversions between the Tandoor records: internal to api (`From`, owned and
    borrowed) and api to internal (`TryFrom`). The two conversions whose code is
    not part of this model, `f32::to_string` and
    `InternalTandoorFoodProperty::try_from`, are parameters. */
module Conversions {
  import opened Wrappers
  import opened TandoorModels

  /** `ApiTandoorProperty::from`. */
  function ToApiProperty(p: InternalProperty): (r: ApiProperty)
    ensures r.name == p.name
  {
    ApiProperty(p.name)
  }

  /** The api property type keeps nothing but the name: the FDC id is dropped. */
  lemma ToApiPropertyForgetsFdcId(p: InternalProperty, q: InternalProperty)
    requires p.name == q.name
    ensures ToApiProperty(p) == ToApiProperty(q)
  {
  }

  /** `ApiTandoorFoodProperty::from`: a missing amount is formatted as `0.0`. */
  function ToApiFoodProperty(p: InternalFoodProperty, formatAmount: Amount -> string): (r: ApiFoodProperty)
    ensures r.propertyType.name == p.propertyType.name
    ensures p.amount.Some? ==> r.amount == formatAmount(p.amount.value)
    ensures p.amount.None? ==> r.amount == formatAmount(ZeroAmount)
  {
    ApiFoodProperty(formatAmount(p.amount.GetOr(ZeroAmount)), ToApiProperty(p.propertyType))
  }

  /** Converting a property without an amount is the same as converting one whose amount is `0.0`. */
  lemma MissingAmountIsZero(p: InternalFoodProperty, formatAmount: Amount -> string)
    ensures ToApiFoodProperty(p.(amount := None), formatAmount)
         == ToApiFoodProperty(p.(amount := Some(ZeroAmount)), formatAmount)
  {
  }

  /** `into_iter().map(ApiTandoorFoodProperty::from).collect()`, element by element. */
  function ToApiProperties(ps: seq<InternalFoodProperty>, formatAmount: Amount -> string): (r: seq<ApiFoodProperty>)
    ensures |r| == |ps|
    ensures forall i :: 0 <= i < |ps| ==> r[i] == ToApiFoodProperty(ps[i], formatAmount)
  {
    if |ps| == 0 then [] else [ToApiFoodProperty(ps[0], formatAmount)] + ToApiProperties(ps[1..], formatAmount)
  }

  /** `From<InternalTandoorFood> for ApiTandoorFood` (consumes the food). */
  function ApiFoodFromOwned(f: InternalFood, formatAmount: Amount -> string): (r: ApiFood)
    ensures r.id == f.id && r.name == f.name && r.fdcId == f.fdcId && r.url == f.url
    ensures |r.properties| == |f.properties|
    ensures forall i :: 0 <= i < |f.properties| ==> r.properties[i] == ToApiFoodProperty(f.properties[i], formatAmount)
  {
    ApiFood(f.id, f.name, f.fdcId, ToApiProperties(f.properties, formatAmount), f.url)
  }

  /** `From<&InternalTandoorFood> for ApiTandoorFood` (clones each property). */
  function ApiFoodFromBorrowed(f: InternalFood, formatAmount: Amount -> string): (r: ApiFood)
    ensures r.id == f.id && r.name == f.name && r.fdcId == f.fdcId && r.url == f.url
    ensures |r.properties| == |f.properties|
    ensures forall i :: 0 <= i < |f.properties| ==> r.properties[i] == ToApiFoodProperty(f.properties[i], formatAmount)
  {
    var props := seq(|f.properties|, i requires 0 <= i < |f.properties| => ToApiFoodProperty(f.properties[i], formatAmount));
    ApiFood(f.id, f.name, f.fdcId, props, f.url)
  }

  /** The owned and the borrowed conversion agree on every food. */
  lemma OwnedAndBorrowedAgree(f: InternalFood, formatAmount: Amount -> string)
    ensures ApiFoodFromOwned(f, formatAmount) == ApiFoodFromBorrowed(f, formatAmount)
  {
  }

  /** `filter_map` of the property conversion: the successful conversions, in order. */
  function ConvertibleProperties(ps: seq<ApiFoodProperty>, tryProperty: ApiFoodProperty -> Option<InternalFoodProperty>)
    : (r: seq<InternalFoodProperty>)
    ensures |r| <= |ps|
    ensures forall v :: v in r <==> exists i :: 0 <= i < |ps| && tryProperty(ps[i]) == Some(v)
  {
    if |ps| == 0 then []
    else
      var rest := ConvertibleProperties(ps[1..], tryProperty);
      assert forall i :: 1 <= i < |ps| ==> ps[i] == ps[1..][i - 1];
      match tryProperty(ps[0])
      case Some(v) => [v] + rest
      case None => rest
  }

  /** Converting a concatenation converts each part: the order of successes is the input order. */
  lemma {:induction false} ConvertiblePropertiesAppend(a: seq<ApiFoodProperty>, b: seq<ApiFoodProperty>,
                                                       tryProperty: ApiFoodProperty -> Option<InternalFoodProperty>)
    ensures ConvertibleProperties(a + b, tryProperty)
         == ConvertibleProperties(a, tryProperty) + ConvertibleProperties(b, tryProperty)
  {
    if |a| > 0 {
      assert (a + b)[1..] == a[1..] + b;
      ConvertiblePropertiesAppend(a[1..], b, tryProperty);
    } else {
      assert a + b == b;
    }
  }

  /** One property contributes its conversion when it has one and nothing otherwise. */
  lemma ConvertiblePropertiesSingle(p: ApiFoodProperty, tryProperty: ApiFoodProperty -> Option<InternalFoodProperty>)
    ensures tryProperty(p).Some? ==> ConvertibleProperties([p], tryProperty) == [tryProperty(p).value]
    ensures tryProperty(p).None? ==> ConvertibleProperties([p], tryProperty) == []
  {
  }

  /** No property is lost exactly when every property converts. */
  lemma {:induction false} ConvertiblePropertiesKeepsAll(ps: seq<ApiFoodProperty>,
                                                        tryProperty: ApiFoodProperty -> Option<InternalFoodProperty>)
    ensures |ConvertibleProperties(ps, tryProperty)| == |ps|
        <==> forall i :: 0 <= i < |ps| ==> tryProperty(ps[i]).Some?
  {
    if |ps| > 0 {
      ConvertiblePropertiesKeepsAll(ps[1..], tryProperty);
      assert forall i :: 1 <= i < |ps| ==> ps[i] == ps[1..][i - 1];
    }
  }

  /** `TryFrom<ApiTandoorFood> for InternalTandoorFood`: never fails, drops the properties that do not convert. */
  function TryFromApiFood(f: ApiFood, tryProperty: ApiFoodProperty -> Option<InternalFoodProperty>)
    : (r: Result<InternalFood, ()>)
    ensures r.Success?
    ensures r.value.id == f.id && r.value.name == f.name && r.value.fdcId == f.fdcId && r.value.url == f.url
    ensures |r.value.properties| <= |f.properties|
    ensures forall v :: v in r.value.properties <==> exists i :: 0 <= i < |f.properties| && tryProperty(f.properties[i]) == Some(v)
  {
    Success(InternalFood(f.id, f.name, f.fdcId, ConvertibleProperties(f.properties, tryProperty), f.url))
  }
}

/** The Tandoor-side records: what the importer reads from Tandoor ("internal")
    and what it sends back ("api"), plus the paginated response wrappers. */
module TandoorModels {
  import opened Wrappers

  /** An `f32` amount, kept as its 32-bit pattern; arithmetic on it is never needed. */
  datatype Amount = F32(bits: bv32)

  /** The `f32` value `0.0`. */
  const ZeroAmount: Amount := F32(0)

  /** A property type as stored in Tandoor, with the FDC nutrient id it stands for. */
  datatype InternalProperty = InternalProperty(name: string, fdcId: int)

  /** A property a food currently has. */
  datatype InternalFoodProperty = InternalFoodProperty(amount: Option<Amount>, propertyType: InternalProperty)

  /** A food as returned by Tandoor. */
  datatype InternalFood = InternalFood(
    id: int,
    name: string,
    fdcId: Option<int>,
    properties: seq<InternalFoodProperty>,
    url: Option<string>)

  /** A property type as sent to Tandoor: only the name identifies it. */
  datatype ApiProperty = ApiProperty(name: string)

  /** A food property as sent to Tandoor; the amount is already formatted text. */
  datatype ApiFoodProperty = ApiFoodProperty(amount: string, propertyType: ApiProperty)

  /** A food as sent to Tandoor. */
  datatype ApiFood = ApiFood(
    id: int,
    name: string,
    fdcId: Option<int>,
    properties: seq<ApiFoodProperty>,
    url: Option<string>)

  /** One page of the food listing (`InternalTandoorFoodApiResponse`). */
  datatype InternalFoodPage = InternalFoodPage(count: int, next: Option<string>, results: seq<InternalFood>)

  /** One page of the property-type listing (`InternalTandoorPropertyApiResponse`). */
  datatype InternalPropertyPage = InternalPropertyPage(count: int, next: Option<string>, results: seq<InternalProperty>)

  /** `ApiFoodResponse`. */
  datatype ApiFoodPage = ApiFoodPage(count: int, next: Option<string>, results: seq<ApiFood>)

  /** `ApiPropertyTypeResponse`. */
  datatype ApiPropertyPage = ApiPropertyPage(count: int, next: Option<string>, results: seq<ApiProperty>)
}

/** The FoodData Central records the importer reads. */
module UsdaModels {
  import opened Wrappers
  import opened TandoorModels

  datatype NutrientInformation = NutrientInformation(id: int, name: string)

  datatype Nutrient = Nutrient(amount: Option<Amount>, info: NutrientInformation)

  datatype UsdaFood = UsdaFood(fdcId: int, nutrients: seq<Nutrient>)

  /** A looked-up food together with the remaining request budget. */
  datatype UsdaApiResponse = UsdaApiResponse(requestsLeft: int, food: UsdaFood)
}

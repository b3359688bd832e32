/** `ApiEndpoints`: the Tandoor endpoint table for one of the two supported API versions. */
module Endpoints {
  import opened Wrappers

  datatype ApiEndpoints = ApiEndpoints(baseUrl: string, version: string, endpoints: map<string, string>)

  const PropertiesKey := "properties"
  const FoodKey := "food"

  /** The API root of a Tandoor host. */
  function ApiBaseUrl(host: string): string {
    "http://" + host + "/api/"
  }

  predicate EndsWith(s: string, suffix: string) {
    |suffix| <= |s| && s[|s| - |suffix|..] == suffix
  }

  /** The shape every successfully built table has: exactly the two named endpoints, both under the base URL. */
  predicate Wellformed(e: ApiEndpoints) {
    && e.endpoints.Keys == {PropertiesKey, FoodKey}
    && e.endpoints[FoodKey] == e.baseUrl + "food/"
    && (e.endpoints[PropertiesKey] == e.baseUrl + "food-property-type/"
        || e.endpoints[PropertiesKey] == e.baseUrl + "property-type/")
  }

  /** `ApiEndpoints::with_base_url`. */
  function WithBaseUrl(version: string, host: string): (r: Result<ApiEndpoints, string>)
    ensures r.Success? <==> version == "v1" || version == "v2"
    ensures r.Success? ==> Wellformed(r.value) && r.value.baseUrl == ApiBaseUrl(host) && r.value.version == version
    ensures version == "v1" ==> r.Success? && r.value.endpoints[PropertiesKey] == ApiBaseUrl(host) + "food-property-type/"
    ensures version == "v2" ==> r.Success? && r.value.endpoints[PropertiesKey] == ApiBaseUrl(host) + "property-type/"
    ensures r.Failure? ==> EndsWith(r.error, version)
  {
    var baseUrl := ApiBaseUrl(host);
    if version == "v1" then
      Success(ApiEndpoints(baseUrl, version, map[PropertiesKey := baseUrl + "food-property-type/", FoodKey := baseUrl + "food/"]))
    else if version == "v2" then
      Success(ApiEndpoints(baseUrl, version, map[PropertiesKey := baseUrl + "property-type/", FoodKey := baseUrl + "food/"]))
    else
      Failure("The given API version is not supported: " + version)
  }

  /** `ApiEndpoints::new`, which delegates to `with_base_url`. */
  function New(version: string, host: string): (r: Result<ApiEndpoints, string>)
    ensures r == WithBaseUrl(version, host)
    ensures r.Success? <==> version == "v1" || version == "v2"
  {
    WithBaseUrl(version, host)
  }

  /** `get_endpoint_properties`; the `expect` panic is the `Failure` case. */
  function GetEndpointProperties(e: ApiEndpoints): (r: Result<string, string>)
    ensures r.Success? <==> PropertiesKey in e.endpoints
    ensures r.Success? ==> r.value == e.endpoints[PropertiesKey]
  {
    if PropertiesKey in e.endpoints then Success(e.endpoints[PropertiesKey])
    else Failure("Missing endpoint for food property retrieval.")
  }

  /** `get_endpoint_food`; the `expect` panic is the `Failure` case. */
  function GetEndpointFood(e: ApiEndpoints): (r: Result<string, string>)
    ensures r.Success? <==> FoodKey in e.endpoints
    ensures r.Success? ==> r.value == e.endpoints[FoodKey]
  {
    if FoodKey in e.endpoints then Success(e.endpoints[FoodKey])
    else Failure("Missing endpoint for food retrieval")
  }

  /** `get_endpoint`. */
  function GetEndpoint(e: ApiEndpoints, name: string): (r: Option<string>)
    ensures r.Some? <==> name in e.endpoints
    ensures r.Some? ==> r.value == e.endpoints[name]
  {
    if name in e.endpoints then Some(e.endpoints[name]) else None
  }

  function GetAllEndpoints(e: ApiEndpoints): map<string, string> {
    e.endpoints
  }

  function GetVersion(e: ApiEndpoints): string {
    e.version
  }

  function GetBaseUrl(e: ApiEndpoints): string {
    e.baseUrl
  }

  /** A table built for a supported version never makes the two named getters panic,
      serves the food endpoint under the base URL, and knows no other names. */
  lemma ConstructedTableIsComplete(version: string, host: string, name: string)
    requires WithBaseUrl(version, host).Success?
    ensures var e := WithBaseUrl(version, host).value;
      && GetEndpointProperties(e).Success?
      && GetEndpointFood(e) == Success(ApiBaseUrl(host) + "food/")
      && (GetEndpoint(e, name).Some? <==> name == PropertiesKey || name == FoodKey)
      && GetAllEndpoints(e).Keys == {PropertiesKey, FoodKey}
  {
  }

  /** The accessors return what was given: the version verbatim, the base URL built from the host. */
  lemma ConstructedAccessors(version: string, host: string)
    requires WithBaseUrl(version, host).Success?
    ensures GetVersion(WithBaseUrl(version, host).value) == version
    ensures GetBaseUrl(WithBaseUrl(version, host).value) == "http://" + host + "/api/"
  {
  }

  /** The endpoints `main` builds by hand are those of the `v1` table. */
  lemma MainUsesVersionOneEndpoints(host: string)
    ensures WithBaseUrl("v1", host).Success?
    ensures GetEndpointProperties(WithBaseUrl("v1", host).value) == Success(ApiBaseUrl(host) + "food-property-type/")
    ensures GetEndpointFood(WithBaseUrl("v1", host).value) == Success(ApiBaseUrl(host) + "food/")
  {
  }
}

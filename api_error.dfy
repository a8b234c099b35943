/** `ApiError` (src/api/client/ApiError.ts): the error the HTTP client raises for a
    response that is not OK. */
module ApiErrors {
  import opened Wrappers
  import opened Json

  datatype ApiError = ApiError(
    name: string,
    message: string,
    status: Option<int>,
    url: string,
    data: Json)

  /** The constructor's argument; `data` may be omitted (`None`) or `null`. */
  datatype ApiErrorParams = ApiErrorParams(
    message: string,
    status: Option<int>,
    url: string,
    data: Option<Json>)

  /** `new ApiError(params)`: the name is always "ApiError", message, status and url are
      copied, and omitted data is stored as `null`. */
  function NewApiError(params: ApiErrorParams): (e: ApiError)
    ensures e.name == "ApiError"
    ensures e.message == params.message && e.status == params.status && e.url == params.url
    ensures params.data.None? ==> e.data == JNull
    ensures params.data.Some? ==> e.data == params.data.value
  {
    ApiError("ApiError", params.message, params.status, params.url,
             match params.data case None => JNull case Some(d) => d)
  }
}

/**
 * The response envelope of backend/library/project/utils.py: every API
 * response body is a dict `{status, message, data?, errors?}` plus any extra
 * keyword pairs, sent with the given HTTP status.
 */
module Responses {
  import opened Python

  const HTTP_200_OK := 200

  /** `rest_framework.status.is_success` */
  predicate IsSuccess(code: int)
  {
    200 <= code <= 299
  }

  /** The extra keyword arguments of `standard_response`. Python binds `data`,
      `message`, `status_code` and `errors` to the named parameters, so
      these names never reach the extras. */
  type Extras = m: map<string, Value>
    | "data" !in m && "message" !in m && "status_code" !in m && "errors" !in m
    witness map[]

  /** A DRF `Response`: the body dict and the HTTP status. */
  datatype Response = Response(body: map<string, Value>, status: int)

  /** `standard_response(data, message, status_code, errors, **extras)`. The
      extras are merged last, so they can override `status`; the other
      envelope keys cannot be named by an extra. */
  function StandardResponse(data: Value, message: Value, statusCode: int, errors: Value, extras: Extras): (r: Response)
    ensures r.status == statusCode
    ensures r.body.Keys == {"status", "message"} + extras.Keys
                           + (if data.PyNone? then {} else {"data"})
                           + (if errors.PyNone? then {} else {"errors"})
    ensures r.body["status"] ==
      if "status" in extras then extras["status"]
      else PyStr(if IsSuccess(statusCode) then "success" else "error")
    ensures r.body["message"] ==
      if Truthy(message) then message
      else PyStr(if IsSuccess(statusCode) then "Success" else "Error")
    ensures !data.PyNone? ==> r.body["data"] == data
    ensures !errors.PyNone? ==> r.body["errors"] == errors
    ensures forall k | k in extras :: r.body[k] == extras[k]
  {
    var success := IsSuccess(statusCode);
    var responseData := map[
      "status" := PyStr(if success then "success" else "error"),
      "message" := if Truthy(message) then message else PyStr(if success then "Success" else "Error")
    ];
    var withData := if data.PyNone? then responseData else responseData["data" := data];
    var withErrors := if errors.PyNone? then withData else withData["errors" := errors];
    Response(withErrors + extras, statusCode)
  }

  /** Called with its defaults, `standard_response()` returns
      `{"status": "success", "message": "Success"}` with status 200. */
  lemma DefaultEnvelope()
    ensures StandardResponse(PyNone, PyNone, HTTP_200_OK, PyNone, map[])
         == Response(map["status" := PyStr("success"), "message" := PyStr("Success")], 200)
  {
  }

  /** What a paginator reports about the current page. */
  datatype Paginator = Paginator(count: int, nextLink: Option<string>, previousLink: Option<string>)

  /** A link as it appears in the body: the URL, or None on the first or last page. */
  function LinkValue(link: Option<string>): Value
  {
    match link
    case None => PyNone
    case Some(url) => PyStr(url)
  }

  /** The extra keyword arguments of `paginated_response`: `message` is bound
      to its own parameter, and `status_code` and `errors` are passed on to
      `standard_response` as the parameters of `PaginatedResponse`. */
  type PageExtras = m: map<string, Value>
    | "paginator" !in m && "serializer_data" !in m && "message" !in m
      && "status_code" !in m && "errors" !in m
    witness map[]

  const DefaultPageMessage := "Data retrieved successfully"

  /** `paginated_response(paginator, serializer_data, message, status_code=..,
      errors=.., **extras)`: the page is wrapped as `data`; an extra named
      `data` collides with that keyword and raises. */
  function PaginatedResponse(paginator: Paginator, serializerData: Value, message: Value,
                             statusCode: int, errors: Value, extras: PageExtras): (r: Result<Response>)
    ensures r.Err? <==> "data" in extras
    ensures r.Err? ==> r.error == MultipleValues("data")
    ensures r.Ok? ==>
      && r.value.status == statusCode
      && r.value.body.Keys == {"status", "message", "data"} + extras.Keys
                              + (if errors.PyNone? then {} else {"errors"})
      && r.value.body["data"].PyDict?
      && r.value.body["data"].entries.Keys == {"count", "next", "previous", "results"}
      && r.value.body["data"].entries["count"] == PyInt(paginator.count)
      && r.value.body["data"].entries["next"] == LinkValue(paginator.nextLink)
      && r.value.body["data"].entries["previous"] == LinkValue(paginator.previousLink)
      && r.value.body["data"].entries["results"] == serializerData
      && r.value.body["message"] == (if Truthy(message) then message else PyStr(DefaultPageMessage))
      && r.value.body["status"] ==
           (if "status" in extras then extras["status"]
            else PyStr(if IsSuccess(statusCode) then "success" else "error"))
      && (!errors.PyNone? ==> r.value.body["errors"] == errors)
      && (forall k | k in extras :: r.value.body[k] == extras[k])
  {
    var paginationData := map[
      "count" := PyInt(paginator.count),
      "next" := LinkValue(paginator.nextLink),
      "previous" := LinkValue(paginator.previousLink),
      "results" := serializerData
    ];
    if "data" in extras then Err(MultipleValues("data"))
    else
      Ok(StandardResponse(PyDict(paginationData),
                          if Truthy(message) then message else PyStr(DefaultPageMessage),
                          statusCode, errors, extras))
  }
}

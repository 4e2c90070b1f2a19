/**
 * The checks the pod manager applies to a GraphQL answer before it trusts it:
 * the transport-level status and `errors` checks of `graphql_request`, and the
 * response-shape checks of `get_pod_info` and `create_pod`. The HTTP exchange
 * itself is an input: either no answer at all, or a status code with a body
 * that did or did not decode as JSON.
 */
module Graphql {
  import opened Wrappers
  import opened PyJson

  /** What one `requests.post` call produced. */
  datatype Reply =
    | Response(status: int, body: Option<Json>)  // body None: not valid JSON
    | NoResponse                                 // requests raised (connection, timeout)

  /** Every exception a request and its response checks can raise. */
  datatype Failure =
    | Transport                      // raised inside requests.post
    | BadStatus(status: int)         // "HTTP <status>: ..."
    | NotJson                        // response.json() raised
    | GraphqlErrors(errors: Json)    // "GraphQL errors: ..."
    | Unexpected(response: Json)     // response without the expected data path
    | MissingCost                    // "Hourly cost not found in API response"
    | Python(error: PyError)         // an expression of the check itself raised

  /** Lift a Python-level result into one carrying a `Failure`. */
  function Lift<T>(r: Result<T, PyError>): (l: Result<T, Failure>)
    ensures r.Ok? ==> l == Ok(r.value)
    ensures r.Err? ==> l == Err(Python(r.error))
  {
    match r
    case Ok(v) => Ok(v)
    case Err(e) => Err(Python(e))
  }

  /**
   * `graphql_request`: the decoded body comes back unchanged only when the status
   * is 200 and the body has no `errors` entry.
   */
  function GraphqlRequest(reply: Reply): (r: Result<Json, Failure>)
    ensures r.Ok? ==> reply.Response? && reply.status == 200 && reply.body == Some(r.value)
    ensures r.Ok? && r.value.Obj? ==> "errors" !in r.value.fields
    ensures reply.NoResponse? ==> r == Err(Transport)
    ensures reply.Response? && reply.status != 200 ==> r == Err(BadStatus(reply.status))
    ensures reply.Response? && reply.status == 200 && reply.body.None? ==> r == Err(NotJson)
    ensures reply.Response? && reply.status == 200 && reply.body.Some? && reply.body.value.Obj? ==>
              var fields := reply.body.value.fields;
              if "errors" in fields then r == Err(GraphqlErrors(fields["errors"]))
              else r == Ok(reply.body.value)
  {
    match reply
    case NoResponse => Err(Transport)
    case Response(status, body) =>
      if status != 200 then Err(BadStatus(status))
      else if body.None? then Err(NotJson)
      else
        var data := body.value;
        match Contains(data, "errors")
        case Err(e) => Err(Python(e))
        case Ok(hasErrors) =>
          if hasErrors then
            // the message is built from data['errors'], which itself may raise
            match Subscript(data, "errors")
            case Ok(errors) => Err(GraphqlErrors(errors))
            case Err(e) => Err(Python(e))
          else Ok(data)
  }

  /** The response carries `data.<name>` as nested objects. */
  predicate HasDataField(result: Json, name: string) {
    result.Obj? && "data" in result.fields
    && result.fields["data"].Obj? && name in result.fields["data"].fields
  }

  /**
   * `"data" in result and name in result["data"]`, then `result["data"][name]`:
   * the check `get_pod_info` and `create_pod` share (one negated, the other not).
   */
  function DataField(result: Json, name: string): (r: Result<Json, Failure>)
    ensures r.Ok? <==> HasDataField(result, name)
    ensures r.Ok? ==> r.value == result.fields["data"].fields[name]
    ensures result.Obj? && "data" !in result.fields ==> r == Err(Unexpected(result))
    ensures result.Obj? && "data" in result.fields && result.fields["data"].Obj? && name !in result.fields["data"].fields ==>
              r == Err(Unexpected(result))
  {
    match Contains(result, "data")
    case Err(e) => Err(Python(e))
    case Ok(hasData) =>
      if !hasData then Err(Unexpected(result))
      else
        match Subscript(result, "data")
        case Err(e) => Err(Python(e))
        case Ok(data) =>
          match Contains(data, name)
          case Err(e) => Err(Python(e))
          case Ok(hasName) =>
            if !hasName then Err(Unexpected(result))
            else Lift(Subscript(data, name))
  }

  /** `get_pod_info`: the `data.pod` record of an accepted response, and nothing else. */
  function GetPodInfo(reply: Reply): (r: Result<Json, Failure>)
    ensures r.Ok? <==> GraphqlRequest(reply).Ok? && HasDataField(GraphqlRequest(reply).value, "pod")
    ensures r.Ok? ==> r.value == GraphqlRequest(reply).value.fields["data"].fields["pod"]
    ensures GraphqlRequest(reply).Err? ==> r == GraphqlRequest(reply)
  {
    match GraphqlRequest(reply)
    case Err(f) => Err(f)
    case Ok(result) => DataField(result, "pod")
  }

  /**
   * The deployment record carries an `id` and a `costPerHr` that is a number
   * within float range, so that it is not None and `:.3f` can format it.
   */
  predicate DeployedWithCost(podData: Json) {
    podData.Obj? && "id" in podData.fields
    && "costPerHr" in podData.fields && FormatFixed(podData.fields["costPerHr"]).Ok?
  }

  /**
   * The response half of `create_pod`: the new pod's `id`, provided the response
   * has `data.podFindAndDeployOnDemand` and that record states an hourly cost
   * that the success message can print.
   */
  function DeployResult(reply: Reply): (r: Result<Json, Failure>)
    ensures r.Ok? <==>
              GraphqlRequest(reply).Ok?
              && HasDataField(GraphqlRequest(reply).value, "podFindAndDeployOnDemand")
              && DeployedWithCost(GraphqlRequest(reply).value.fields["data"].fields["podFindAndDeployOnDemand"])
    ensures r.Ok? ==> r.value == GraphqlRequest(reply).value.fields["data"].fields["podFindAndDeployOnDemand"].fields["id"]
    ensures GraphqlRequest(reply).Err? ==> r == GraphqlRequest(reply)
  {
    match GraphqlRequest(reply)
    case Err(f) => Err(f)
    case Ok(result) =>
      match DataField(result, "podFindAndDeployOnDemand")
      case Err(f) => Err(f)
      case Ok(podData) =>
        match Subscript(podData, "id")
        case Err(e) => Err(Python(e))
        case Ok(podId) =>
          match GetOr(podData, "costPerHr", Null)
          case Err(e) => Err(Python(e))
          case Ok(cost) =>
            if cost == Null then Err(MissingCost)
            else
              match FormatFixed(cost)
              case Err(e) => Err(Python(e))
              case Ok(_) => Ok(podId)
  }

  /**
   * How a deployment record with an `id` fails on its cost: a missing or null
   * `costPerHr` is the missing-cost failure, a string one raises ValueError in the
   * `:.3f` format, a list or dict one TypeError, and an integer beyond float range
   * OverflowError.
   */
  lemma DeployCostFailures(reply: Reply)
    requires GraphqlRequest(reply).Ok?
    requires HasDataField(GraphqlRequest(reply).value, "podFindAndDeployOnDemand")
    requires var podData := GraphqlRequest(reply).value.fields["data"].fields["podFindAndDeployOnDemand"];
             podData.Obj? && "id" in podData.fields
    ensures var fields := GraphqlRequest(reply).value.fields["data"].fields["podFindAndDeployOnDemand"].fields;
            && ("costPerHr" !in fields || fields["costPerHr"] == Null ==> DeployResult(reply) == Err(MissingCost))
            && ("costPerHr" in fields && fields["costPerHr"].Str? ==> DeployResult(reply) == Err(Python(ValueError)))
            && ("costPerHr" in fields && (fields["costPerHr"].Arr? || fields["costPerHr"].Obj?) ==>
                  DeployResult(reply) == Err(Python(TypeError)))
            && ("costPerHr" in fields && fields["costPerHr"].Num? && !FitsFloat(fields["costPerHr"].n) ==>
                  DeployResult(reply) == Err(Python(OverflowError)))
  {
  }
}

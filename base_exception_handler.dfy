/**
 * The second error handler, `custom_exception_handler` (apps/base/utils.py):
 * it rewrites the data of the response DRF's default handler produced, in
 * place, or makes a fresh 500 response when there was none.
 */
module BaseExceptionHandler {
  import opened Values

  /** A DRF `Response` whose data the handler may replace. */
  class ApiResponse {
    var status: int
    var data: Value

    constructor (status: int, data: Value)
      ensures this.status == status && this.data == data
    {
      this.status := status;
      this.data := data;
    }
  }

  /** The data of the response made when the framework produced none. */
  const ServerErrorData: Value :=
    Dict([("error", Dict([("status_code", Int(500)),
                          ("detail", Str("An unexpected error occurred on the server.")),
                          ("code", Str("server_error"))]))])

  /**
   * The new data for a framework response with dict data `entries`:
   * the status, "detail" (or `str(exc)`), "code" (or None), and the
   * original data under "errors" exactly when it has no "detail".
   */
  function WrapData(entries: seq<(string, Value)>, status: int, excText: string): (v: Value)
    ensures v.Dict? && Keys(v.entries) == ["error"] && v.entries[0].1.Dict?
    ensures var inner := v.entries[0].1.entries;
      && Keys(inner) == ["status_code", "detail", "code"] + (if HasKey(entries, "detail") then [] else ["errors"])
      && inner[0].1 == Int(status)
      && (HasKey(entries, "detail") ==> inner[1].1 == Get(entries, "detail").value)
      && (!HasKey(entries, "detail") ==> inner[1].1 == Str(excText) && inner[3].1 == Dict(entries))
      && (HasKey(entries, "code") ==> inner[2].1 == Get(entries, "code").value)
      && (!HasKey(entries, "code") ==> inner[2].1 == Null)
  {
    var inner := [("status_code", Int(status)),
                  ("detail", GetOr(entries, "detail", Str(excText))),
                  ("code", GetOr(entries, "code", Null))];
    Dict([("error", Dict(inner + (if HasKey(entries, "detail") then [] else [("errors", Dict(entries))])))])
  }

  /**
   * `custom_exception_handler`.  With no framework response it returns a
   * fresh 500 response with the fixed server-error data.  Otherwise it
   * reads the data with `.get`, which raises AttributeError unless the
   * data is a dict, and then replaces the data of the same response by
   * `WrapData`, leaving its status alone.
   */
  method CustomExceptionHandler(excText: string, response: ApiResponse?) returns (r: Result<ApiResponse, string>)
    modifies response
    ensures response == null ==>
      r.Ok? && fresh(r.value) && r.value.status == 500 && r.value.data == ServerErrorData
    ensures response != null && !old(response.data).Dict? ==>
      r == Err("AttributeError") && unchanged(response)
    ensures response != null && old(response.data).Dict? ==>
      && r.Ok? && r.value == response
      && response.status == old(response.status)
      && response.data == WrapData(old(response.data).entries, old(response.status), excText)
  {
    if response != null {
      if !response.data.Dict? {
        return Err("AttributeError");
      }
      var entries := response.data.entries;
      var errorData := [("status_code", Int(response.status)),
                        ("detail", GetOr(entries, "detail", Str(excText))),
                        ("code", GetOr(entries, "code", Null))];
      if !HasKey(entries, "detail") {
        errorData := errorData + [("errors", response.data)];
      } else {
        assert errorData == errorData + [];
      }
      response.data := Dict([("error", Dict(errorData))]);
      r := Ok(response);
    } else {
      var fresh500 := new ApiResponse(500, ServerErrorData);
      r := Ok(fresh500);
    }
  }
}

/** The requests the client sends through axios: a path under the API's base
    URL and, for a POST, the JSON body (None when `axios.post(url)` is called
    without one). Sending is not modelled; the client methods return the
    request they would send, and the server's answer is passed back in. */
module Http {
  import opened Wrappers
  import opened JsRuntime

  datatype Request =
    | Get(path: string)
    | Post(path: string, body: Option<Json>)
}

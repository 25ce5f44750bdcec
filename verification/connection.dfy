/** Reading the two system parameters both add-ons need before talking to
    the server. */
module Connection {
  import opened Base

  datatype Connection = Connection(serverUrl: string, authToken: string)

  /** `frappe.auth.token` and `frappe.server.url` are read as optional
      values; either one absent or empty stops the operation. */
  function Resolve(authToken: Option<string>, serverUrl: Option<string>): (r: Result<Connection>)
    ensures r.Ok? <==> Truthy(authToken) && Truthy(serverUrl)
    ensures r.Ok? ==> r.value.authToken == authToken.value && r.value.serverUrl == serverUrl.value
    ensures r.Ok? ==> r.value.authToken != "" && r.value.serverUrl != ""
    ensures r.Err? ==> r.error == ConfigMissing
  {
    if !Truthy(authToken) || !Truthy(serverUrl) then Err(ConfigMissing)
    else Ok(Connection(serverUrl.value, authToken.value))
  }

}

/** The `GET /api/auth/error` handler: echo the "error" and
    "error_description" query parameters, with defaults, as a 400 response. */
module AuthErrorRoute {
  import opened Wrappers

  /** The query string as its decoded name/value pairs, in order. */
  type Query = seq<(string, string)>

  /** `searchParams.get(name)`: the value of the first pair with that name. */
  function Get(q: Query, name: string): (r: Option<string>)
    ensures r.None? <==> forall i :: 0 <= i < |q| ==> q[i].0 != name
    ensures r.Some? ==> exists i :: 0 <= i < |q| && q[i] == (name, r.value)
                                    && forall j :: 0 <= j < i ==> q[j].0 != name
  {
    if q == [] then None
    else if q[0].0 == name then Some(q[0].1)
    else
      var r := Get(q[1..], name);
      if r.Some? then
        var i :| 0 <= i < |q[1..]| && q[1..][i] == (name, r.value) && forall j :: 0 <= j < i ==> q[1..][j].0 != name;
        assert q[i + 1] == (name, r.value);
        r
      else r
  }

  const UnknownError := "Unknown authentication error"
  const UnknownDescription := "An unknown error occurred during authentication"
  const Status := 400

  datatype Body = Body(error: string, errorDescription: string)

  datatype Response = Response(status: int, body: Body)

  /** `value || fallback` for a parameter that may be missing. */
  function OrDefault(value: Option<string>, fallback: string): (r: string)
    ensures value.Some? && value.value != [] ==> r == value.value
    ensures value.None? || value.value == [] ==> r == fallback
  {
    if value.Some? && value.value != [] then value.value else fallback
  }

  /** The handler. */
  function Handle(q: Query): (r: Response)
    ensures r.status == Status
    ensures r.body.error != [] && r.body.errorDescription != []
    ensures r.body.error == OrDefault(Get(q, "error"), UnknownError)
    ensures r.body.errorDescription == OrDefault(Get(q, "error_description"), UnknownDescription)
  {
    Response(Status, Body(OrDefault(Get(q, "error"), UnknownError),
                          OrDefault(Get(q, "error_description"), UnknownDescription)))
  }

  /** Each field depends on its own parameter only: adding a pair for any
      other name leaves it alone. */
  lemma {:induction false} FieldsAreIndependent(q: Query, name: string, value: string)
    ensures name != "error" ==> Handle(q + [(name, value)]).body.error == Handle(q).body.error
    ensures name != "error_description" ==>
              Handle(q + [(name, value)]).body.errorDescription == Handle(q).body.errorDescription
  {
    if name != "error" {
      GetAppend(q, name, value, "error");
    }
    if name != "error_description" {
      GetAppend(q, name, value, "error_description");
    }
  }

  lemma {:induction false} GetAppend(q: Query, name: string, value: string, key: string)
    requires name != key
    ensures Get(q + [(name, value)], key) == Get(q, key)
  {
    if q != [] {
      assert (q + [(name, value)])[1..] == q[1..] + [(name, value)];
      GetAppend(q[1..], name, value, key);
    }
  }

  /** A concrete request: only the "error" parameter, so the description
      falls back to its default; an empty "error" falls back as well. */
  lemma Examples()
    ensures Handle([("error", "access_denied")]) == Response(400, Body("access_denied", UnknownDescription))
    ensures Handle([("error", ""), ("error", "late")]).body.error == UnknownError
  {
  }
}

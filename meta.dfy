/** The customsocket resource descriptor: its actions, the HTTP methods each
    action allows and its path template; the request a model hands to the
    HTTP layer; and the path resolver, which this model does not define. */
module CustomSocketMeta {
  import opened Wrappers
  import opened JsValues

  /** One action of a resource: the allowed methods (lower case, as the table
      writes them) and the path template with `{placeholder}` segments. */
  datatype ActionSpec = ActionSpec(methods: seq<string>, path: string)

  datatype ResourceMeta = ResourceMeta(
    name: string,
    pluralName: string,
    endpoints: map<string, ActionSpec>)

  /** The descriptor of the customsocket resource. */
  const Meta: ResourceMeta := ResourceMeta(
    "customsocket",
    "customsockets",
    map[
      "detail" := ActionSpec(["get", "put", "patch", "delete"],
                             "/v1.1/instances/{instanceName}/sockets/{name}/"),
      "recheck" := ActionSpec(["post"],
                              "/v1.1/instances/{instanceName}/sockets/{name}/recheck/"),
      "list" := ActionSpec(["post", "get"],
                           "/v1.1/instances/{instanceName}/sockets/"),
      "endpoint" := ActionSpec(["post", "get", "delete", "patch", "put"],
                               "/v1.1/instances/{instanceName}/endpoints/sockets/{endpoint_name}/")
    ])

  /** The action keys the builder and the model dispatch to. */
  const RecheckAction: string := "recheck"
  const EndpointAction: string := "endpoint"

  /** Errors raised before any request leaves the client. */
  datatype Error = ConfigurationError(message: string)

  /** `Meta.resolveEndpointPath(action, values)`: substitutes the placeholders
      of the action's template from the values. Its rules are not part of this
      model, so every operation that resolves a path takes it as a parameter. */
  type Resolver = (string, Object) -> Result<string, Error>

  /** What `makeRequest(method, path, options)` is handed. */
  datatype Request = Request(httpMethod: string, path: string, options: Object)

  /** ASCII lower case of one character. */
  function LowerChar(c: char): (r: char)
    ensures !('A' <= r <= 'Z')
    ensures !('A' <= c <= 'Z') ==> r == c
  {
    if 'A' <= c <= 'Z' then (c as int - 'A' as int + 'a' as int) as char else c
  }

  /** ASCII lower case of a method name, so that `POST` meets the table's `post`. */
  function Lower(s: string): (r: string)
    ensures |r| == |s|
    ensures forall i :: 0 <= i < |s| ==> r[i] == LowerChar(s[i])
    ensures forall i :: 0 <= i < |r| ==> !('A' <= r[i] <= 'Z')
  {
    if s == [] then [] else [LowerChar(s[0])] + Lower(s[1..])
  }

  /** The descriptor declares `action` and lists `httpMethod` among its methods. */
  predicate Allows(action: string, httpMethod: string) {
    action in Meta.endpoints && Lower(httpMethod) in Meta.endpoints[action].methods
  }

  /** The `recheck` action accepts POST and nothing else. */
  lemma RecheckAllowsOnlyPost(httpMethod: string)
    ensures Allows(RecheckAction, "POST")
    ensures Allows(RecheckAction, httpMethod) <==> Lower(httpMethod) == "post"
  {
    assert Lower("POST") == "post" by {
      assert "POST"[1..] == "OST" && "OST"[1..] == "ST" && "ST"[1..] == "T" && "T"[1..] == [];
    }
  }

  /** The `endpoint` action accepts GET, the builder's default method. */
  lemma EndpointAllowsGet()
    ensures Allows(EndpointAction, "GET")
  {
    assert Lower("GET") == "get" by {
      assert "GET"[1..] == "ET" && "ET"[1..] == "T" && "T"[1..] == [];
    }
  }
}

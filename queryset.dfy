/** The customsocket query builder: a pending request whose fields the
    chainable `recheck` and `runEndpoint` overwrite in place. */
module QuerySet {
  import opened Wrappers
  import opened JsValues
  import opened CustomSocketMeta

  /** The builder's request state: merged properties (they fill the path
      placeholders), HTTP method, action key, query payload, and whether the
      raw response is wanted. */
  datatype Pending = Pending(
    properties: Object,
    httpMethod: string,
    endpoint: string,
    query: Value,
    raw: bool)

  /** The state after `recheck(properties)`. */
  function Rechecked(s: Pending, properties: Object): (r: Pending)
    ensures r.properties.Keys == s.properties.Keys + properties.Keys
    ensures forall k :: k in properties ==> r.properties[k] == properties[k]
    ensures forall k :: k in s.properties && k !in properties ==> r.properties[k] == s.properties[k]
    ensures r.httpMethod == "POST" && r.endpoint == RecheckAction && r.raw
    ensures r.query == s.query
    ensures Allows(r.endpoint, r.httpMethod)
  {
    RecheckAllowsOnlyPost("POST");
    s.(properties := Assign(s.properties, properties),
       httpMethod := "POST",
       endpoint := RecheckAction,
       raw := true)
  }

  /** The state after `runEndpoint(properties, httpMethod, payload)`; an
      omitted method is GET and an omitted or `undefined` payload the empty
      object. */
  function RanEndpoint(s: Pending, properties: Object, httpMethod: Option<string>,
                       payload: Option<Value>): (r: Pending)
    ensures r.properties.Keys == s.properties.Keys + properties.Keys
    ensures forall k :: k in properties ==> r.properties[k] == properties[k]
    ensures forall k :: k in s.properties && k !in properties ==> r.properties[k] == s.properties[k]
    ensures httpMethod.Some? ==> r.httpMethod == httpMethod.value
    ensures httpMethod.None? ==> r.httpMethod == "GET" && Allows(r.endpoint, r.httpMethod)
    ensures r.endpoint == EndpointAction && r.raw
    ensures payload.Some? && payload.value != Undefined ==> r.query == payload.value
    ensures payload.None? || payload.value == Undefined ==> r.query == Obj(map[])
  {
    EndpointAllowsGet();
    Pending(Assign(s.properties, properties),
            httpMethod.GetOr("GET"),
            EndpointAction,
            WithDefault(payload, Obj(map[])),
            true)
  }

  /** `runEndpoint` replaces the query: what the builder held before has no
      effect on the result. */
  lemma RunEndpointReplacesQuery(s: Pending, t: Pending, properties: Object,
                                 httpMethod: Option<string>, payload: Option<Value>)
    requires s.properties == t.properties
    ensures RanEndpoint(s, properties, httpMethod, payload)
         == RanEndpoint(t, properties, httpMethod, payload)
  {
  }

  /** Chaining `recheck(p)` before `runEndpoint(q, …)` leaves only the merged
      properties behind: the method, action and query are runEndpoint's. */
  lemma RecheckThenRunEndpoint(s: Pending, p: Object, q: Object,
                               httpMethod: Option<string>, payload: Option<Value>)
    ensures RanEndpoint(Rechecked(s, p), q, httpMethod, payload)
         == RanEndpoint(s, Assign(p, q), httpMethod, payload)
  {
    AssignTwice(s.properties, p, q);
  }

  /** Calling `recheck(p)` twice is calling it once. */
  lemma RecheckIdempotent(s: Pending, p: Object)
    ensures Rechecked(Rechecked(s, p), p) == Rechecked(s, p)
  {
    AssignIdempotent(s.properties, p);
  }

  /** The builder object. */
  class CustomSocketQuerySet {
    var properties: Object
    var httpMethod: string
    var endpoint: string
    var query: Value
    var raw: bool

    /** The pending request this builder holds. */
    function State(): Pending
      reads this
    {
      Pending(properties, httpMethod, endpoint, query, raw)
    }

    /** A builder over the given initial request. */
    constructor (properties: Object, httpMethod: string, endpoint: string, query: Value)
      ensures State() == Pending(properties, httpMethod, endpoint, query, false)
    {
      this.properties := properties;
      this.httpMethod := httpMethod;
      this.endpoint := endpoint;
      this.query := query;
      this.raw := false;
    }

    /** `raw()`: ask for the raw response; returns the builder. */
    method Raw() returns (self: CustomSocketQuerySet)
      modifies this
      ensures self == this
      ensures State() == old(State()).(raw := true)
    {
      raw := true;
      self := this;
    }

    /** `recheck(properties)`: returns the builder itself. */
    method Recheck(properties: Object) returns (self: CustomSocketQuerySet)
      modifies this
      ensures self == this
      ensures State() == Rechecked(old(State()), properties)
    {
      this.properties := Assign(this.properties, properties);
      httpMethod := "POST";
      endpoint := RecheckAction;
      var _ := Raw();
      self := this;
    }

    /** `runEndpoint(properties, httpMethod, payload)`: returns the builder itself. */
    method RunEndpoint(properties: Object, httpMethod: Option<string>, payload: Option<Value>)
      returns (self: CustomSocketQuerySet)
      modifies this
      ensures self == this
      ensures State() == RanEndpoint(old(State()), properties, httpMethod, payload)
    {
      this.properties := Assign(this.properties, properties);
      this.httpMethod := httpMethod.GetOr("GET");
      endpoint := EndpointAction;
      query := WithDefault(payload, Obj(map[]));
      var _ := Raw();
      self := this;
    }
  }
}

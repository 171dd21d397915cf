/** The CustomSocket model object: its registry of script endpoints, kept
    twice (a map from endpoint name to its calls, and the list of endpoint
    records in the order they were added), and the two requests it can build. */
module CustomSocketModel {
  import opened Wrappers
  import opened JsValues
  import opened CustomSocketMeta

  /** An endpoint record as handed to `addEndpoint`: its name (absent in the
      default `{}`) and its script calls (`Undefined` when absent). */
  datatype Endpoint = Endpoint(name: Option<string>, scriptCalls: Value)

  /** The value stored under an endpoint's name: `{calls: scriptCalls}`. */
  datatype EndpointConfig = EndpointConfig(calls: Value)

  /** The property key JavaScript makes of the record's name; an absent name
      becomes the key "undefined". */
  function KeyOf(e: Endpoint): string {
    match e.name
    case Some(n) => n
    case None => "undefined"
  }

  /** The record carries a `name` property equal to `n`, which is what the
      matcher `{name: n}` tests. */
  predicate Named(e: Endpoint, n: string) {
    e.name == Some(n)
  }

  /** `_.reject(records, {name: n})`: the records not named `n`, in order. */
  function Reject(records: seq<Endpoint>, n: string): (r: seq<Endpoint>)
    ensures |r| <= |records|
    ensures forall e :: e in r <==> e in records && !Named(e, n)
  {
    if records == [] then []
    else
      assert records == [records[0]] + records[1..];
      if Named(records[0], n) then Reject(records[1..], n)
      else [records[0]] + Reject(records[1..], n)
  }

  /** A record not named `n` keeps its number of occurrences; one named `n`
      has none left. */
  lemma {:induction false} RejectCounts(records: seq<Endpoint>, n: string, e: Endpoint)
    ensures multiset(Reject(records, n))[e] == if Named(e, n) then 0 else multiset(records)[e]
  {
    if records != [] {
      assert records == [records[0]] + records[1..];
      RejectCounts(records[1..], n, e);
    }
  }

  /** Rejecting from a concatenation rejects from each part, keeping their order. */
  lemma {:induction false} RejectAppend(a: seq<Endpoint>, b: seq<Endpoint>, n: string)
    ensures Reject(a + b, n) == Reject(a, n) + Reject(b, n)
  {
    if a == [] {
      assert a + b == b;
    } else {
      assert (a + b)[0] == a[0] && (a + b)[1..] == a[1..] + b;
      RejectAppend(a[1..], b, n);
    }
  }

  /** A list with no record named `n` is left as it is. */
  lemma {:induction false} RejectNoneNamed(records: seq<Endpoint>, n: string)
    requires forall e :: e in records ==> !Named(e, n)
    ensures Reject(records, n) == records
  {
    if records != [] {
      RejectNoneNamed(records[1..], n);
    }
  }

  /** Rejecting twice is rejecting once. */
  lemma RejectIdempotent(records: seq<Endpoint>, n: string)
    ensures Reject(Reject(records, n), n) == Reject(records, n)
  {
    RejectNoneNamed(Reject(records, n), n);
  }

  /** Both endpoint structures of one socket. */
  datatype Registry = Registry(
    endpoints: map<string, EndpointConfig>,
    endpointObjects: seq<Endpoint>)

  /** The registry after `addEndpoint(e)`. */
  function Added(r: Registry, e: Endpoint): (r': Registry)
    ensures r'.endpoints.Keys == r.endpoints.Keys + {KeyOf(e)}
    ensures r'.endpoints[KeyOf(e)] == EndpointConfig(e.scriptCalls)
    ensures forall k :: k in r.endpoints && k != KeyOf(e) ==> r'.endpoints[k] == r.endpoints[k]
    ensures |r'.endpointObjects| == |r.endpointObjects| + 1
    ensures r'.endpointObjects[..|r.endpointObjects|] == r.endpointObjects
    ensures r'.endpointObjects[|r.endpointObjects|] == e
  {
    Registry(r.endpoints[KeyOf(e) := EndpointConfig(e.scriptCalls)], r.endpointObjects + [e])
  }

  /** The registry after `removeEndpoint(n)`. */
  function Removed(r: Registry, n: string): (r': Registry)
    ensures r'.endpoints.Keys == r.endpoints.Keys - {n}
    ensures forall k :: k in r'.endpoints ==> r'.endpoints[k] == r.endpoints[k]
    ensures forall e :: e in r'.endpointObjects <==> e in r.endpointObjects && !Named(e, n)
    ensures forall e :: !Named(e, n) ==> multiset(r'.endpointObjects)[e] == multiset(r.endpointObjects)[e]
  {
    forall e | !Named(e, n)
      ensures multiset(Reject(r.endpointObjects, n))[e] == multiset(r.endpointObjects)[e]
    {
      RejectCounts(r.endpointObjects, n, e);
    }
    Registry(r.endpoints - {n}, Reject(r.endpointObjects, n))
  }

  /** No record carries the name `n`. */
  predicate NoRecordNamed(records: seq<Endpoint>, n: string) {
    forall e :: e in records ==> !Named(e, n)
  }

  /** Removing a name that neither structure holds changes nothing. */
  lemma RemoveAbsentIsNoop(r: Registry, n: string)
    requires n !in r.endpoints && NoRecordNamed(r.endpointObjects, n)
    ensures Removed(r, n) == r
  {
    RejectNoneNamed(r.endpointObjects, n);
  }

  /** Removing the same name twice is removing it once. */
  lemma RemoveIdempotent(r: Registry, n: string)
    ensures Removed(Removed(r, n), n) == Removed(r, n)
  {
    RejectIdempotent(r.endpointObjects, n);
  }

  /** Adding an endpoint whose name is new and then removing that name
      restores both structures. */
  lemma AddThenRemove(r: Registry, e: Endpoint, n: string)
    requires e.name == Some(n)
    requires n !in r.endpoints && NoRecordNamed(r.endpointObjects, n)
    ensures Removed(Added(r, e), n) == r
  {
    RejectAppend(r.endpointObjects, [e], n);
    RejectNoneNamed(r.endpointObjects, n);
  }

  /** Every named record has an entry under its name in the map. */
  predicate Mirrored(r: Registry) {
    forall e :: e in r.endpointObjects && e.name.Some? ==> e.name.value in r.endpoints
  }

  /** Adding keeps the map covering the named records. */
  lemma AddKeepsMirrored(r: Registry, e: Endpoint)
    requires Mirrored(r)
    ensures Mirrored(Added(r, e))
  {
  }

  /** Removing keeps the map covering the named records. */
  lemma RemoveKeepsMirrored(r: Registry, n: string)
    requires Mirrored(r)
    ensures Mirrored(Removed(r, n))
  {
  }

  /** A record as the JavaScript object it is. */
  function EndpointValue(e: Endpoint): Value {
    var named := match e.name
      case Some(n) => map["name" := Str(n)]
      case None => map[];
    Obj(if e.scriptCalls == Undefined then named else named["scriptCalls" := e.scriptCalls])
  }

  /** The endpoints map as the JavaScript object it is. */
  function EndpointsValue(endpoints: map<string, EndpointConfig>): Value {
    Obj(map k | k in endpoints :: Obj(map["calls" := endpoints[k].calls]))
  }

  /** The record list as the JavaScript array it is. */
  function EndpointObjectsValue(records: seq<Endpoint>): Value {
    Arr(seq(|records|, i requires 0 <= i < |records| => EndpointValue(records[i])))
  }

  /** The names under which a socket's data carries its endpoint structures. */
  predicate IsRegistryKey(k: string) {
    k == "endpoints" || k == "endpointObjects"
  }

  /** A customsocket model instance. The JavaScript object has one property
      per field; here the two endpoint structures live in their own typed
      fields and `attrs` holds every other data field. */
  class CustomSocket {
    /** The instance's other data fields (instanceName, name, …). */
    var attrs: Object
    var endpoints: map<string, EndpointConfig>
    var endpointObjects: seq<Endpoint>

    /** `attrs` holds no endpoint structure: each property lives in one place. */
    ghost predicate Valid()
      reads this
    {
      forall k :: k in attrs ==> !IsRegistryKey(k)
    }

    /** Both endpoint structures. */
    function EndpointRegistry(): Registry
      reads this
    {
      Registry(endpoints, endpointObjects)
    }

    /** A new instance from data without endpoint structures: both take the
        defaults `{}` and `[]`. */
    constructor (attrs: Object)
      requires forall k :: k in attrs ==> !IsRegistryKey(k)
      ensures Valid()
      ensures this.attrs == attrs
      ensures EndpointRegistry() == Registry(map[], [])
      ensures Mirrored(EndpointRegistry())
    {
      this.attrs := attrs;
      endpoints := map[];
      endpointObjects := [];
    }

    /** A new instance from data that carries its endpoint structures (for
        example a socket read back from the server): `attrs` is the rest of
        the data, and the structures replace the defaults. */
    constructor WithEndpoints(attrs: Object, endpoints: map<string, EndpointConfig>,
                              endpointObjects: seq<Endpoint>)
      requires forall k :: k in attrs ==> !IsRegistryKey(k)
      ensures Valid()
      ensures this.attrs == attrs
      ensures EndpointRegistry() == Registry(endpoints, endpointObjects)
      ensures endpointObjects == [] ==> Mirrored(EndpointRegistry())
    {
      this.attrs := attrs;
      this.endpoints := endpoints;
      this.endpointObjects := endpointObjects;
    }

    /** The instance's own properties, as `this` shows them to the path
        resolver: the data fields and the two endpoint structures. */
    function OwnProperties(): (props: Object)
      reads this
      ensures props.Keys == attrs.Keys + {"endpoints", "endpointObjects"}
      ensures props["endpoints"] == EndpointsValue(endpoints)
      ensures props["endpointObjects"] == EndpointObjectsValue(endpointObjects)
      ensures forall k :: k in attrs && !IsRegistryKey(k) ==> props[k] == attrs[k]
      ensures Valid() ==> forall k :: k in attrs ==> props[k] == attrs[k]
    {
      attrs["endpoints" := EndpointsValue(endpoints)]["endpointObjects" := EndpointObjectsValue(endpointObjects)]
    }

    /** `recheck()`: a POST to the resolved `recheck` path, or the
        resolver's error. */
    function Recheck(resolve: Resolver): (r: Result<Request, Error>)
      reads this
      ensures r.Failure? <==> resolve(RecheckAction, OwnProperties()).Failure?
      ensures r.Failure? ==> r.error == resolve(RecheckAction, OwnProperties()).error
      ensures r.Success? ==> r.value.path == resolve(RecheckAction, OwnProperties()).value
      ensures r.Success? ==> r.value.httpMethod == "POST" && r.value.options == map[]
      ensures r.Success? ==> Allows(RecheckAction, r.value.httpMethod)
    {
      RecheckAllowsOnlyPost("POST");
      match resolve(RecheckAction, OwnProperties())
      case Success(path) => Success(Request("POST", path, map[]))
      case Failure(err) => Failure(err)
    }

    /** The values the `endpoint` path is resolved from: the instance's own
        properties with only `endpoint_name` overridden. */
    function EndpointValues(endpointName: string): (values: Object)
      reads this
      ensures values.Keys == OwnProperties().Keys + {"endpoint_name"}
      ensures values["endpoint_name"] == Str(endpointName)
      ensures forall k :: k in OwnProperties() && k != "endpoint_name"
                ==> values[k] == OwnProperties()[k]
    {
      Assign(OwnProperties(), map["endpoint_name" := Str(endpointName)])
    }

    /** `runEndpoint(endpointName, httpMethod, payload)`: a request with the
        caller's method to the resolved `endpoint` path, carrying the payload
        as its query, or the resolver's error. */
    function RunEndpoint(resolve: Resolver, endpointName: string, httpMethod: string,
                         payload: Value): (r: Result<Request, Error>)
      reads this
      ensures r.Failure? <==> resolve(EndpointAction, EndpointValues(endpointName)).Failure?
      ensures r.Failure? ==> r.error == resolve(EndpointAction, EndpointValues(endpointName)).error
      ensures r.Success? ==> r.value.path == resolve(EndpointAction, EndpointValues(endpointName)).value
      ensures r.Success? ==> r.value.httpMethod == httpMethod
      ensures r.Success? ==> r.value.options == map["query" := payload]
    {
      match resolve(EndpointAction, EndpointValues(endpointName))
      case Success(path) => Success(Request(httpMethod, path, map["query" := payload]))
      case Failure(err) => Failure(err)
    }

    /** `addEndpoint(e)`: both structures are replaced by updated copies;
        the data fields are untouched. */
    method AddEndpoint(e: Endpoint)
      modifies this
      ensures attrs == old(attrs)
      ensures EndpointRegistry() == Added(old(EndpointRegistry()), e)
      ensures Mirrored(old(EndpointRegistry())) ==> Mirrored(EndpointRegistry())
    {
      if Mirrored(EndpointRegistry()) {
        AddKeepsMirrored(EndpointRegistry(), e);
      }
      endpoints := endpoints[KeyOf(e) := EndpointConfig(e.scriptCalls)];
      endpointObjects := endpointObjects + [e];
    }

    /** `removeEndpoint(n)`: the key `n` goes from the map and every record
        named `n` from the list; the data fields are untouched. */
    method RemoveEndpoint(n: string)
      modifies this
      ensures attrs == old(attrs)
      ensures EndpointRegistry() == Removed(old(EndpointRegistry()), n)
      ensures Mirrored(old(EndpointRegistry())) ==> Mirrored(EndpointRegistry())
    {
      if Mirrored(EndpointRegistry()) {
        RemoveKeepsMirrored(EndpointRegistry(), n);
      }
      endpoints := endpoints - {n};
      endpointObjects := Reject(endpointObjects, n);
    }
  }
}

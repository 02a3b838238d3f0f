/** The parsed service description (`ServiceConfigurationReader`): servers,
    their services and the infrastructure settings, with the accessors the
    generator and the templates use. A Java `String` field that the JSON
    may leave out is an `Option<string>`. */
module ServiceConfiguration {
  import opened Base
  import opened JavaStrings

  /** What `get{Request,Response,Callback}ClassName` yields: null for a
      missing type, the simple class name, or the
      `ArrayIndexOutOfBoundsException` of a type name made of dots only. */
  datatype ClassName = Null | Simple(name: string) | IndexOutOfBounds

  /** The class name of an optional fully qualified type: the last
      '.'-separated segment of `split("\\.")`. */
  function ClassNameOf(fullType: Option<string>): (c: ClassName)
    ensures c.Null? <==> fullType.None?
    ensures c.IndexOutOfBounds? <==>
              fullType.Some? && |fullType.value| > 0 &&
              forall i :: 0 <= i < |fullType.value| ==> fullType.value[i] == '.'
    ensures fullType.Some? && '.' !in fullType.value ==> c == Simple(fullType.value)
    ensures c.Simple? ==> '.' !in c.name
  {
    match fullType
    case None => Null
    case Some(t) =>
      LastOfSplitUndefined(t);
      LastOfSplitDotFreeResult(t);
      if '.' !in t then LastOfSplitDotFree(t); Simple(t)
      else
        match LastOfSplit(t)
        case None => IndexOutOfBounds
        case Some(n) => Simple(n)
  }

  /** A qualified type `pkg.Name` has class name `Name`. */
  lemma ClassNameQualified(pkg: string, name: string)
    requires name != "" && '.' !in name
    ensures ClassNameOf(Some(pkg + "." + name)) == Simple(name)
  {
    LastOfSplitQualified(pkg, name);
  }

  /** `Service`: one operation of a server. */
  datatype Service = Service(
    serviceName: string,
    requestType: Option<string>,
    responseType: Option<string>,
    callbackType: Option<string>)
  {
    /** `hasResponse()` */
    predicate HasResponse() {
      responseType.Some?
    }

    /** `hasCallback()` */
    predicate HasCallback() {
      callbackType.Some?
    }

    /** `getServiceNameUpper()`: the name with its first character upper-cased.
        `substring(0, 1)` of an empty name throws, hence the requirement. */
    function ServiceNameUpper(): (u: string)
      requires serviceName != ""
      ensures |u| == |serviceName| && u[1..] == serviceName[1..]
      ensures !('a' <= u[0] <= 'z')
      ensures u[0] != serviceName[0] ==> 'a' <= serviceName[0] <= 'z' && u[0] as int == serviceName[0] as int - 32
    {
      [ToUpperAscii(serviceName[0])] + serviceName[1..]
    }

    function RequestClassName(): ClassName {
      ClassNameOf(requestType)
    }

    function ResponseClassName(): ClassName {
      ClassNameOf(responseType)
    }

    function CallbackClassName(): ClassName {
      ClassNameOf(callbackType)
    }
  }

  /** Upper-casing the first letter twice is the same as once, and a name
      that already starts with anything but a lower-case letter is kept. */
  lemma ServiceNameUpperIdempotent(s: Service)
    requires s.serviceName != ""
    ensures s.(serviceName := s.ServiceNameUpper()).ServiceNameUpper() == s.ServiceNameUpper()
    ensures !('a' <= s.serviceName[0] <= 'z') ==> s.ServiceNameUpper() == s.serviceName
  {
    var u := s.ServiceNameUpper();
    assert [u[0]] + u[1..] == u;
    if !('a' <= s.serviceName[0] <= 'z') {
      assert [s.serviceName[0]] + s.serviceName[1..] == s.serviceName;
    }
  }

  /** `Server`: a server, the port it listens on, the Java package of its
      generated code, and its services. */
  datatype Server = Server(name: string, port: int, javaPackage: string, services: seq<Service>)

  /** `Infrastructure`: the package of the shared runtime and the logging
      choice ("log4j", "System" or none). */
  datatype Infrastructure = Infrastructure(javaPackage: string, logging: Option<string>)

  /** `ServiceDescription`: the whole parsed JSON file. */
  datatype ServiceDescription = ServiceDescription(servers: seq<Server>, infrastructure: Infrastructure)

  /** The service called `name`, the first if several are. */
  function FindService(services: seq<Service>, name: string): (r: Option<Service>)
    ensures r.Some? ==> r.value in services && r.value.serviceName == name
    ensures r.None? ==> forall s :: s in services ==> s.serviceName != name
  {
    if services == [] then None
    else if services[0].serviceName == name then Some(services[0])
    else FindService(services[1..], name)
  }

  predicate DistinctNames(services: seq<Service>) {
    forall i, j :: 0 <= i < j < |services| ==> services[i].serviceName != services[j].serviceName
  }

  /** The services the templates turn into compilable Java: each has a
      non-empty name and a request type, and no two share a name (a name
      becomes a method, a field and an enum constant). */
  predicate WellFormed(services: seq<Service>) {
    DistinctNames(services) &&
    forall s :: s in services ==> s.serviceName != "" && s.requestType.Some?
  }

  /** With distinct names, looking a service up by its name finds it. */
  lemma {:induction false} FindServiceUnique(services: seq<Service>, j: nat)
    requires DistinctNames(services) && j < |services|
    ensures FindService(services, services[j].serviceName) == Some(services[j])
  {
    if j > 0 {
      assert services[0].serviceName != services[j].serviceName;
      assert DistinctNames(services[1..]) by {
        forall a, b | 0 <= a < b < |services| - 1
          ensures services[1..][a].serviceName != services[1..][b].serviceName
        {
          assert services[1..][a] == services[a + 1] && services[1..][b] == services[b + 1];
        }
      }
      FindServiceUnique(services[1..], j - 1);
      assert services[1..][j - 1] == services[j];
    }
  }

  /** Whether operation `op` is a service with a response. */
  predicate HasResponseService(services: seq<Service>, op: string) {
    FindService(services, op).Some? && FindService(services, op).value.HasResponse()
  }

  /** Whether operation `op` is a service with a callback. */
  predicate HasCallbackService(services: seq<Service>, op: string) {
    FindService(services, op).Some? && FindService(services, op).value.HasCallback()
  }

  /** With distinct names, "some listed service called `op` has a response"
      and the lookup agree. */
  lemma HasResponseServiceIff(services: seq<Service>, op: string)
    requires DistinctNames(services)
    ensures HasResponseService(services, op) <==>
              exists j :: 0 <= j < |services| && services[j].serviceName == op && services[j].HasResponse()
  {
    if j :| 0 <= j < |services| && services[j].serviceName == op && services[j].HasResponse() {
      FindServiceUnique(services, j);
    }
    if HasResponseService(services, op) {
      var s := FindService(services, op).value;
      var j :| 0 <= j < |services| && services[j] == s;
      assert services[j].serviceName == op && services[j].HasResponse();
    }
  }
}

/** `XsRPCJGenerator`: the command line, the order in which the source files
    are generated and where they go, and the lists the generator hands to the
    templates (the de-duplicated imports and the callback interface names). */
module Generator {
  import opened Base
  import opened JavaStrings
  import opened ServiceConfiguration

  const SERVER_SUB_PACKAGE: string := "server"
  const CLIENT_SUB_PACKAGE: string := "client"

  /** The runtime files copied from the infrastructure templates, in order. */
  const INFRASTRUCTURE_FILE_NAMES: seq<string> := [
    "ClientReplyHandler.java", "DataHandler.java", "ErrorHandler.java",
    "RemoteCommunicationsException.java", "RemoteCommunicationsErrorType.java",
    "ServiceProxy.java", "SocketDataTransceiver.java", "SocketDataTransceiverReaderThread.java"]

  const CLIENT_FLAG: string := "-client"
  const SERVER_FLAG: string := "-server"
  const INFRASTRUCTURE_FLAG: string := "-infrastructure"

  // ---------------------------------------------------------------------
  // The message-type counter

  /** `generatorCounter`: the proto template numbers the message types with it. */
  class GeneratorCounter {
    var count: int

    constructor ()
      ensures count == -1
    {
      count := -1;
    }

    /** `getNext()`: one more than the previous number. */
    method GetNext() returns (n: int)
      modifies this
      ensures n == old(count) + 1 && count == n
    {
      count := count + 1;
      n := count;
    }
  }

  /** The numbers `n` successive `getNext` calls on a fresh counter give:
      0, 1, ..., n - 1, so the message types are numbered densely from 0. */
  method DrawNumbers(n: nat) returns (numbers: seq<int>)
    ensures |numbers| == n
    ensures forall i :: 0 <= i < n ==> numbers[i] == i
  {
    var counter := new GeneratorCounter();
    numbers := [];
    while |numbers| < n
      invariant |numbers| <= n && counter.count == |numbers| - 1
      invariant forall i :: 0 <= i < |numbers| ==> numbers[i] == i
    {
      var k := counter.GetNext();
      numbers := numbers + [k];
    }
  }

  // ---------------------------------------------------------------------
  // Package paths

  /** `getFilePath(javaPackage, fileName)`: the package's directory (every
      '.' becomes '/'), then '/', then the file name. */
  function FilePath(javaPackage: string, fileName: string): (p: string)
    ensures |p| == |javaPackage| + 1 + |fileName|
    ensures forall i :: 0 <= i < |javaPackage| ==>
              p[i] == (if javaPackage[i] == '.' then '/' else javaPackage[i])
    ensures p[|javaPackage|] == '/' && p[|javaPackage| + 1..] == fileName
  {
    ReplaceChar(javaPackage, '.', '/') + "/" + fileName
  }

  /** The directory part of a path gives its package back. */
  lemma FilePathPackage(javaPackage: string, fileName: string)
    requires '/' !in javaPackage
    ensures ReplaceChar(FilePath(javaPackage, fileName)[..|javaPackage|], '/', '.') == javaPackage
  {
    var dir := FilePath(javaPackage, fileName)[..|javaPackage|];
    assert dir == ReplaceChar(javaPackage, '.', '/');
    ReplaceCharInverse(javaPackage, '.', '/');
  }

  /** Distinct (package, file) pairs go to distinct paths, as long as
      neither contains a '/'. */
  lemma FilePathInjective(p1: string, f1: string, p2: string, f2: string)
    requires '/' !in p1 && '/' !in p2 && '/' !in f1 && '/' !in f2
    requires FilePath(p1, f1) == FilePath(p2, f2)
    ensures p1 == p2 && f1 == f2
  {
    FilePathPackage(p1, f1);
    FilePathPackage(p2, f2);
  }

  // ---------------------------------------------------------------------
  // The import list

  function OptionalList(o: Option<string>): seq<string> {
    if o.Some? then [o.value] else []
  }

  /** A service's non-null types: request, response, callback. */
  function TypesOf(s: Service): seq<string> {
    OptionalList(s.requestType) + OptionalList(s.responseType) + OptionalList(s.callbackType)
  }

  /** Every non-null type of the services, in declaration order, repeats kept. */
  function DeclaredTypes(services: seq<Service>): seq<string>
    decreases |services|
  {
    if services == [] then []
    else DeclaredTypes(services[..|services| - 1]) + TypesOf(services[|services| - 1])
  }

  function AddIfAbsent(list: seq<string>, x: string): seq<string> {
    if x in list then list else list + [x]
  }

  /** The list with every repeat of an earlier element dropped. */
  function Dedup(xs: seq<string>): seq<string>
    decreases |xs|
  {
    if xs == [] then [] else AddIfAbsent(Dedup(xs[..|xs| - 1]), xs[|xs| - 1])
  }

  /** The position of the first `x` in `xs`. */
  function FirstIndex(xs: seq<string>, x: string): (k: nat)
    requires x in xs
    ensures k < |xs| && xs[k] == x && x !in xs[..k]
  {
    if xs[0] == x then 0
    else
      var k := 1 + FirstIndex(xs[1..], x);
      assert xs[..k] == [xs[0]] + xs[1..][..k - 1];
      k
  }

  lemma DedupSnoc(xs: seq<string>, x: string)
    ensures Dedup(xs + [x]) == AddIfAbsent(Dedup(xs), x)
  {
    assert (xs + [x])[..|xs|] == xs;
  }

  /** `Dedup` keeps exactly the elements of the list. */
  lemma {:induction false} DedupElements(xs: seq<string>)
    ensures forall x :: x in Dedup(xs) <==> x in xs
    decreases |xs|
  {
    if xs != [] {
      var init := xs[..|xs| - 1];
      DedupElements(init);
      assert xs == init + [xs[|xs| - 1]];
    }
  }

  /** `Dedup` keeps each element once. */
  lemma {:induction false} DedupDistinct(xs: seq<string>)
    ensures forall i, j :: 0 <= i < j < |Dedup(xs)| ==> Dedup(xs)[i] != Dedup(xs)[j]
    decreases |xs|
  {
    if xs != [] {
      var init, last := xs[..|xs| - 1], xs[|xs| - 1];
      DedupDistinct(init);
      var d0, d := Dedup(init), Dedup(xs);
      if last !in d0 {
        forall i, j | 0 <= i < j < |d|
          ensures d[i] != d[j]
        {
          if j == |d0| {
            assert d[i] in d0;
          }
        }
      }
    }
  }

  /** `Dedup` lists the elements in the order of their first occurrence. */
  lemma {:induction false} DedupFirstOccurrenceOrder(xs: seq<string>)
    ensures forall i, j :: 0 <= i < j < |Dedup(xs)| ==>
              Dedup(xs)[i] in xs && Dedup(xs)[j] in xs &&
              FirstIndex(xs, Dedup(xs)[i]) < FirstIndex(xs, Dedup(xs)[j])
    decreases |xs|
  {
    if xs != [] {
      var init, last := xs[..|xs| - 1], xs[|xs| - 1];
      assert xs == init + [last];
      DedupFirstOccurrenceOrder(init);
      DedupElements(init);
      DedupSnoc(init, last);
      var d0, d := Dedup(init), Dedup(xs);
      forall i, j | 0 <= i < j < |d|
        ensures d[i] in xs && d[j] in xs && FirstIndex(xs, d[i]) < FirstIndex(xs, d[j])
      {
        assert d[i] == d0[i] && d[i] in d0;
        FirstIndexSnoc(init, last, d[i]);
        if j < |d0| {
          assert d[j] == d0[j];
          FirstIndexSnoc(init, last, d[j]);
        } else {
          assert d[j] == last && last !in init;
          FirstIndexSnoc(init, last, last);
        }
      }
    } else {
      assert Dedup(xs) == [];
    }
  }

  lemma FirstIndexSnoc(init: seq<string>, last: string, x: string)
    requires x in init || x == last
    ensures x in init ==> FirstIndex(init + [last], x) == FirstIndex(init, x)
    ensures x !in init ==> FirstIndex(init + [last], x) == |init|
  {
    var xs := init + [last];
    var k := FirstIndex(xs, x);
    if x in init {
      var k0 := FirstIndex(init, x);
      assert xs[k0] == x;
    }
  }

  /** One `if (type != null && !classImports.contains(type)) add(type)`. */
  function AddOptional(list: seq<string>, o: Option<string>): seq<string> {
    if o.Some? && o.value !in list then list + [o.value] else list
  }

  lemma DedupOptional(xs: seq<string>, o: Option<string>)
    ensures Dedup(xs + OptionalList(o)) == AddOptional(Dedup(xs), o)
  {
    if o.Some? {
      DedupSnoc(xs, o.value);
    } else {
      assert xs + OptionalList(o) == xs;
    }
  }

  /** The three additions made for one service. */
  lemma DedupTypesOf(xs: seq<string>, s: Service)
    ensures Dedup(xs + TypesOf(s)) ==
              AddOptional(AddOptional(AddOptional(Dedup(xs), s.requestType), s.responseType), s.callbackType)
  {
    var a, b, c := OptionalList(s.requestType), OptionalList(s.responseType), OptionalList(s.callbackType);
    DedupOptional(xs, s.requestType);
    DedupOptional(xs + a, s.responseType);
    DedupOptional(xs + a + b, s.callbackType);
    AppendAssoc(xs + a, b, c);
    AppendAssoc(xs, a, b + c);
    AppendAssoc(a, b, c);
  }

  lemma DeclaredTypesSnoc(services: seq<Service>, i: nat)
    requires i < |services|
    ensures DeclaredTypes(services[..i + 1]) == DeclaredTypes(services[..i]) + TypesOf(services[i])
  {
    assert services[..i + 1][..i] == services[..i];
  }

  /** The `classImports` list built for the service interfaces, the client
      handler and the client implementation: every non-null request,
      response and callback type of the server's services, each once, in the
      order of first occurrence. */
  method ClassImports(services: seq<Service>) returns (imports: seq<string>)
    ensures imports == Dedup(DeclaredTypes(services))
  {
    imports := [];
    for i := 0 to |services|
      invariant imports == Dedup(DeclaredTypes(services[..i]))
    {
      var s := services[i];
      DeclaredTypesSnoc(services, i);
      DedupTypesOf(DeclaredTypes(services[..i]), s);
      if s.requestType.Some? && s.requestType.value !in imports {
        imports := imports + [s.requestType.value];
      }
      if s.responseType.Some? && s.responseType.value !in imports {
        imports := imports + [s.responseType.value];
      }
      if s.callbackType.Some? && s.callbackType.value !in imports {
        imports := imports + [s.callbackType.value];
      }
    }
    assert services[..|services|] == services;
  }

  /** Service `s` names type `t` as its request, response or callback type. */
  predicate Declares(s: Service, t: string) {
    s.requestType == Some(t) || s.responseType == Some(t) || s.callbackType == Some(t)
  }

  /** A type is declared by the services exactly when one of them names it. */
  lemma {:induction false} DeclaredTypesElements(services: seq<Service>, t: string)
    ensures t in DeclaredTypes(services) <==> exists s :: s in services && Declares(s, t)
    decreases |services|
  {
    if services != [] {
      DeclaredTypesElements(services[..|services| - 1], t);
      DeclaredTypesLast(services, t);
      ServicesSnoc(services, t);
    }
  }

  lemma DeclaredTypesLast(services: seq<Service>, t: string)
    requires services != []
    ensures t in DeclaredTypes(services) <==>
              t in DeclaredTypes(services[..|services| - 1]) || Declares(services[|services| - 1], t)
  {
    var init, last := DeclaredTypes(services[..|services| - 1]), TypesOf(services[|services| - 1]);
    assert DeclaredTypes(services) == init + last;
    InConcat(init, last, t);
    TypesOfDeclares(services[|services| - 1], t);
  }

  lemma InConcat(a: seq<string>, b: seq<string>, t: string)
    ensures t in a + b <==> t in a || t in b
  {
  }

  lemma TypesOfDeclares(s: Service, t: string)
    ensures t in TypesOf(s) <==> Declares(s, t)
  {
    var a, b, c := OptionalList(s.requestType), OptionalList(s.responseType), OptionalList(s.callbackType);
    InConcat(a, b, t);
    InConcat(a + b, c, t);
  }

  lemma ServicesSnoc(services: seq<Service>, t: string)
    requires services != []
    ensures (exists s :: s in services && Declares(s, t)) <==>
              (exists s :: s in services[..|services| - 1] && Declares(s, t)) || Declares(services[|services| - 1], t)
  {
    var init, last := services[..|services| - 1], services[|services| - 1];
    assert services == init + [last];
    if exists s :: s in services && Declares(s, t) {
      var s :| s in services && Declares(s, t);
      if s != last {
        assert s in init;
      }
    }
    if exists s :: s in init && Declares(s, t) {
      var s :| s in init && Declares(s, t);
      assert s in services;
    }
  }




  /** The import list holds every type some service names, each once. */
  lemma ImportListContents(services: seq<Service>, t: string)
    ensures t in Dedup(DeclaredTypes(services)) <==> exists s :: s in services && Declares(s, t)
  {
    DedupElements(DeclaredTypes(services));
    DeclaredTypesElements(services, t);
  }

  // ---------------------------------------------------------------------
  // Callback interfaces

  /** The services for which the callback-interface loops run to the end:
      for each service with a callback, `getServiceNameUpper` needs a
      non-empty name and `getClassName` a callback type that is not all dots
      (either exception ends the whole run). */
  predicate CallbackNamesDefined(services: seq<Service>) {
    forall s :: s in services && s.HasCallback() ==>
      s.serviceName != "" && ClassNameOf(s.callbackType) != IndexOutOfBounds
  }

  /** The callback interface of service `s` on server `serverName`. */
  function CallbackInterfaceName(serverName: string, s: Service, suffix: string): string
    requires s.serviceName != ""
  {
    serverName + s.ServiceNameUpper() + suffix
  }

  /** One callback interface name per service with a callback, in
      declaration order. */
  function CallbackNames(serverName: string, services: seq<Service>, suffix: string): seq<string>
    requires CallbackNamesDefined(services)
    decreases |services|
  {
    if services == [] then []
    else
      var last := services[|services| - 1];
      CallbackNames(serverName, services[..|services| - 1], suffix) +
      (if last.HasCallback() then [CallbackInterfaceName(serverName, last, suffix)] else [])
  }

  /** The names are exactly those of the services with a callback. */
  lemma {:induction false} CallbackNamesElements(serverName: string, services: seq<Service>, suffix: string, n: string)
    requires CallbackNamesDefined(services)
    ensures n in CallbackNames(serverName, services, suffix) <==>
              exists s :: s in services && s.HasCallback() && n == CallbackInterfaceName(serverName, s, suffix)
    decreases |services|
  {
    if services != [] {
      var init := services[..|services| - 1];
      CallbackNamesElements(serverName, init, suffix, n);
      assert services == init + [services[|services| - 1]];
    }
  }

  /** The callback interfaces of one server get the same name only when
      their services' names agree once upper-cased. */
  lemma CallbackInterfaceNameInjective(serverName: string, s1: Service, s2: Service, suffix: string)
    requires s1.serviceName != "" && s2.serviceName != ""
    requires CallbackInterfaceName(serverName, s1, suffix) == CallbackInterfaceName(serverName, s2, suffix)
    ensures s1.ServiceNameUpper() == s2.ServiceNameUpper()
  {
    var u1, u2 := s1.ServiceNameUpper(), s2.ServiceNameUpper();
    var n := CallbackInterfaceName(serverName, s1, suffix);
    assert |u1| == |u2|;
    assert u1 == n[|serverName|..|serverName| + |u1|];
    assert u2 == n[|serverName|..|serverName| + |u2|];
  }

  /** Two services whose names differ only in the case of the first letter
      get the same callback interface name, so their interface files are
      written to the same path. */
  lemma CallbackInterfaceNamesCanCollide()
    ensures var a := Service("notify", Some("p.Req"), None, Some("p.Note"));
            var b := Service("Notify", Some("p.Req"), None, Some("p.Note"));
            a.serviceName != b.serviceName &&
            CallbackNames("Chat", [a, b], "ClientCallback") ==
              ["Chat" + "Notify" + "ClientCallback", "Chat" + "Notify" + "ClientCallback"]
  {
    var a := Service("notify", Some("p.Req"), None, Some("p.Note"));
    var b := Service("Notify", Some("p.Req"), None, Some("p.Note"));
    UpperOfNotify(a);
    UpperOfNotify(b);
    PairCallbackNamesDefined(a, b);
    CallbackNamesOfPair("Chat", a, b, "ClientCallback");
  }

  lemma PairCallbackNamesDefined(a: Service, b: Service)
    requires a.serviceName != "" && b.serviceName != ""
    requires a.callbackType == b.callbackType == Some("p.Note")
    ensures CallbackNamesDefined([a, b])
  {
    assert "p.Note"[0] != '.';
  }

  lemma UpperOfNotify(s: Service)
    requires s.serviceName == "notify" || s.serviceName == "Notify"
    ensures s.ServiceNameUpper() == "Notify"
  {
    assert ToUpperAscii(s.serviceName[0]) == 'N';
    assert s.serviceName[1..] == "otify";
  }

  lemma CallbackNamesOfPair(serverName: string, a: Service, b: Service, suffix: string)
    requires a.HasCallback() && b.HasCallback() && CallbackNamesDefined([a, b])
    ensures CallbackNames(serverName, [a, b], suffix) ==
              [CallbackInterfaceName(serverName, a, suffix), CallbackInterfaceName(serverName, b, suffix)]
  {
    assert CallbackNames(serverName, [a], suffix) == [CallbackInterfaceName(serverName, a, suffix)] by {
      assert [a][..0] == [];
    }
    assert [a, b][..1] == [a];
  }

  // ---------------------------------------------------------------------
  // Output files

  /** The path of the generated source file of `className` in `javaPackage`. */
  function JavaFile(sourcePath: string, javaPackage: string, className: string): string {
    sourcePath + "/" + FilePath(javaPackage, className + ".java")
  }

  function JavaFiles(sourcePath: string, javaPackage: string, classNames: seq<string>): (paths: seq<string>)
    ensures |paths| == |classNames|
  {
    seq(|classNames|, i requires 0 <= i < |classNames| => JavaFile(sourcePath, javaPackage, classNames[i]))
  }

  function InfrastructureFiles(sourcePath: string, javaPackage: string): seq<string> {
    seq(|INFRASTRUCTURE_FILE_NAMES|, i requires 0 <= i < |INFRASTRUCTURE_FILE_NAMES| =>
          sourcePath + "/" + FilePath(javaPackage, INFRASTRUCTURE_FILE_NAMES[i]))
  }

  /** `generateServerFiles`: the server callback interfaces, then
      `<name>ServerService`, `<name>ClientHandler` and `<name>Server`, all in
      the `server` sub-package. */
  function ServerFiles(server: Server, sourcePath: string): seq<string>
    requires CallbackNamesDefined(server.services)
  {
    var pkg := server.javaPackage + "." + SERVER_SUB_PACKAGE;
    JavaFiles(sourcePath, pkg, CallbackNames(server.name, server.services, "ServerCallback")) +
    [JavaFile(sourcePath, pkg, server.name + "ServerService"),
     JavaFile(sourcePath, pkg, server.name + "ClientHandler"),
     JavaFile(sourcePath, pkg, server.name + "Server")]
  }

  /** `generateClientFiles`: the client callback interfaces, then
      `<name>ClientService` and `<name>ClientServiceImpl`, all in the
      `client` sub-package. */
  function ClientFiles(server: Server, sourcePath: string): seq<string>
    requires CallbackNamesDefined(server.services)
  {
    var pkg := server.javaPackage + "." + CLIENT_SUB_PACKAGE;
    JavaFiles(sourcePath, pkg, CallbackNames(server.name, server.services, "ClientCallback")) +
    [JavaFile(sourcePath, pkg, server.name + "ClientService"),
     JavaFile(sourcePath, pkg, server.name + "ClientServiceImpl")]
  }

  /** `generateProtoFile`: next to the source directory, in `proto`. */
  function ProtoFile(server: Server, sourcePath: string): string {
    sourcePath + "/../proto/" + server.name + "MessageContainer.proto"
  }

  /** The files written for one server. */
  function ServerOutputs(server: Server, client: bool, serverSide: bool, sourcePath: string): seq<string>
    requires CallbackNamesDefined(server.services)
  {
    (if serverSide then ServerFiles(server, sourcePath) else []) +
    (if client then ClientFiles(server, sourcePath) else []) +
    [ProtoFile(server, sourcePath)]
  }

  predicate AllCallbackNamesDefined(servers: seq<Server>) {
    forall srv :: srv in servers ==> CallbackNamesDefined(srv.services)
  }

  /** The files written for the servers, server by server. */
  function AllServerOutputs(servers: seq<Server>, client: bool, serverSide: bool, sourcePath: string): seq<string>
    requires AllCallbackNamesDefined(servers)
    decreases |servers|
  {
    if servers == [] then []
    else
      AllServerOutputs(servers[..|servers| - 1], client, serverSide, sourcePath) +
      ServerOutputs(servers[|servers| - 1], client, serverSide, sourcePath)
  }

  /** The files `generateSourceFiles` writes, in order. */
  function GeneratedFiles(desc: ServiceDescription, client: bool, serverSide: bool, infrastructure: bool,
                          sourcePath: string): seq<string>
    requires AllCallbackNamesDefined(desc.servers)
  {
    (if infrastructure then InfrastructureFiles(sourcePath, desc.infrastructure.javaPackage) else []) +
    AllServerOutputs(desc.servers, client, serverSide, sourcePath)
  }

  /** `generateClientCallbackInterfaces` / `generateServerCallbackInterfaces`:
      a file per service with a callback, named with `suffix`, in
      `subPackage`; the names are returned for the templates that implement
      them. */
  method GenerateCallbackInterfaces(server: Server, sourcePath: string, subPackage: string, suffix: string)
    returns (names: seq<string>, paths: seq<string>)
    requires CallbackNamesDefined(server.services)
    ensures names == CallbackNames(server.name, server.services, suffix)
    ensures paths == JavaFiles(sourcePath, server.javaPackage + "." + subPackage, names)
  {
    var pkg := server.javaPackage + "." + subPackage;
    names, paths := [], [];
    for i := 0 to |server.services|
      invariant names == CallbackNames(server.name, server.services[..i], suffix)
      invariant paths == JavaFiles(sourcePath, pkg, names)
    {
      var service := server.services[i];
      assert server.services[..i + 1][..i] == server.services[..i];
      if service.HasCallback() {
        var className := server.name + service.ServiceNameUpper() + suffix;
        names := names + [className];
        paths := paths + [JavaFile(sourcePath, pkg, className)];
      }
    }
    assert server.services[..|server.services|] == server.services;
  }

  method GenerateInfrastructureFiles(javaPackage: string, sourcePath: string) returns (paths: seq<string>)
    ensures paths == InfrastructureFiles(sourcePath, javaPackage)
  {
    paths := [];
    for i := 0 to |INFRASTRUCTURE_FILE_NAMES|
      invariant |paths| == i
      invariant forall k :: 0 <= k < i ==> paths[k] == sourcePath + "/" + FilePath(javaPackage, INFRASTRUCTURE_FILE_NAMES[k])
    {
      paths := paths + [sourcePath + "/" + FilePath(javaPackage, INFRASTRUCTURE_FILE_NAMES[i])];
    }
  }

  method GenerateServerFiles(server: Server, sourcePath: string) returns (paths: seq<string>)
    requires CallbackNamesDefined(server.services)
    ensures paths == ServerFiles(server, sourcePath)
  {
    var pkg := server.javaPackage + "." + SERVER_SUB_PACKAGE;
    var callbackInterfaces;
    callbackInterfaces, paths := GenerateCallbackInterfaces(server, sourcePath, SERVER_SUB_PACKAGE, "ServerCallback");
    paths := paths + [JavaFile(sourcePath, pkg, server.name + "ServerService")];
    paths := paths + [JavaFile(sourcePath, pkg, server.name + "ClientHandler")];
    paths := paths + [JavaFile(sourcePath, pkg, server.name + "Server")];
  }

  method GenerateClientFiles(server: Server, sourcePath: string) returns (paths: seq<string>)
    requires CallbackNamesDefined(server.services)
    ensures paths == ClientFiles(server, sourcePath)
  {
    var pkg := server.javaPackage + "." + CLIENT_SUB_PACKAGE;
    var callbackInterfaces;
    callbackInterfaces, paths := GenerateCallbackInterfaces(server, sourcePath, CLIENT_SUB_PACKAGE, "ClientCallback");
    paths := paths + [JavaFile(sourcePath, pkg, server.name + "ClientService")];
    paths := paths + [JavaFile(sourcePath, pkg, server.name + "ClientServiceImpl")];
  }

  /** `generateSourceFiles`: the infrastructure files if asked for, then for
      each server its server files and its client files if asked for, and
      always its proto file. The paths are returned in the order the files
      are written. */
  method GenerateSourceFiles(desc: ServiceDescription, client: bool, serverSide: bool, infrastructure: bool,
                             sourcePath: string) returns (written: seq<string>)
    requires AllCallbackNamesDefined(desc.servers)
    ensures written == GeneratedFiles(desc, client, serverSide, infrastructure, sourcePath)
  {
    written := [];
    if infrastructure {
      written := GenerateInfrastructureFiles(desc.infrastructure.javaPackage, sourcePath);
    }
    ghost var infrastructureFiles := written;
    for i := 0 to |desc.servers|
      invariant written == infrastructureFiles + AllServerOutputs(desc.servers[..i], client, serverSide, sourcePath)
    {
      var files := GenerateServerOutputs(desc.servers[i], client, serverSide, sourcePath);
      OutputsStep(desc.servers, i, client, serverSide, sourcePath);
      AppendAssoc(infrastructureFiles, AllServerOutputs(desc.servers[..i], client, serverSide, sourcePath), files);
      written := written + files;
    }
    assert desc.servers[..|desc.servers|] == desc.servers;
  }

  /** The body of the server loop of `generateSourceFiles`. */
  method GenerateServerOutputs(server: Server, client: bool, serverSide: bool, sourcePath: string)
    returns (files: seq<string>)
    requires CallbackNamesDefined(server.services)
    ensures files == ServerOutputs(server, client, serverSide, sourcePath)
  {
    files := [];
    if serverSide {
      files := GenerateServerFiles(server, sourcePath);
    }
    if client {
      var clientFiles := GenerateClientFiles(server, sourcePath);
      files := files + clientFiles;
    }
    files := files + [ProtoFile(server, sourcePath)];
  }

  lemma OutputsStep(servers: seq<Server>, i: nat, client: bool, serverSide: bool, sourcePath: string)
    requires i < |servers| && AllCallbackNamesDefined(servers)
    ensures AllServerOutputs(servers[..i + 1], client, serverSide, sourcePath) ==
              AllServerOutputs(servers[..i], client, serverSide, sourcePath) +
              ServerOutputs(servers[i], client, serverSide, sourcePath)
  {
    assert servers[..i + 1][..i] == servers[..i];
  }

  /** Each server's files end with its proto file, so with neither client nor
      server files asked for, exactly one proto file per server is written,
      in server order. */
  lemma {:induction false} ProtoFilesOnly(servers: seq<Server>, sourcePath: string)
    requires AllCallbackNamesDefined(servers)
    ensures AllServerOutputs(servers, false, false, sourcePath) ==
              seq(|servers|, i requires 0 <= i < |servers| => ProtoFile(servers[i], sourcePath))
    decreases |servers|
  {
    if servers != [] {
      var init := servers[..|servers| - 1];
      ProtoFilesOnly(init, sourcePath);
      var protos := seq(|servers|, i requires 0 <= i < |servers| => ProtoFile(servers[i], sourcePath));
      assert ServerOutputs(servers[|servers| - 1], false, false, sourcePath) == [protos[|servers| - 1]];
      assert protos == protos[..|servers| - 1] + [protos[|servers| - 1]];
    }
  }


  /** The infrastructure files come first, all in the infrastructure
      package's directory. */
  lemma InfrastructureFirst(desc: ServiceDescription, client: bool, serverSide: bool, sourcePath: string)
    requires AllCallbackNamesDefined(desc.servers)
    ensures var files := GeneratedFiles(desc, client, serverSide, true, sourcePath);
            var dir := sourcePath + "/" + ReplaceChar(desc.infrastructure.javaPackage, '.', '/') + "/";
            |files| >= 8 &&
            forall i :: 0 <= i < 8 ==> files[i] == dir + INFRASTRUCTURE_FILE_NAMES[i]
  {
  }

  /** Every path of the list starts with the string `prefix`. This is a
      textual fact: a path such as `prefix + "../proto/x"` starts with
      `prefix` but names a file outside that directory. */
  predicate AllUnder(prefix: string, files: seq<string>) {
    forall k :: 0 <= k < |files| ==> prefix <= files[k]
  }

  lemma AllUnderAppend(prefix: string, a: seq<string>, b: seq<string>)
    requires AllUnder(prefix, a) && AllUnder(prefix, b)
    ensures AllUnder(prefix, a + b)
  {
    forall k | 0 <= k < |a + b|
      ensures prefix <= (a + b)[k]
    {
      if k >= |a| {
        assert (a + b)[k] == b[k - |a|];
      }
    }
  }

  lemma PrefixOfAppend(a: string, b: string)
    ensures a <= a + b
  {
    assert (a + b)[..|a|] == a;
  }

  lemma JavaFilesUnder(sourcePath: string, javaPackage: string, classNames: seq<string>)
    ensures AllUnder(sourcePath + "/", JavaFiles(sourcePath, javaPackage, classNames))
  {
    forall k | 0 <= k < |classNames|
      ensures sourcePath + "/" <= JavaFiles(sourcePath, javaPackage, classNames)[k]
    {
      PrefixOfAppend(sourcePath + "/", FilePath(javaPackage, classNames[k] + ".java"));
    }
  }

  lemma ServerOutputsUnder(server: Server, client: bool, serverSide: bool, sourcePath: string)
    requires CallbackNamesDefined(server.services)
    ensures AllUnder(sourcePath + "/", ServerOutputs(server, client, serverSide, sourcePath))
  {
    var prefix := sourcePath + "/";
    var serverPackage := server.javaPackage + "." + SERVER_SUB_PACKAGE;
    var clientPackage := server.javaPackage + "." + CLIENT_SUB_PACKAGE;
    var serverNames := CallbackNames(server.name, server.services, "ServerCallback") +
                       [server.name + "ServerService", server.name + "ClientHandler", server.name + "Server"];
    var clientNames := CallbackNames(server.name, server.services, "ClientCallback") +
                       [server.name + "ClientService", server.name + "ClientServiceImpl"];
    assert ServerFiles(server, sourcePath) == JavaFiles(sourcePath, serverPackage, serverNames);
    assert ClientFiles(server, sourcePath) == JavaFiles(sourcePath, clientPackage, clientNames);
    JavaFilesUnder(sourcePath, serverPackage, serverNames);
    JavaFilesUnder(sourcePath, clientPackage, clientNames);
    var sides := (if serverSide then ServerFiles(server, sourcePath) else []) +
                 (if client then ClientFiles(server, sourcePath) else []);
    AllUnderAppend(prefix, if serverSide then ServerFiles(server, sourcePath) else [],
                   if client then ClientFiles(server, sourcePath) else []);
    PrefixOfAppend(prefix, "../proto/" + server.name + "MessageContainer.proto");
    assert ProtoFile(server, sourcePath) == prefix + ("../proto/" + server.name + "MessageContainer.proto");
    AllUnderAppend(prefix, sides, [ProtoFile(server, sourcePath)]);
  }

  /** Every path written for the servers is spelled from the source path and
      '/': the Java files lie in package directories below it, while each
      proto file is `sourcePath + "/../proto/" + name + "MessageContainer.proto"`,
      which starts with the same text but lies beside the source directory. */
  lemma {:induction false} AllUnderSourcePath(servers: seq<Server>, client: bool, serverSide: bool, sourcePath: string)
    requires AllCallbackNamesDefined(servers)
    ensures AllUnder(sourcePath + "/", AllServerOutputs(servers, client, serverSide, sourcePath))
    decreases |servers|
  {
    if servers != [] {
      AllUnderSourcePath(servers[..|servers| - 1], client, serverSide, sourcePath);
      ServerOutputsUnder(servers[|servers| - 1], client, serverSide, sourcePath);
      AllUnderAppend(sourcePath + "/", AllServerOutputs(servers[..|servers| - 1], client, serverSide, sourcePath),
                     ServerOutputs(servers[|servers| - 1], client, serverSide, sourcePath));
    }
  }

  // ---------------------------------------------------------------------
  // The command line

  /** What `main` does with its arguments: print the usage text, or generate
      with the chosen parts, the source path and the JSON file. */
  datatype Command =
    | Usage
    | Generate(client: bool, serverSide: bool, infrastructure: bool, sourcePath: string, jsonFile: string)

  /** `main(args)`: three to five arguments, at least one of the flags among
      them (any argument may be a flag, the paths included), the JSON file
      last and the source path just before it. */
  method ParseArguments(args: seq<string>) returns (c: Command)
    ensures c == Usage <==>
              |args| < 3 || |args| > 5 ||
              (CLIENT_FLAG !in args && SERVER_FLAG !in args && INFRASTRUCTURE_FLAG !in args)
    ensures c.Generate? ==>
              c.client == (CLIENT_FLAG in args) && c.serverSide == (SERVER_FLAG in args) &&
              c.infrastructure == (INFRASTRUCTURE_FLAG in args) &&
              c.jsonFile == args[|args| - 1] && c.sourcePath == args[|args| - 2]
  {
    if |args| < 3 || |args| > 5 {
      return Usage;
    }
    var client, serverSide, infrastructure := false, false, false;
    for i := 0 to |args|
      invariant client == (CLIENT_FLAG in args[..i])
      invariant serverSide == (SERVER_FLAG in args[..i])
      invariant infrastructure == (INFRASTRUCTURE_FLAG in args[..i])
    {
      assert args[..i + 1] == args[..i] + [args[i]];
      if args[i] == CLIENT_FLAG {
        client := true;
      } else if args[i] == SERVER_FLAG {
        serverSide := true;
      } else if args[i] == INFRASTRUCTURE_FLAG {
        infrastructure := true;
      }
    }
    assert args[..|args|] == args;
    if !(client || serverSide || infrastructure) {
      return Usage;
    }
    return Generate(client, serverSide, infrastructure, args[|args| - 2], args[|args| - 1]);
  }
}

// The browser view that serves a repository over HTTP: traversal, the handler table,
// the route scan of `__call__` and the service request of the smart protocol.

module View {
  import opened Wrappers
  import opened PyStrings
  import opened Repo
  import opened GitRequest
  import opened Routes

  // The service request.

  /** What `handle_service_request` ends in: a refusal with its body, or the hand-off to a protocol handler. */
  datatype ServiceOutcome =
    | Refused(body: string)
    | HandedOff(service: string, handler: ServiceHandler)

  /** `handlers.get(service, None)`: a missing key and a key registered as `None` both give `None`. */
  function HandlerFor(handlers: HandlerTable, service: string): (r: Option<ServiceHandler>)
    ensures service !in handlers ==> r == None
    ensures service in handlers ==> r == handlers[service]
    ensures r.Some? ==> service in handlers && handlers[service] == r
  {
    if service in handlers then handlers[service] else None
  }

  /** The service a match names: the matched text without its leading slashes. */
  function ServiceName(mat: Match): (r: string)
    ensures EndsWith(mat.text, r)
    ensures r == [] || r[0] != '/'
    ensures forall k :: 0 <= k < |mat.text| - |r| ==> mat.text[k] == '/'
  {
    LStrip(mat.text, '/')
  }

  /** The content type of a service's result. */
  function ResultType(service: string): (r: string)
  {
    "application/x-" + service + "-result"
  }

  /** The answer `handle_service_request` gives a service: its outcome, the headers it sends and its status. */
  datatype Reply = Reply(outcome: ServiceOutcome, headers: seq<Header>, status: Status)

  /**
   * A service without a handler is refused with 403 and "Unsupported service <name>" as a
   * plain-text body; a known service gets its result type, the no-cache headers and 200.
   */
  function ServiceReply(handlers: HandlerTable, service: string): (r: Reply)
    ensures r.outcome.Refused? <==> HandlerFor(handlers, service).None?
    ensures r.outcome.HandedOff? ==> r.outcome == HandedOff(service, HandlerFor(handlers, service).value)
    ensures |r.headers| > 0 && r.headers[0].0 == "Content-Type"
  {
    match HandlerFor(handlers, service)
    case None =>
      Reply(Refused("Unsupported service " + service), [("Content-Type", "text/plain")], Status(403, "Forbidden"))
    case Some(handler) =>
      Reply(HandedOff(service, handler), [("Content-Type", ResultType(service))] + NO_CACHE_HEADERS, Status(200, "OK"))
  }

  /**
   * The gate of the service request: the answer is 200 exactly when a handler is registered,
   * a refusal never carries the no-cache headers, and a hand-off always ends with them.
   */
  lemma ServiceGate(handlers: HandlerTable, service: string)
    ensures ServiceReply(handlers, service).status.code == 200 <==> HandlerFor(handlers, service).Some?
    ensures ServiceReply(handlers, service).outcome.Refused? <==> HandlerFor(handlers, service).None?
    ensures ServiceReply(handlers, service).outcome.Refused? ==>
      && ServiceReply(handlers, service).outcome.body == "Unsupported service " + service
      && ServiceReply(handlers, service).status == Status(403, "Forbidden")
      && forall h :: h in NO_CACHE_HEADERS ==> h !in ServiceReply(handlers, service).headers
    ensures ServiceReply(handlers, service).outcome.HandedOff? ==>
      && ServiceReply(handlers, service).outcome == HandedOff(service, HandlerFor(handlers, service).value)
      && ServiceReply(handlers, service).headers[1..] == NO_CACHE_HEADERS
      && ServiceReply(handlers, service).headers[0] == ("Content-Type", "application/x-" + service + "-result")
  {
    if HandlerFor(handlers, service).Some? {
      assert ServiceReply(handlers, service).headers[1..] == NO_CACHE_HEADERS;
    }
  }

  /**
   * `handle_service_request` up to the hand-off: it answers as `ServiceReply` says, setting the
   * no-cache headers for a known service and clearing the cache headers for a refused one.
   */
  method HandleServiceRequest(req: HTTPGitRequest, mat: Match) returns (out: ServiceOutcome)
    modifies req`headers, req`cacheHeaders, req.request.response
    ensures out == ServiceReply(req.handlers, ServiceName(mat)).outcome
    ensures req.cacheHeaders == if out.Refused? then [] else NO_CACHE_HEADERS
    ensures req.headers == old(req.headers) + ServiceReply(req.handlers, ServiceName(mat)).headers
    ensures req.request.response.sentHeaders == old(req.request.response.sentHeaders) + req.headers
    ensures req.request.response.status == Some(ServiceReply(req.handlers, ServiceName(mat)).status)
  {
    var service := ServiceName(mat);
    var handler := HandlerFor(req.handlers, service);
    if handler.None? {
      var body := req.Forbidden("Unsupported service " + service);
      out := Refused(body);
      return;
    }
    req.NoCache();
    OkStatusLine();
    HeaderBlockCached(req.headers, ResultType(service), NO_CACHE_HEADERS);
    var _ := req.Respond(HTTP_OK, ResultType(service), []);
    out := HandedOff(service, handler.value);
  }

  /** The two service routes name the upload and the receive service. */
  lemma ServiceRouteNames(path: string)
    ensures Search(SERVICES[8].pattern, path).Some? ==>
      ServiceName(Search(SERVICES[8].pattern, path).value) == "git-upload-pack"
    ensures Search(SERVICES[9].pattern, path).Some? ==>
      ServiceName(Search(SERVICES[9].pattern, path).value) == "git-receive-pack"
  {
    assert SERVICES[8].pattern == [Lit("/git-upload-pack")];
    assert SERVICES[9].pattern == [Lit("/git-receive-pack")];
    assert "/git-upload-pack" == "/" + "git-upload-pack";
    assert "/git-receive-pack" == "/" + "git-receive-pack";
    ServiceRouteName(SERVICES[8].pattern, path, "git-upload-pack");
    ServiceRouteName(SERVICES[9].pattern, path, "git-receive-pack");
  }

  /** A route whose pattern is "/" and a service name names that service. */
  lemma ServiceRouteName(p: Pattern, path: string, service: string)
    requires p == [Lit("/" + service)] && (service == [] || service[0] != '/')
    ensures Search(p, path).Some? ==> ServiceName(Search(p, path).value) == service
  {
    if Search(p, path).Some? {
      var m := Search(p, path).value;
      SearchSound(p, path);
      FitsLiteral("/" + service, m.text);
      assert ("/" + service)[1..] == service;
    }
  }

  lemma FitsLiteral(t: string, w: string)
    requires Fits([Lit(t)], w)
    ensures w == t
  {
    assert [Lit(t)][..0] == [];
  }

  // The handler table.

  /** The protocol handlers the view starts from. */
  const DEFAULT_HANDLERS: HandlerTable := map[
    "git-upload-pack" := Some(UploadPackHandler),
    "git-receive-pack" := Some(ReceivePackHandler)
  ]

  /** `dict(defaults)` updated with `overrides` when they are given: every key of either, the override winning. */
  function MergeHandlers(defaults: HandlerTable, overrides: Option<HandlerTable>): (r: HandlerTable)
    ensures overrides.None? ==> r == defaults
    ensures overrides.Some? ==> r.Keys == defaults.Keys + overrides.value.Keys
    ensures overrides.Some? ==> forall s :: s in overrides.value ==> r[s] == overrides.value[s]
    ensures overrides.Some? ==> forall s :: s in defaults && s !in overrides.value ==> r[s] == defaults[s]
  {
    if overrides.None? then defaults else defaults + overrides.value
  }

  /** With the default table, both service routes reach a handler. */
  lemma DefaultsServeBothRoutes(path: string)
    ensures Search(SERVICES[8].pattern, path).Some? ==>
      HandlerFor(MergeHandlers(DEFAULT_HANDLERS, None), ServiceName(Search(SERVICES[8].pattern, path).value))
        == Some(UploadPackHandler)
    ensures Search(SERVICES[9].pattern, path).Some? ==>
      HandlerFor(MergeHandlers(DEFAULT_HANDLERS, None), ServiceName(Search(SERVICES[9].pattern, path).value))
        == Some(ReceivePackHandler)
  {
    ServiceRouteNames(path);
  }

  // Traversal.

  /** `list.reverse()`: the array reversed in place. */
  method ReverseNames(a: array<string>)
    modifies a
    ensures a[..] == Reversed(old(a[..]))
  {
    var i := 0;
    while i < a.Length / 2
      invariant 0 <= i <= a.Length / 2
      invariant forall k :: 0 <= k < i ==> a[k] == old(a[a.Length - 1 - k]) && a[a.Length - 1 - k] == old(a[k])
      invariant forall k :: i <= k < a.Length - i ==> a[k] == old(a[k])
    {
      a[i], a[a.Length - 1 - i] := a[a.Length - 1 - i], a[i];
      i := i + 1;
    }
    assert forall k :: 0 <= k < a.Length ==> a[k] == Reversed(old(a[..]))[k];
  }

  /**
   * The subpath traversal builds: the stack holds the remaining names last-first, so the
   * subpath is "/" followed by `name` and then the remaining names in the order of the URL.
   */
  lemma SubpathShape(stack: seq<string>, name: string)
    requires stack != []
    ensures Join(Reversed(stack + [name, ""]), "/") == "/" + name + "/" + Join(Reversed(stack), "/")
    ensures StartsWith(Join(Reversed(stack + [name, ""]), "/"), "/" + name)
  {
    ReversedAppendTwo(stack, name, "");
    JoinAfterEmpty(name, Reversed(stack));
    PrefixOfConcat("/" + name, "/" + Join(Reversed(stack), "/"));
  }

  /** Joining an empty name, `name` and more names starts with the separator and `name`. */
  lemma JoinAfterEmpty(name: string, rest: seq<string>)
    requires rest != []
    ensures Join(["", name] + rest, "/") == "/" + name + "/" + Join(rest, "/")
  {
    assert ["", name] + rest == [""] + ([name] + rest);
    JoinCons("", [name] + rest, "/");
    JoinCons(name, rest, "/");
  }

  lemma PrefixOfConcat(a: string, b: string)
    ensures StartsWith(a + b, a)
  {
    assert (a + b)[..|a|] == a;
  }

  /** The result of `__call__`. */
  datatype CallOutcome =
    | NotSupported(body: string)
    | Service(index: nat, mat: Match, outcome: ServiceOutcome)
    | Delegated(index: nat, handler: Handler, mat: Match)

  class GitView {
    const request: HostRequest
    const backend: ResourceBackend
    const dumb: bool
    const handlers: HandlerTable
    var subpath: string

    /** `__init__`: a backend over the shared repository, and the default handlers updated with the given ones. */
    constructor (request: HostRequest, repo: MemoryRepo, dumb: bool, handlers: Option<HandlerTable>)
      ensures this.request == request && this.dumb == dumb
      ensures fresh(backend) && backend.repo == repo
      ensures this.handlers == MergeHandlers(DEFAULT_HANDLERS, handlers)
      ensures subpath == ""
    {
      this.request := request;
      this.backend := new ResourceBackend(repo);
      this.dumb := dumb;
      this.handlers := MergeHandlers(DEFAULT_HANDLERS, handlers);
      this.subpath := "";
    }

    /**
     * `publishTraverse`: when names remain, the subpath becomes them, with `name` and an empty
     * name, reversed and joined with "/"; in every case the stack is emptied and the view is returned.
     */
    method PublishTraverse(name: string) returns (view: GitView)
      modifies this`subpath, request`nameStack
      ensures view == this
      ensures request.nameStack == []
      ensures old(request.nameStack) == [] ==> subpath == old(subpath)
      ensures old(request.nameStack) != [] ==>
        subpath == "/" + name + "/" + Join(Reversed(old(request.nameStack)), "/")
    {
      var stack := request.nameStack;
      if stack != [] {
        var names := stack + [name, ""];
        var a := new string[|names|](i requires 0 <= i < |names| => names[i]);
        assert a[..] == names;
        ReverseNames(a);
        SubpathShape(stack, name);
        subpath := Join(a[..], "/");
      }
      request.nameStack := [];
      view := this;
    }

    /**
     * `__call__`: scan the route table for an entry of the request's method whose pattern is
     * found in the subpath. None found: 404 with the subpath in the body. A service entry runs
     * the service request; any other entry is handed its match.
     */
    method Call(order: seq<nat>) returns (out: CallOutcome)
      requires forall k :: 0 <= k < |order| ==> order[k] < |SERVICES|
      requires forall i :: 0 <= i < |SERVICES| ==> i in order
      modifies request.response
      ensures out.NotSupported? <==> forall i: nat :: !RouteMatches(i, request.requestMethod, subpath)
      ensures out.NotSupported? ==>
        && out.body == "Sorry, that method is not supported: " + subpath
        && request.response.sentHeaders == old(request.response.sentHeaders) + [("Content-Type", "text/plain")]
        && request.response.status == Some(Status(404, "Not Found"))
      ensures out.Delegated? ==>
        && RouteMatches(out.index, request.requestMethod, subpath)
        && out.handler == SERVICES[out.index].handler != ServiceRequest
        && Search(SERVICES[out.index].pattern, subpath) == Some(out.mat)
        && unchanged(request.response)
      ensures out.Service? ==>
        && RouteMatches(out.index, request.requestMethod, subpath)
        && SERVICES[out.index].handler == ServiceRequest
        && Search(SERVICES[out.index].pattern, subpath) == Some(out.mat)
        && var reply := ServiceReply(handlers, ServiceName(out.mat));
        && out.outcome == reply.outcome
        && request.response.sentHeaders == old(request.response.sentHeaders) + reply.headers
        && request.response.status == Some(reply.status)
    {
      var path := subpath;
      var req := new HTTPGitRequest(request, dumb, handlers);
      var selected := Scan(order, request.requestMethod, path);
      if selected.None? {
        var body := req.NotFound("Sorry, that method is not supported: " + path);
        out := NotSupported(body);
        return;
      }
      var sel := selected.value;
      if sel.handler == ServiceRequest {
        ghost var reply := ServiceReply(handlers, ServiceName(sel.mat));
        var outcome := HandleServiceRequest(req, sel.mat);
        assert req.headers == reply.headers;
        out := Service(sel.index, sel.mat, outcome);
      } else {
        out := Delegated(sel.index, sel.handler, sel.mat);
      }
    }
  }
}

/**
 * What the `Site` does with a request, as functions of its state: the
 * direction from the root (path cache first), `getResource`, the root verbs,
 * the request filters, the acceptance of the HTTP method, the error page and
 * the whole request cycle of `serve`. The `Site` class in sites.dfy performs
 * these steps and is proved against the functions here.
 */
module SiteSpec {
  import opened Wrappers
  import opened Values
  import opened Errors
  import opened Routing
  import opened Negotiation
  import opened Tree
  import opened Player

  /** What a request filter did: called back with data, called back with an error, or never called back. */
  datatype FilterResult = Pass(data: Value) | Fail(failure: Failure) | NoCallback

  /** A request filter, applied to the route and the parsed body. */
  type RequestFilter = (Route, Value) -> FilterResult

  /** The settings of the site other than its tree and its path cache. */
  datatype Config = Config(
    filters: map<string, RequestFilter>,
    filterOrder: seq<string>,
    enableFilters: bool,
    allowCors: bool,
    home: string,
    errorView: Option<string>)

  // ------------------------------------------------------- direction, lookup

  /**
   * `Site._getDirection`: a path-cache entry for the pathname wins; otherwise
   * one step from the root, which must select a child.
   */
  function RootDirection(root: Node, cache: PathCache, pathname: string, path: seq<string>): (d: Option<Direction>)
    ensures pathname in cache ==> d.Some? && d.value.resource == cache[pathname].resource
    ensures pathname !in cache ==> (d.Some? <==> StepDirection(root, path).resource.Some?)
    ensures pathname !in cache && d.Some? ==>
              d.value.resource == StepDirection(root, path).resource.value && |d.value.path| < |path|
  {
    if pathname in cache then Some(Direction(cache[pathname].resource, cache[pathname].path))
    else GetDirection(root, path)
  }

  /** A direction from the root names a node of the arena. */
  lemma RootDirectionInArena(a: Arena, cache: PathCache, pathname: string, path: seq<string>)
    requires WellFormed(a) && CacheValid(a, cache)
    ensures var d := RootDirection(a[Root], cache, pathname, path);
            d.Some? ==> d.value.resource in a
  {
    StepStaysInArena(a, Root, path);
  }

  /**
   * `getResource(pathname)` on node `from`, with `path` the parsed pathname:
   * the site consults its path cache, any other container only steps.
   */
  ghost function ResourceLookup(a: Arena, cache: PathCache, from: NodeId, pathname: string, path: seq<string>): Lookup
    requires WellFormed(a) && CacheValid(a, cache) && from in a
  {
    var d := if from == Root then RootDirection(a[Root], cache, pathname, path) else GetDirection(a[from], path);
    RootDirectionInArena(a, cache, pathname, path);
    StepStaysInArena(a, from, path);
    match d
    case None => NotFound
    case Some(dir) => Walk(a, Some(dir.resource), dir.path)
  }

  // ---------------------------------------------------------------- root verbs

  /** `format(template, pathname)` for the messages that quote the pathname. */
  function InRequest(prefix: string, pathname: string): string
  {
    prefix + " \"" + pathname + "\""
  }

  /**
   * The rejection of a root verb whose direction was not found. The messages
   * differ per verb; POST passes no code, hence 500.
   */
  function NoDirection(verb: Verb, pathname: string): (f: Failure)
    ensures f.RxErr? && f.err.name == Some(pathname)
    ensures f.err.httpCode == if verb == Post then 500 else 404
  {
    match verb
    case Head => PromiseError(InRequest("Resource not found or invalid in request", pathname), pathname, Some(404))
    case Post => PromiseError(InRequest("[error] Resource not found or invalid in request", pathname), pathname, None)
    case Delete =>
      PromiseError(InRequest("[site.delete]  [error] Resource not found or invalid in request", pathname), pathname, Some(404))
    case _ => PromiseError(InRequest("[error] Resource not found or invalid in request", pathname), pathname, Some(404))
  }

  /**
   * Whether a root verb forwards to a resource: more than one segment, and
   * not a static GET (served as a file) or a static DELETE (refused).
   */
  predicate Forwards(route: Route, verb: Verb)
  {
    |route.path| > 1 && !(route.isStatic && (verb == Get || verb == Delete))
  }

  /** What a root verb answers by itself when it does not forward. */
  function RootReply(home: string, route: Route, verb: Verb): (r: VerbResult)
    requires !Forwards(route, verb)
    ensures verb == Get && route.isStatic ==> r == Resolved(StaticFile(route.pathname))
    ensures verb == Delete && route.isStatic ==> r.Rejected? && FailureCode(r.failure) == 500
    ensures verb == Head ==> r == Resolved(if home == "/" then SiteView else HomeRedirect(home))
    ensures verb == Post || verb == Patch || verb == Put ==> r.Rejected? && FailureCode(r.failure) == 404
    ensures r.Resolved? ==> verb == Get || verb == Head
  {
    var pn := route.pathname;
    match verb
    case Get =>
      if route.isStatic then Resolved(StaticFile(pn))
      else if |route.path| > 0 && route.path[0] == "site" && home == "/" then Resolved(SiteView)
      else if home != "/" then Resolved(HomeRedirect(home))
      else Rejected(PromiseError(InRequest("[error] Root Resource not found or invalid in request", pn), pn, Some(404)))
    case Head => Resolved(if home == "/" then SiteView else HomeRedirect(home))
    case Post => Rejected(PromiseError(InRequest("[error] Invalid in request", pn), pn, Some(404)))
    case Patch => Rejected(PromiseError(InRequest("[error] Invalid in request", pn), pn, Some(404)))
    case Put => Rejected(PromiseError(InRequest("[error] Invalid PUT request", pn), pn, Some(404)))
    case Delete =>
      if route.isStatic then Rejected(PromiseError("DELETE not supported on static resources", pn, None))
      else Rejected(PromiseError(InRequest("[error] Invalid DELETE request", pn), pn, Some(404)))
  }

  /**
   * `Site.head/get/post/patch/put/delete`: forward along the direction
   * (the resource's verb receives the route with the direction's path), or
   * answer at the root.
   */
  ghost function RootRun(a: Arena, cache: PathCache, home: string, route: Route, verb: Verb, body: Value,
                         filters: map<string, Value>, outcome: HandlerOutcome): (r: Run)
    requires WellFormed(a) && CacheValid(a, cache)
    ensures WellFormed(r.nodes) && r.nodes.Keys == a.Keys && CacheValid(r.nodes, r.cache)
    ensures verb != Get ==> r.cache == cache
  {
    if !Forwards(route, verb) then Run(a, cache, RootReply(home, route, verb))
    else
      RootDirectionInArena(a, cache, route.pathname, route.path);
      match RootDirection(a[Root], cache, route.pathname, route.path)
      case None => Run(a, cache, Rejected(NoDirection(verb, route.pathname)))
      case Some(d) => PlayerRun(a, cache, d.resource, route.(path := d.path), verb, body, filters, outcome)
  }

  /** A forwarded verb without a direction rejects with its "not found" error and changes nothing. */
  lemma RootRunWithoutDirection(a: Arena, cache: PathCache, home: string, route: Route, verb: Verb, body: Value,
                                filters: map<string, Value>, outcome: HandlerOutcome)
    requires WellFormed(a) && CacheValid(a, cache) && Forwards(route, verb)
    requires RootDirection(a[Root], cache, route.pathname, route.path).None?
    ensures RootRun(a, cache, home, route, verb, body, filters, outcome) ==
              Run(a, cache, Rejected(NoDirection(verb, route.pathname)))
  {
  }

  /** A forwarded verb with a direction is the verb of the resource it names, on the direction's path. */
  lemma RootRunAlongDirection(a: Arena, cache: PathCache, home: string, route: Route, verb: Verb, body: Value,
                              filters: map<string, Value>, outcome: HandlerOutcome)
    requires WellFormed(a) && CacheValid(a, cache) && Forwards(route, verb)
    requires RootDirection(a[Root], cache, route.pathname, route.path).Some?
    ensures var d := RootDirection(a[Root], cache, route.pathname, route.path).value;
            d.resource in a &&
            RootRun(a, cache, home, route, verb, body, filters, outcome) ==
              PlayerRun(a, cache, d.resource, route.(path := d.path), verb, body, filters, outcome)
  {
    RootDirectionInArena(a, cache, route.pathname, route.path);
  }

  // ------------------------------------------------------------------ filters

  /** The settled promise of `_checkFilters`, or none. */
  datatype FilterVerdict = Passed(data: map<string, Value>) | Blocked(failure: Failure) | Stalled

  /** The first failure among the first `n` results. */
  function FirstFail(results: seq<FilterResult>, n: nat): (f: Option<Failure>)
    requires n <= |results|
    ensures f.None? <==> forall i :: 0 <= i < n ==> !results[i].Fail?
    ensures f.Some? ==> exists i :: 0 <= i < n && results[i] == Fail(f.value) &&
                                    forall j :: 0 <= j < i ==> !results[j].Fail?
  {
    if n == 0 then None
    else
      var f := FirstFail(results, n - 1);
      if f.Some? then f else if results[n - 1].Fail? then Some(results[n - 1].failure) else None
  }

  /** The data of the first `n` filters whose result is truthy, under their names. */
  function Collected(order: seq<string>, results: seq<FilterResult>, n: nat): map<string, Value>
    requires |order| == |results| && n <= |results|
  {
    if n == 0 then map[]
    else
      var m := Collected(order, results, n - 1);
      if results[n - 1].Pass? && Truthy(results[n - 1].data) then m[order[n - 1] := results[n - 1].data] else m
  }

  /** Every registered filter applied to the route and the body, in registration order. */
  function FilterResults(filters: map<string, RequestFilter>, order: seq<string>, route: Route, body: Value)
    : (rs: seq<FilterResult>)
    requires forall i :: 0 <= i < |order| ==> order[i] in filters
    ensures |rs| == |order| && forall i :: 0 <= i < |order| ==> rs[i] == filters[order[i]](route, body)
  {
    seq(|order|, i requires 0 <= i < |order| => filters[order[i]](route, body))
  }

  /**
   * `_checkFilters`: nothing runs when filtering is off or no filter is
   * registered; otherwise every filter runs, a failure rejects (the first in
   * registration order), a filter that never calls back keeps the promise
   * pending, and otherwise the truthy data is collected by filter name.
   */
  function FiltersSpec(cfg: Config, route: Route, body: Value): FilterVerdict
    requires forall i :: 0 <= i < |cfg.filterOrder| ==> cfg.filterOrder[i] in cfg.filters
  {
    if !cfg.enableFilters || |cfg.filters| == 0 then Passed(map[])
    else
      Verdict(cfg.filterOrder, FilterResults(cfg.filters, cfg.filterOrder, route, body))
  }

  /** How the results of all filters settle `_checkFilters`. */
  function Verdict(order: seq<string>, rs: seq<FilterResult>): FilterVerdict
    requires |order| == |rs|
  {
    var f := FirstFail(rs, |rs|);
    if f.Some? then Blocked(f.value)
    else if exists i :: 0 <= i < |rs| && rs[i].NoCallback? then Stalled
    else Passed(Collected(order, rs, |rs|))
  }

  /** `order` without `name`: the registration order once that filter is deleted. */
  function Unlisted(order: seq<string>, name: string): (r: seq<string>)
    ensures forall x :: x in r <==> x in order && x != name
  {
    if |order| == 0 then []
    else if order[0] == name then Unlisted(order[1..], name)
    else [order[0]] + Unlisted(order[1..], name)
  }

  /** No name occurs twice. */
  predicate Distinct(s: seq<string>)
  {
    forall i, j :: 0 <= i < j < |s| ==> s[i] != s[j]
  }

  /** Deleting a name from a list without repetitions leaves one without repetitions. */
  lemma {:induction false} UnlistedDistinct(order: seq<string>, name: string)
    requires Distinct(order)
    ensures Distinct(Unlisted(order, name))
  {
    if |order| > 0 {
      var rest := Unlisted(order[1..], name);
      UnlistedDistinct(order[1..], name);
      if order[0] != name {
        assert order[0] !in order[1..];
        var r := [order[0]] + rest;
        forall i, j | 0 <= i < j < |r|
          ensures r[i] != r[j]
        {
          if i == 0 {
            assert r[j] in rest;
          } else {
            assert r[i] == rest[i - 1] && r[j] == rest[j - 1];
          }
        }
      }
    }
  }

  /** A name is collected exactly when one of its filters passed truthy data; the last such data wins. */
  lemma {:induction false} CollectedHolds(order: seq<string>, results: seq<FilterResult>, n: nat, k: string)
    requires |order| == |results| && n <= |results|
    ensures k in Collected(order, results, n) <==>
              exists i :: 0 <= i < n && order[i] == k && results[i].Pass? && Truthy(results[i].data)
    ensures k in Collected(order, results, n) ==>
              exists i :: 0 <= i < n && order[i] == k && results[i].Pass? &&
                          Collected(order, results, n)[k] == results[i].data
  {
    if n > 0 {
      CollectedHolds(order, results, n - 1, k);
    }
  }

  // ----------------------------------------------------------- HTTP methods

  /** `toLowerCase` on ASCII letters. */
  function Lower(s: string): (t: string)
    ensures |t| == |s|
    ensures forall i :: 0 <= i < |s| ==> t[i] == if 'A' <= s[i] <= 'Z' then s[i] - 'A' + 'a' else s[i]
  {
    if |s| == 0 then "" else [if 'A' <= s[0] <= 'Z' then s[0] - 'A' + 'a' else s[0]] + Lower(s[1..])
  }

  /** The verb methods of the site, by their lower-case names. */
  function MethodVerb(m: string): Option<Verb>
  {
    if m == "head" then Some(Head)
    else if m == "get" then Some(Get)
    else if m == "post" then Some(Post)
    else if m == "patch" then Some(Patch)
    else if m == "put" then Some(Put)
    else if m == "delete" then Some(Delete)
    else None
  }

  /** How `serve` takes an HTTP method: a verb method of the site, a CORS preflight, or a 403. */
  datatype Acceptance = Supported(verb: Verb) | Preflight(headers: map<string, string>) | Refused(failure: Failure)

  const CorsPreflightHeaders: map<string, string> :=
    map["Access-Control-Allow-Origin" := "*", "Access-Control-Allow-Methods" := "POST, GET, OPTIONS, PATCH, DELETE"]

  function Accept(httpMethod: string, allowCors: bool): (acc: Acceptance)
    ensures acc.Supported? <==> MethodVerb(Lower(httpMethod)).Some?
    ensures acc.Supported? ==> acc.verb == MethodVerb(Lower(httpMethod)).value
    ensures acc.Preflight? <==> Lower(httpMethod) == "options" && allowCors
    ensures acc.Preflight? ==> acc.headers == CorsPreflightHeaders
    ensures acc.Refused? ==> acc.failure.RxErr? && acc.failure.err.httpCode == 403 &&
                             acc.failure.err.name == Some("request not supported")
  {
    var m := Lower(httpMethod);
    match MethodVerb(m)
    case Some(v) => Supported(v)
    case None =>
      if m == "options" && allowCors then Preflight(CorsPreflightHeaders)
      else Refused(RxErr(NewRxError("Requst " + m + " not allowed", Some("request not supported"), Some(403), None)))
  }

  /** Lower-casing twice is lower-casing once. */
  lemma LowerIdempotent(s: string)
    ensures Lower(Lower(s)) == Lower(s)
  {
  }

  /** The method is taken without regard to letter case. */
  lemma AcceptIgnoresCase(httpMethod: string, allowCors: bool)
    ensures Accept(Lower(httpMethod), allowCors) == Accept(httpMethod, allowCors)
  {
    LowerIdempotent(httpMethod);
  }

  // ------------------------------------------------------------ error pages

  /** How `_outputError` renders: the custom error view, or a built-in HTML, XML or JSON page. */
  datatype PageKind = ErrorView(view: string) | HtmlPage | XmlPage | JsonPage

  /** The error reply: its kind, content type, status and the error's message. */
  datatype ErrorPage = ErrorPage(kind: PageKind, mimeType: string, httpCode: int, message: string)

  /**
   * `_outputError(response, error, format)`: the first media type of the
   * format chooses the page; the status is the error's own code, 500 when it
   * has none.
   */
  function OutputError(f: Failure, format: string, errorView: Option<string>): (p: ErrorPage)
    ensures p.httpCode == FailureCode(f) && p.mimeType == Word(format, false)
    ensures p.message == if f.RxErr? then f.err.message else f.what
    ensures p.kind.ErrorView? <==> p.mimeType == Html && errorView.Some? && errorView.value != ""
    ensures p.kind.ErrorView? ==> p.kind.view == errorView.value
    ensures p.kind == HtmlPage <==> p.mimeType == Html && (errorView.None? || errorView.value == "")
    ensures p.kind == XmlPage <==> p.mimeType == AppXml || p.mimeType == TextXml
  {
    var mime := Word(format, false);
    var kind :=
      if mime == Html then (if errorView.Some? && errorView.value != "" then ErrorView(errorView.value) else HtmlPage)
      else if mime == AppXml || mime == TextXml then XmlPage
      else JsonPage;
    ErrorPage(kind, mime, FailureCode(f), if f.RxErr? then f.err.message else f.what)
  }

  // ------------------------------------------------------- the request cycle

  /**
   * The additional headers of a served embodiment: the ones its verb gave it
   * (the resource's headers for a view, the response's for a serialized or
   * raw reply, a collaborator's own otherwise), or a map that
   * `setAdditionalHeaders` put in their place.
   */
  datatype AdditionalHeaders = VerbHeaders | ReplacedBy(headers: map<string, string>)

  /** What `serve` writes for one request, if anything. */
  datatype ServerReply =
    | Served(delivery: Delivery, additional: AdditionalHeaders)
    | PreflightServed(outFormat: string, headers: map<string, string>)
    | ErrorServed(page: ErrorPage)
    | NoReply

  /** The state after a request, and what was written. */
  datatype Exchange = Exchange(nodes: Arena, cache: PathCache, reply: ServerReply)

  /** The header `serve` sets on every resolved reply when CORS is allowed. */
  const CorsOrigin: map<string, string> := map["Access-Control-Allow-Origin" := "*"]

  /**
   * The headers `Embodiment.serve` writes besides its content headers, when the
   * model knows them: a replacement map, or the headers the verb gave the
   * embodiment (none when the response had none). `None` for a reply built
   * by a collaborator, whose own headers are not part of this model.
   */
  function WrittenHeaders(s: ServerReply): Option<map<string, string>>
    requires s.Served?
  {
    match s.additional
    case ReplacedBy(h) => Some(h)
    case VerbHeaders =>
      match s.delivery
      case Template(_, _, _, _, _, h) => Some(h)
      case Serialized(_, _, _, _, _, h) => Some(h.GetOr(map[]))
      case Raw(_, _, _, _, h) => Some(h.GetOr(map[]))
      case _ => None
  }

  /**
   * A settled verb is served or reported as an error page. With CORS allowed,
   * `setAdditionalHeaders` replaces whatever headers the reply carried by the
   * origin header alone; otherwise the reply keeps its own.
   */
  function Settle(r: VerbResult, allowCors: bool, errorView: Option<string>, outFormat: string): (s: ServerReply)
    ensures r.Resolved? ==> s.Served? && s.delivery == r.delivery
    ensures r.Resolved? && allowCors ==> WrittenHeaders(s) == Some(CorsOrigin)
    ensures r.Resolved? && !allowCors ==> s.additional == VerbHeaders
    ensures r.Rejected? ==> s == ErrorServed(OutputError(r.failure, outFormat, errorView))
    ensures r.Pending? ==> s == NoReply
  {
    match r
    case Resolved(d) => Served(d, if allowCors then ReplacedBy(CorsOrigin) else VerbHeaders)
    case Rejected(f) => ErrorServed(OutputError(f, outFormat, errorView))
    case Pending => NoReply
  }

  /**
   * The request handler of `serve`: the site records the request cookies;
   * the method is accepted, or answered as a preflight or a 403; then the
   * request is served.
   */
  ghost function HandleSpec(a: Arena, cache: PathCache, cfg: Config, route: Route, httpMethod: string,
                            body: Result<Value, Failure>, outcome: HandlerOutcome): (x: Exchange)
    requires WellFormed(a) && CacheValid(a, cache)
    requires forall i :: 0 <= i < |cfg.filterOrder| ==> cfg.filterOrder[i] in cfg.filters
  {
    var a0 := a[Root := a[Root].(cookies := route.cookies)];
    SetNode(a, Root, a0[Root]);
    var acc := Accept(httpMethod, cfg.allowCors);
    if acc.Supported? then ServeSpec(a0, cache, cfg, route, acc.verb, body, outcome)
    else Exchange(a0, cache, Unaccepted(acc, route.outFormat, cfg.errorView))
  }

  /** The answer to a method that is not served: the 403 page, or the preflight headers. */
  function Unaccepted(acc: Acceptance, outFormat: string, errorView: Option<string>): (s: ServerReply)
    requires !acc.Supported?
  {
    if acc.Refused? then ErrorServed(OutputError(acc.failure, outFormat, errorView))
    else PreflightServed(outFormat, acc.headers)
  }

  /**
   * An accepted request: a body that failed to parse is reported; the
   * filters run; a blocked request is reported, a stalled one never
   * answered; otherwise the site's verb runs with the filter data and its
   * result is served.
   */
  ghost function ServeSpec(a: Arena, cache: PathCache, cfg: Config, route: Route, verb: Verb,
                           body: Result<Value, Failure>, outcome: HandlerOutcome): (x: Exchange)
    requires WellFormed(a) && CacheValid(a, cache)
    requires forall i :: 0 <= i < |cfg.filterOrder| ==> cfg.filterOrder[i] in cfg.filters
  {
    match body
    case Failure(f) => Exchange(a, cache, ErrorServed(OutputError(f, route.outFormat, cfg.errorView)))
    case Success(v) => Filtered(a, cache, cfg, route, verb, v, FiltersSpec(cfg, route, v), outcome)
  }

  /** A parsed request once the filters gave their verdict. */
  ghost function Filtered(a: Arena, cache: PathCache, cfg: Config, route: Route, verb: Verb, body: Value,
                          verdict: FilterVerdict, outcome: HandlerOutcome): (x: Exchange)
    requires WellFormed(a) && CacheValid(a, cache)
  {
    match verdict
    case Blocked(f) => Exchange(a, cache, ErrorServed(OutputError(f, route.outFormat, cfg.errorView)))
    case Stalled => Exchange(a, cache, NoReply)
    case Passed(fd) =>
      var run := RootRun(a, cache, cfg.home, route, verb, body, fd, outcome);
      Exchange(run.nodes, run.cache, Settle(run.result, cfg.allowCors, cfg.errorView, route.outFormat))
  }
}

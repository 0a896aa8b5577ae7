/**
 * The part of a parsed request the dispatcher reads. Parsing itself (query,
 * headers, cookies, formats) belongs to the routing module, which is not part
 * of this model: a `Route` arrives already parsed.
 */
module Routing {
  import opened Wrappers

  /**
   * `path` holds the remaining segments (the first one is the segment of the
   * node being visited, "site" at the root); `pathname` is the request path as
   * received; `outFormat` is the Accept list.
   */
  datatype Route = Route(
    path: seq<string>,
    pathname: string,
    outFormat: string,
    headers: map<string, string>,
    cookies: seq<string>,
    isStatic: bool)

  /** `route.stepThrough(n).path`: the path with its first `n` segments consumed. */
  function StepThrough(path: seq<string>, n: nat): (rest: seq<string>)
    ensures n <= |path| ==> rest == path[n..]
    ensures n > |path| ==> rest == []
  {
    if n <= |path| then path[n..] else []
  }

  /** `route.getNextStep()`: the leading segment, if any. */
  function NextStep(path: seq<string>): (s: Option<string>)
    ensures s.Some? <==> |path| > 0
    ensures s.Some? ==> s.value == path[0]
  {
    if |path| > 0 then Some(path[0]) else None
  }
}

/**
 * `ResourceResponse`, the `Response` helpers a handler answers with, and the
 * content negotiation of `ResourcePlayer._deliverReply`.
 */
module Negotiation {
  import opened Wrappers
  import opened Values
  import opened Errors
  import opened Numbers

  /** The envelope a handler answers with. */
  datatype ResourceResponse = ResourceResponse(
    result: string,
    data: Option<Value>,
    httpCode: Option<int>,
    location: Option<string>,
    cookiesData: Option<seq<string>>,
    headers: Option<map<string, string>>)

  /**
   * What a user handler did with the `Response` it was given: answered through
   * `ok()`/`redirect()` (or its own envelope), called `fail(err)`, threw
   * synchronously, or never called back.
   */
  datatype HandlerOutcome =
    | Answered(resp: ResourceResponse)
    | Failed(err: RxError)
    | Threw(what: string)
    | Silent

  /** `Response.ok()`: code 200, the resource's data, headers and outgoing cookies. */
  function RespondOk(data: Value, headers: map<string, string>, cookiesData: seq<string>): (r: ResourceResponse)
    ensures r.result == "ok" && r.httpCode == Some(200)
    ensures r.data == Some(data) && r.headers == Some(headers) && r.cookiesData == Some(cookiesData)
    ensures r.location == None
  {
    ResourceResponse("ok", Some(data), Some(200), None, Some(cookiesData), Some(headers))
  }

  /** `Response.redirect(where)`: code 303 with a location; no headers are attached. */
  function RespondRedirect(data: Value, cookiesData: seq<string>, where: string): (r: ResourceResponse)
    ensures r.result == "ok" && r.httpCode == Some(303) && r.location == Some(where)
    ensures r.data == Some(data) && r.cookiesData == Some(cookiesData) && r.headers == None
  {
    ResourceResponse("ok", Some(data), Some(303), Some(where), Some(cookiesData), None)
  }

  /** What a verb produces: an embodiment to serve, decided here or by a collaborator. */
  datatype Delivery =
    | Template(view: string, layout: Option<string>, httpCode: int, location: Option<string>,
               cookiesData: Option<seq<string>>, viewHeaders: map<string, string>)
    | Serialized(mimeType: string, data: Option<Value>, httpCode: int, location: Option<string>,
                 cookiesData: Option<seq<string>>, headers: Option<map<string, string>>)
    | Raw(mimeType: string, data: Option<Value>, httpCode: int,
          cookiesData: Option<seq<string>>, headers: Option<map<string, string>>)
    | StaticFile(pathname: string)
    | SiteView
    | HomeRedirect(home: string)

  /** The settled (or never settled) promise a verb returns. */
  datatype VerbResult = Resolved(delivery: Delivery) | Rejected(failure: Failure) | Pending

  const Json := "application/json"
  const AppXml := "application/xml"
  const TextXml := "text/xml"
  const Xhtml := "application/xhtml+xml"
  const FormUrl := "application/x-www-form-urlencoded"
  const Html := "text/html"
  const Any := "*/*"

  /**
   * The separators of a format list: white space and commas, and semicolons
   * when `semi` holds (`/[\s,;]+/` versus `/[\s,]+/`).
   */
  predicate IsSeparator(c: char, semi: bool)
  {
    IsSpace(c) || c == ',' || (semi && c == ';')
  }

  /** The longest prefix of `s` without a separator: the first field of `s.split(...)`. */
  function Word(s: string, semi: bool): (w: string)
    ensures |w| <= |s| && w == s[..|w|]
    ensures forall i :: 0 <= i < |w| ==> !IsSeparator(w[i], semi)
    ensures |w| < |s| ==> IsSeparator(s[|w|], semi)
  {
    if |s| == 0 || IsSeparator(s[0], semi) then "" else [s[0]] + Word(s[1..], semi)
  }

  /**
   * The non-empty fields of `s.split(separators)`. The empty fields JavaScript
   * also produces at either end never equal a media type, so the membership
   * tests below see the same answers.
   */
  function Tokens(s: string, semi: bool): (ts: seq<string>)
    ensures forall i :: 0 <= i < |ts| ==> |ts[i]| > 0
    decreases |s|
  {
    if |s| == 0 then []
    else if IsSeparator(s[0], semi) then Tokens(s[1..], semi)
    else
      var w := Word(s, semi);
      [w] + Tokens(s[|w|..], semi)
  }

  /** A list holding one media type and no separator splits into exactly that type. */
  lemma SingleToken(m: string, semi: bool)
    requires |m| > 0 && forall i :: 0 <= i < |m| ==> !IsSeparator(m[i], semi)
    ensures Tokens(m, semi) == [m]
  {
    assert Word(m, semi) == m by {
      WordOfSeparatorFree(m, semi);
    }
    assert m[|m|..] == "";
  }

  lemma {:induction false} WordOfSeparatorFree(m: string, semi: bool)
    requires forall i :: 0 <= i < |m| ==> !IsSeparator(m[i], semi)
    ensures Word(m, semi) == m
  {
    if |m| > 0 {
      WordOfSeparatorFree(m[1..], semi);
    }
  }

  /**
   * The checks of `_deliverReply` in source order: when a list holds the first
   * component, the chosen type becomes the second; a later match overrides an
   * earlier one.
   */
  const MimeRules: seq<(string, string)> :=
    [(Any, Json), (Json, Json), (AppXml, AppXml), (TextXml, TextXml), (Xhtml, AppXml), (FormUrl, TextXml)]

  /** Run the checks of `rules` in order over the accepted types, starting from `chosen`. */
  function RunRules(accepted: seq<string>, rules: seq<(string, string)>, chosen: Option<string>): Option<string>
    decreases |rules|
  {
    if rules == [] then chosen
    else RunRules(accepted, rules[1..], if rules[0].0 in accepted then Some(rules[0].1) else chosen)
  }

  /** The last rule whose type is accepted, searched from the end of `rules`. */
  function LastMatch(accepted: seq<string>, rules: seq<(string, string)>): Option<string>
    decreases |rules|
  {
    if rules == [] then None
    else
      var last := rules[|rules| - 1];
      if last.0 in accepted then Some(last.1) else LastMatch(accepted, rules[..|rules| - 1])
  }

  /** Running the checks in order is the same as taking the last one that matches. */
  lemma {:induction false} RunRulesIsLastMatch(accepted: seq<string>, rules: seq<(string, string)>, chosen: Option<string>)
    ensures RunRules(accepted, rules, chosen) ==
            (match LastMatch(accepted, rules) case Some(m) => Some(m) case None => chosen)
    decreases |rules|
  {
    if rules != [] {
      var next := if rules[0].0 in accepted then Some(rules[0].1) else chosen;
      RunRulesIsLastMatch(accepted, rules[1..], next);
      LastMatchSplit(accepted, rules);
    }
  }

  /** Searching from the end of a non-empty list: either the tail matches, or only its head can. */
  lemma {:induction false} LastMatchSplit(accepted: seq<string>, rules: seq<(string, string)>)
    requires rules != []
    ensures LastMatch(accepted, rules) ==
            (match LastMatch(accepted, rules[1..])
             case Some(m) => Some(m)
             case None => if rules[0].0 in accepted then Some(rules[0].1) else None)
    decreases |rules|
  {
    if |rules| > 1 {
      assert rules[1..][..|rules[1..]| - 1] == rules[..|rules| - 1][1..];
      LastMatchSplit(accepted, rules[..|rules| - 1]);
    }
  }

  /** The media type `_deliverReply` serializes to, if any. */
  function ChooseMime(accepted: seq<string>): Option<string>
  {
    RunRules(accepted, MimeRules, None)
  }

  /**
   * The later check wins: url-encoded forms give text/xml, then xhtml gives
   * application/xml, then text/xml, application/xml, application/json, and
   * `*` `/` `*` gives JSON; nothing recognised gives nothing.
   */
  lemma ChooseMimePriority(accepted: seq<string>)
    ensures ChooseMime(accepted) ==
      if FormUrl in accepted then Some(TextXml)
      else if Xhtml in accepted then Some(AppXml)
      else if TextXml in accepted then Some(TextXml)
      else if AppXml in accepted then Some(AppXml)
      else if Json in accepted then Some(Json)
      else if Any in accepted then Some(Json)
      else None
  {
    var r := MimeRules;
    var c1 := if Any in accepted then Some(Json) else None;
    var c2 := if Json in accepted then Some(Json) else c1;
    var c3 := if AppXml in accepted then Some(AppXml) else c2;
    var c4 := if TextXml in accepted then Some(TextXml) else c3;
    var c5 := if Xhtml in accepted then Some(AppXml) else c4;
    var c6 := if FormUrl in accepted then Some(TextXml) else c5;
    assert RunRules(accepted, r, None) == RunRules(accepted, r[1..], c1);
    assert RunRules(accepted, r[1..], c1) == RunRules(accepted, r[2..], c2);
    assert RunRules(accepted, r[2..], c2) == RunRules(accepted, r[3..], c3);
    assert RunRules(accepted, r[3..], c3) == RunRules(accepted, r[4..], c4);
    assert RunRules(accepted, r[4..], c4) == RunRules(accepted, r[5..], c5);
    assert RunRules(accepted, r[5..], c5) == RunRules(accepted, r[6..], c6);
  }

  /** The accepted types `_deliverReply` reads from a format string (an empty one means JSON). */
  function AcceptedTypes(outFormat: string): seq<string>
  {
    if outFormat != "" then Tokens(outFormat, true) else [Json]
  }

  /** The format after redirect forcing: codes 303 and 307 always answer JSON. */
  function EffectiveFormat(resp: ResourceResponse, outFormat: string): string
  {
    if resp.httpCode == Some(303) || resp.httpCode == Some(307) then Json else outFormat
  }

  /** The status copied into a template or serialized reply: the response's own, else 200. */
  function ReplyCode(resp: ResourceResponse): (code: int)
    ensures code != 0
    ensures resp.httpCode.Some? && resp.httpCode.value != 0 ==> code == resp.httpCode.value
    ensures resp.httpCode.None? || resp.httpCode.value == 0 ==> code == 200
  {
    if resp.httpCode.Some? && resp.httpCode.value != 0 then resp.httpCode.value else 200
  }

  /** True when the resource declares a view (a non-empty `view`). */
  predicate HasTemplate(template: Option<string>) { template.Some? && template.value != "" }

  /** True when `_deliverReply` renders through the view: a view and an HTML-or-anything Accept. */
  predicate UsesTemplate(template: Option<string>, resp: ResourceResponse, outFormat: string)
  {
    var accepted := AcceptedTypes(EffectiveFormat(resp, outFormat));
    HasTemplate(template) && (Html in accepted || Any in accepted)
  }

  /**
   * `_deliverReply(resp, outFormat, deliverAnyFormat)` on a resource with the
   * given view, layout and own headers. A view answers HTML requests; else a
   * recognised type is serialized; else the raw payload goes out under the
   * format itself when `deliverAnyFormat`; else the promise is rejected with 415.
   */
  function DeliverReply(template: Option<string>, layout: Option<string>, ownHeaders: map<string, string>,
                        resp: ResourceResponse, outFormat: string, deliverAnyFormat: bool): (r: VerbResult)
    ensures r != Pending
    ensures r.Resolved? ==> r.delivery.Template? || r.delivery.Serialized? || r.delivery.Raw?
    ensures r.Resolved? ==> r.delivery.cookiesData == resp.cookiesData
    ensures r.Resolved? && r.delivery.Template? <==> UsesTemplate(template, resp, outFormat)
    ensures r.Resolved? && r.delivery.Template? ==>
              r.delivery.view == template.value && r.delivery.layout == layout &&
              r.delivery.httpCode == ReplyCode(resp) && r.delivery.location == resp.location &&
              r.delivery.viewHeaders == ownHeaders
    ensures r.Resolved? && r.delivery.Serialized? ==>
              Some(r.delivery.mimeType) == ChooseMime(AcceptedTypes(EffectiveFormat(resp, outFormat))) &&
              r.delivery.data == resp.data && r.delivery.httpCode == ReplyCode(resp) &&
              r.delivery.location == resp.location && r.delivery.headers == resp.headers
    ensures r.Resolved? && r.delivery.Raw? ==>
              deliverAnyFormat && r.delivery.httpCode == 200 &&
              r.delivery.mimeType == EffectiveFormat(resp, outFormat) && r.delivery.data == resp.data &&
              r.delivery.headers == resp.headers
    ensures r.Rejected? <==>
              !UsesTemplate(template, resp, outFormat) && !deliverAnyFormat &&
              ChooseMime(AcceptedTypes(EffectiveFormat(resp, outFormat))).None?
    ensures r.Rejected? ==> r.failure.RxErr? && r.failure.err.httpCode == 415 &&
                            r.failure.err.name == Some("Unsupported Media Type")
  {
    var format := EffectiveFormat(resp, outFormat);
    var accepted := AcceptedTypes(format);
    if HasTemplate(template) && (Html in accepted || Any in accepted) then
      Resolved(Template(template.value, layout, ReplyCode(resp), resp.location, resp.cookiesData, ownHeaders))
    else
      match ChooseMime(accepted)
      case Some(m) => Resolved(Serialized(m, resp.data, ReplyCode(resp), resp.location, resp.cookiesData, resp.headers))
      case None =>
        if deliverAnyFormat then Resolved(Raw(format, resp.data, 200, resp.cookiesData, resp.headers))
        else Rejected(RxErr(NewRxError("output as (" + format + ") is not available for this resource",
                                       Some("Unsupported Media Type"), Some(415), None)))
  }

  /** A format list holding only `application/json` is that one type. */
  lemma JsonAcceptsJsonOnly()
    ensures AcceptedTypes(Json) == [Json]
  {
    SingleToken(Json, true);
  }

  /** A format list holding only `application/json` selects JSON. */
  lemma JsonIsChosenForJson()
    ensures ChooseMime([Json]) == Some(Json)
  {
    ChooseMimePriority([Json]);
  }

  /** A format list holding only `application/json` never selects a view. */
  lemma JsonSelectsNoView()
    ensures Html !in [Json] && Any !in [Json]
  {
    assert |Html| != |Json| && |Any| != |Json|;
  }

  /** Redirects (303, 307) are always serialized as JSON, whatever was asked for and whatever the view. */
  lemma RedirectIsJson(template: Option<string>, layout: Option<string>, ownHeaders: map<string, string>,
                       resp: ResourceResponse, outFormat: string, deliverAnyFormat: bool)
    requires resp.httpCode == Some(303) || resp.httpCode == Some(307)
    ensures var r := DeliverReply(template, layout, ownHeaders, resp, outFormat, deliverAnyFormat);
            r.Resolved? && r.delivery.Serialized? && r.delivery.mimeType == Json &&
            r.delivery.httpCode == resp.httpCode.value && r.delivery.location == resp.location
  {
    JsonAcceptsJsonOnly();
    JsonIsChosenForJson();
    JsonSelectsNoView();
  }

  /**
   * Without a view and without a forced format, a resource answers exactly the
   * requests whose Accept list names a recognised type, and rejects every
   * other with 415.
   */
  lemma UnsupportedIsRejected(ownHeaders: map<string, string>, resp: ResourceResponse, outFormat: string)
    requires !(resp.httpCode == Some(303) || resp.httpCode == Some(307))
    ensures var r := DeliverReply(None, None, ownHeaders, resp, outFormat, false);
            var accepted := AcceptedTypes(outFormat);
            r.Rejected? <==>
              !(Any in accepted || Json in accepted || AppXml in accepted || TextXml in accepted ||
                Xhtml in accepted || FormUrl in accepted)
  {
    ChooseMimePriority(AcceptedTypes(outFormat));
  }

  /** A JSON request against plain data gives a JSON body with status 200. */
  lemma JsonRequestIsServedAsJson(data: Value)
    ensures DeliverReply(None, None, map[], ResourceResponse("ok", Some(data), Some(200), None, None, None), Json, false)
            == Resolved(Serialized(Json, Some(data), 200, None, None, None))
  {
    JsonAcceptsJsonOnly();
    JsonIsChosenForJson();
    JsonSelectsNoView();
  }

  /** An `image/png` request against plain data without a forced format is refused with 415. */
  lemma PngRequestIsRefused(data: Value)
    ensures var r := DeliverReply(None, None, map[], ResourceResponse("ok", Some(data), Some(200), None, None, None),
                                  "image/png", false);
            r.Rejected? && r.failure.err.httpCode == 415
  {
    var resp := ResourceResponse("ok", Some(data), Some(200), None, None, None);
    SingleToken("image/png", true);
    assert AcceptedTypes(EffectiveFormat(resp, "image/png")) == ["image/png"];
    ChooseMimePriority(["image/png"]);
    assert ChooseMime(["image/png"]).None?;
  }
}

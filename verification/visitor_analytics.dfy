/**
 * The visitor-analytics request handler as a pure function from a request
 * to a response: method gating, visitor and client-address extraction, and
 * the ordered substring classification of the user agent.
 *
 * JSON parsing is abstracted: a body is absent, unparsable, parsed to
 * something other than an object, or parsed to an object whose relevant
 * keys are present or not. Any failure while reading the request becomes a
 * 500 response, as the handler's catch-all does.
 */
module VisitorAnalytics {
  import opened KineticTypes

  datatype Option<T> = None | Some(value: T)

  /** The `utm` member of the body. */
  datatype Utm =
    | UtmAbsent
    | UtmNotAnObject
    | UtmFields(source: Option<string>, medium: Option<string>, campaign: Option<string>)

  datatype Body =
    | BodyAbsent        // no body key: parsed as the empty object
    | Unparsable        // not JSON at all
    | NotAnObject       // JSON, but not an object
    | Fields(visitorId: Option<string>, referrer: Option<string>, landingPage: Option<string>,
             currentPage: Option<string>, utm: Utm)

  datatype Headers = HeadersAbsent | HeadersNull | HeaderMap(entries: map<string, string>)

  datatype Request = Request(httpMethod: Option<string>, body: Body, headers: Headers)

  datatype Device = Desktop | Mobile | Tablet
  datatype Browser = Chrome | Firefox | Safari | Edge | UnknownBrowser

  datatype TrackingData = TrackingData(
    visitorId: string, page: string, userAgent: string, device: Device, browser: Browser,
    referrer: string, utmSource: string, utmMedium: string, utmCampaign: string)

  datatype ResponseBody =
    | Empty
    | MethodNotAllowed
    | Tracked(success: bool, visitorId: string, isNewVisitor: bool, data: TrackingData)
    | Failure

  datatype Response = Response(statusCode: int, body: ResponseBody)

  const DefaultVisitorId := "unknown-visitor"
  const UnknownIp := "unknown"

  function GetOr(o: Option<string>, default: string): string
  {
    if o.Some? then o.value else default
  }

  function Header(h: map<string, string>, key: string, default: string): string
  {
    if key in h then h[key] else default
  }

  // ----- strings -----

  /** `sub in s`: `sub` occurs somewhere in `s` as a contiguous slice. */
  predicate Contains(s: string, sub: string)
  {
    exists i :: 0 <= i <= |s| && OccursAt(s, sub, i)
  }

  predicate OccursAt(s: string, sub: string, i: int)
  {
    0 <= i && i + |sub| <= |s| && s[i..i + |sub|] == sub
  }

  /** The characters Python's `str.strip()` removes: those `str.isspace()`
      accepts, namely tab, line feed, vertical tab, form feed, carriage
      return, the four separators 0x1C..0x1F, space, U+0085, U+00A0, U+1680,
      U+2000..U+200A, U+2028, U+2029, U+202F, U+205F and U+3000. */
  predicate IsSpace(ch: char)
  {
    || ('\t' <= ch <= '\r')
    || ('\U{001C}' <= ch <= ' ')
    || ch == '\U{0085}' || ch == '\U{00A0}' || ch == '\U{1680}'
    || ('\U{2000}' <= ch <= '\U{200A}')
    || ch == '\U{2028}' || ch == '\U{2029}' || ch == '\U{202F}' || ch == '\U{205F}' || ch == '\U{3000}'
  }

  /** The text before the first comma: `s.split(',')[0]`. */
  function FirstField(s: string): (r: string)
    ensures |r| <= |s| && r == s[..|r|]
    ensures forall k :: 0 <= k < |r| ==> r[k] != ','
    ensures |r| == |s| || s[|r|] == ','
  {
    if s == [] || s[0] == ',' then [] else [s[0]] + FirstField(s[1..])
  }

  /** Leading whitespace removed. */
  function StripLeft(s: string): (r: string)
    ensures |r| <= |s| && r == s[|s| - |r|..]
    ensures forall k :: 0 <= k < |s| - |r| ==> IsSpace(s[k])
    ensures r != [] ==> !IsSpace(r[0])
  {
    if s != [] && IsSpace(s[0]) then StripLeft(s[1..]) else s
  }

  /** Trailing whitespace removed. */
  function StripRight(s: string): (r: string)
    ensures |r| <= |s| && r == s[..|r|]
    ensures forall k :: |r| <= k < |s| ==> IsSpace(s[k])
    ensures r != [] ==> !IsSpace(r[|r| - 1])
  {
    if s != [] && IsSpace(s[|s| - 1]) then StripRight(s[..|s| - 1]) else s
  }

  function Strip(s: string): (r: string)
    ensures r != [] ==> !IsSpace(r[0]) && !IsSpace(r[|r| - 1])
  {
    StripRight(StripLeft(s))
  }

  // ----- classification -----

  /** Device class: "mobile" is tested before "tablet". */
  function DeviceOf(userAgent: string): (d: Device)
    ensures d == Mobile <==> Contains(Lower(userAgent), "mobile")
    ensures d == Tablet <==> !Contains(Lower(userAgent), "mobile") && Contains(Lower(userAgent), "tablet")
    ensures d == Desktop <==> !Contains(Lower(userAgent), "mobile") && !Contains(Lower(userAgent), "tablet")
  {
    var ua := Lower(userAgent);
    if Contains(ua, "mobile") then Mobile
    else if Contains(ua, "tablet") then Tablet
    else Desktop
  }

  /** Browser: the first of chrome, firefox, safari, edge that occurs. */
  function BrowserOf(userAgent: string): (b: Browser)
    ensures b == Chrome <==> Contains(Lower(userAgent), "chrome")
    ensures b == Firefox <==> !Contains(Lower(userAgent), "chrome") && Contains(Lower(userAgent), "firefox")
    ensures b == Safari <==>
      !Contains(Lower(userAgent), "chrome") && !Contains(Lower(userAgent), "firefox")
      && Contains(Lower(userAgent), "safari")
    ensures b == Edge <==>
      !Contains(Lower(userAgent), "chrome") && !Contains(Lower(userAgent), "firefox")
      && !Contains(Lower(userAgent), "safari") && Contains(Lower(userAgent), "edge")
    ensures b == UnknownBrowser <==>
      !Contains(Lower(userAgent), "chrome") && !Contains(Lower(userAgent), "firefox")
      && !Contains(Lower(userAgent), "safari") && !Contains(Lower(userAgent), "edge")
  {
    var ua := Lower(userAgent);
    if Contains(ua, "chrome") then Chrome
    else if Contains(ua, "firefox") then Firefox
    else if Contains(ua, "safari") then Safari
    else if Contains(ua, "edge") then Edge
    else UnknownBrowser
  }

  /** Any agent naming both Chrome and Edge (as Edge's own agent string
      does) is classified as Chrome: Edge is only reported when none of the
      three earlier names occurs. */
  lemma ChromeShadowsEdge(userAgent: string)
    requires Contains(Lower(userAgent), "chrome") && Contains(Lower(userAgent), "edge")
    ensures BrowserOf(userAgent) == Chrome && BrowserOf(userAgent) != Edge
  {
  }

  /** "Chrome Edge" is such an agent. */
  lemma ChromeEdgeExample()
    ensures Contains(Lower("Chrome Edge"), "edge")
    ensures BrowserOf("Chrome Edge") == Chrome
  {
    var ua := Lower("Chrome Edge");
    assert ua[..6] == "chrome" && ua[7..11] == "edge";
    assert OccursAt(ua, "chrome", 0) && OccursAt(ua, "edge", 7);
    ChromeShadowsEdge("Chrome Edge");
  }

  /** Both classifications see only the lower-cased agent. */
  lemma ClassificationIsCaseInsensitive(userAgent: string)
    ensures DeviceOf(Lower(userAgent)) == DeviceOf(userAgent)
    ensures BrowserOf(Lower(userAgent)) == BrowserOf(userAgent)
  {
    assert Lower(Lower(userAgent)) == Lower(userAgent);
  }

  /** Upper case makes no difference to either classification. */
  lemma ClassificationIgnoresCase()
    ensures DeviceOf("TABLET") == Tablet
    ensures BrowserOf("FIREFOX") == Firefox
  {
    var t := Lower("TABLET");
    assert t == "tablet";
    assert OccursAt(t, "tablet", 0);
    assert !OccursAt(t, "mobile", 0);
    var f := Lower("FIREFOX");
    assert f == "firefox";
    assert OccursAt(f, "firefox", 0);
    assert f[0..6] == "firefo" && f[1..7] == "irefox";
  }

  /** The client address: the first `x-forwarded-for` entry, stripped; when
      that is empty, `x-real-ip`, or "unknown" without it. */
  function ClientIp(h: map<string, string>): (ip: string)
    ensures var first := Strip(FirstField(Header(h, "x-forwarded-for", "")));
      && (first != "" ==> ip == first)
      && (first == "" ==> ip == Header(h, "x-real-ip", UnknownIp))
  {
    var first := Strip(FirstField(Header(h, "x-forwarded-for", "")));
    if first != "" then first else Header(h, "x-real-ip", UnknownIp)
  }

  /** The entry is taken before the first comma, and only its surrounding
      whitespace is dropped; an empty first entry falls back. */
  lemma ClientIpFirstEntry()
    ensures ClientIp(map["x-forwarded-for" := " a ,b"]) == "a"
  {
    FirstFieldExample();
    StripExample();
  }

  lemma FirstFieldExample()
    ensures FirstField(" a ,b") == " a "
  {
    assert FirstField(",b") == "";
    assert FirstField(" ,b") == " ";
    assert FirstField("a ,b") == "a ";
  }

  lemma StripExample()
    ensures Strip(" a ") == "a"
  {
    assert StripLeft("a ") == "a ";
    assert StripLeft(" a ") == "a ";
    assert StripRight("a") == "a";
  }

  lemma ClientIpFallback()
    ensures ClientIp(map["x-forwarded-for" := " ,b", "x-real-ip" := "c"]) == "c"
  {
    var h := map["x-forwarded-for" := " ,b", "x-real-ip" := "c"];
    assert Header(h, "x-forwarded-for", "") == " ,b";
    assert FirstField(",b") == "";
    assert FirstField(" ,b") == " ";
    assert StripLeft(" ") == "";
    assert Strip(" ") == "";
    assert Header(h, "x-real-ip", UnknownIp) == "c";
  }

  /** With neither header the address is "unknown". */
  lemma ClientIpNoHeaders()
    ensures ClientIp(map[]) == UnknownIp
  {
    assert FirstField("") == "";
    assert Strip("") == "";
  }

  /** A first entry made only of Unicode whitespace (here a no-break space)
      strips to nothing and falls back to x-real-ip. */
  lemma ClientIpUnicodeSpaceFallsBack()
    ensures ClientIp(map["x-forwarded-for" := "\U{00A0},b", "x-real-ip" := "c"]) == "c"
  {
    assert FirstField(",b") == "";
    assert FirstField("\U{00A0},b") == "\U{00A0}";
    assert StripLeft("") == "";
    assert StripLeft("\U{00A0}") == "";
  }

  // ----- the handler -----

  function MethodOf(req: Request): string
  {
    GetOr(req.httpMethod, "GET")
  }

  /** Reading the request fails (the catch-all 500) when the body is not a
      JSON object, the headers are null, or `utm` is not an object. */
  predicate Readable(req: Request)
  {
    && !(req.body.Unparsable? || req.body.NotAnObject?)
    && !req.headers.HeadersNull?
    && !(req.body.Fields? && req.body.utm.UtmNotAnObject?)
  }

  function Track(body: Body, headers: map<string, string>): (data: TrackingData)
    requires body.BodyAbsent? || (body.Fields? && !body.utm.UtmNotAnObject?)
  {
    var b := if body.Fields? then body else Fields(None, None, None, None, UtmAbsent);
    var utm := if b.utm.UtmFields? then b.utm else UtmFields(None, None, None);
    var ua := Header(headers, "user-agent", "");
    TrackingData(GetOr(b.visitorId, DefaultVisitorId), GetOr(b.currentPage, "/"), ua,
                 DeviceOf(ua), BrowserOf(ua), GetOr(b.referrer, ""),
                 GetOr(utm.source, ""), GetOr(utm.medium, ""), GetOr(utm.campaign, ""))
  }

  function Handle(req: Request): (resp: Response)
    ensures MethodOf(req) == "OPTIONS" ==> resp == Response(200, Empty)
    ensures MethodOf(req) != "OPTIONS" && MethodOf(req) != "POST" ==> resp == Response(405, MethodNotAllowed)
    ensures MethodOf(req) == "POST" && !Readable(req) ==> resp == Response(500, Failure)
    ensures MethodOf(req) == "POST" && Readable(req) ==>
      && resp.statusCode == 200 && resp.body.Tracked?
      && resp.body.success && resp.body.isNewVisitor
      && resp.body.visitorId == resp.body.data.visitorId
      && resp.body.data.device == DeviceOf(resp.body.data.userAgent)
      && resp.body.data.browser == BrowserOf(resp.body.data.userAgent)
      && (req.body.BodyAbsent? || req.body.visitorId.None? ==> resp.body.visitorId == DefaultVisitorId)
      && (req.body.Fields? && req.body.visitorId.Some? ==> resp.body.visitorId == req.body.visitorId.value)
      && (req.headers.HeadersAbsent? ==> resp.body.data.userAgent == "" && resp.body.data.device == Desktop)
      && (req.headers.HeaderMap? ==> resp.body.data.userAgent == Header(req.headers.entries, "user-agent", ""))
      && resp.body.data.page == (if req.body.Fields? then GetOr(req.body.currentPage, "/") else "/")
      && resp.body.data.referrer == (if req.body.Fields? then GetOr(req.body.referrer, "") else "")
      && (req.body.BodyAbsent? || req.body.utm.UtmAbsent? ==>
            resp.body.data.utmSource == "" && resp.body.data.utmMedium == "" && resp.body.data.utmCampaign == "")
      && (req.body.Fields? && req.body.utm.UtmFields? ==>
            && resp.body.data.utmSource == GetOr(req.body.utm.source, "")
            && resp.body.data.utmMedium == GetOr(req.body.utm.medium, "")
            && resp.body.data.utmCampaign == GetOr(req.body.utm.campaign, ""))
  {
    var m := MethodOf(req);
    if m == "OPTIONS" then Response(200, Empty)
    else if m != "POST" then Response(405, MethodNotAllowed)
    else if !Readable(req) then Response(500, Failure)
    else
      var headers := if req.headers.HeaderMap? then req.headers.entries else map[];
      var data := Track(req.body, headers);
      Response(200, Tracked(true, data.visitorId, true, data))
  }

  /** A request without a method is treated as GET and refused. */
  lemma MissingMethodIsRefused(body: Body, headers: Headers)
    ensures Handle(Request(None, body, headers)).statusCode == 405
  {
  }
}

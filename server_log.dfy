/**
 * The server stream: the morgan line template of src/index.js:168-169 and the four
 * custom tokens `date`, `type`, `device` and `uuid` (src/index.js:129-152).
 */
module ServerLog {
  import opened Text
  import Clock
  import AccessLog

  /** The named fields of the template, in the order morgan is asked for them. */
  datatype TokenName =
    | RemoteAddr | RemoteUser | Date | Method | Url | HttpVersion | Status
    | ContentLength | Referrer | UserAgent | Type | Device | Uuid | ResponseTime

  /** A morgan format, compiled: literal text and `:token` fields in order. */
  datatype Format = Done | Literal(text: string, rest: Format) | Field(name: TokenName, rest: Format)

  /**
   * What morgan's built-in tokens and the request expose, as text: the built-in tokens'
   * renderings, the request headers and parsed device serialised as JSON, and the request id
   * that the request-id middleware stored in the `x-request-id` response header.
   */
  datatype Request = Request(
    remoteAddr: string, remoteUser: string, verb: string, url: string, httpVersion: string,
    status: string, contentLength: string, referrer: string, userAgent: string,
    headersJson: string, deviceJson: string, requestId: string, responseTime: string)

  /** `:date`: the current time in the same UTC format as the access stream. */
  function DateToken(now: Clock.DateTime): (r: string)
    ensures r == AccessLog.Timestamp(now)
  {
    Clock.FormatUtc(now)
  }

  /** `:type`: the request headers as JSON. */
  function TypeToken(req: Request): string {
    req.headersJson
  }

  /** `:device`: `DEVICE=` and the device metadata as JSON. */
  function DeviceToken(req: Request): string {
    "DEVICE=" + req.deviceJson
  }

  /** `:uuid`: `UUID=` and the request id. */
  function UuidToken(req: Request): string {
    "UUID=" + req.requestId
  }

  /** The text one token contributes to the line. */
  function TokenValue(name: TokenName, req: Request, now: Clock.DateTime): string {
    match name
    case RemoteAddr => req.remoteAddr
    case RemoteUser => req.remoteUser
    case Date => DateToken(now)
    case Method => req.verb
    case Url => req.url
    case HttpVersion => req.httpVersion
    case Status => req.status
    case ContentLength => req.contentLength
    case Referrer => req.referrer
    case UserAgent => req.userAgent
    case Type => TypeToken(req)
    case Device => DeviceToken(req)
    case Uuid => UuidToken(req)
    case ResponseTime => req.responseTime
  }

  /**
   * `:remote-addr - :remote-user [:date] ":method :url HTTP/:http-version" :status
   * :res[content-length] ":referrer" ":user-agent" :type :device :uuid - :response-time ms`
   */
  const Template: Format :=
    Field(RemoteAddr, Literal(" - ", Field(RemoteUser, Literal(" [", Field(Date, Literal("] \"",
    Field(Method, Literal(" ", Field(Url, Literal(" HTTP/", Field(HttpVersion, Literal("\" ",
    TemplateFromStatus))))))))))))

  /** The template from `:status` on. */
  const TemplateFromStatus: Format :=
    Field(Status, Literal(" ", Field(ContentLength, Literal(" \"", Field(Referrer, Literal("\" \"",
    TemplateFromUserAgent))))))

  /** The template from `:user-agent` on. */
  const TemplateFromUserAgent: Format :=
    Field(UserAgent, Literal("\" ", Field(Type, Literal(" ", Field(Device, Literal(" ",
    Field(Uuid, Literal(" - ", Field(ResponseTime, Literal(" ms", Done))))))))))

  /** Morgan's substitution: every piece in order, fields replaced by their token values. */
  function Render(format: Format, req: Request, now: Clock.DateTime): string {
    match format
    case Done => ""
    case Literal(t, rest) => t + Render(rest, req, now)
    case Field(n, rest) => TokenValue(n, req, now) + Render(rest, req, now)
  }

  /** One server-log line. */
  function Line(req: Request, now: Clock.DateTime): string {
    Render(Template, req, now)
  }

  /** The fields from `:user-agent` on, written out. */
  lemma LayoutFromUserAgent(req: Request, now: Clock.DateTime)
    ensures Render(TemplateFromUserAgent, req, now) == req.userAgent + ("\" " + (req.headersJson + (" " + (("DEVICE=" + req.deviceJson) + (" " + (("UUID=" + req.requestId) + (" - " + (req.responseTime + (" ms")))))))))
  {
    var f0 := TemplateFromUserAgent;
    var f1 := f0.rest;
    var f2 := f1.rest;
    var f3 := f2.rest;
    var f4 := f3.rest;
    var f5 := f4.rest;
    var f6 := f5.rest;
    var f7 := f6.rest;
    var f8 := f7.rest;
    var f9 := f8.rest;
    var f10 := f9.rest;
    assert f10 == Done;
    assert Render(f10, req, now) == "";
    assert Render(f9, req, now) == " ms" + Render(f10, req, now);
    assert Render(f8, req, now) == req.responseTime + Render(f9, req, now);
    assert Render(f7, req, now) == " - " + Render(f8, req, now);
    assert Render(f6, req, now) == ("UUID=" + req.requestId) + Render(f7, req, now);
    assert Render(f5, req, now) == " " + Render(f6, req, now);
    assert Render(f4, req, now) == ("DEVICE=" + req.deviceJson) + Render(f5, req, now);
    assert Render(f3, req, now) == " " + Render(f4, req, now);
    assert Render(f2, req, now) == req.headersJson + Render(f3, req, now);
    assert Render(f1, req, now) == "\" " + Render(f2, req, now);
    assert Render(f0, req, now) == req.userAgent + Render(f1, req, now);
  }

  /** The fields from `:status` to the referrer, written out. */
  lemma LayoutFromStatus(req: Request, now: Clock.DateTime)
    ensures Render(TemplateFromStatus, req, now) == req.status + (" " + (req.contentLength + (" \"" + (req.referrer + ("\" \"" + (Render(TemplateFromUserAgent, req, now)))))))
  {
    var f0 := TemplateFromStatus;
    var f1 := f0.rest;
    var f2 := f1.rest;
    var f3 := f2.rest;
    var f4 := f3.rest;
    var f5 := f4.rest;
    var f6 := f5.rest;
    assert f6 == TemplateFromUserAgent;
    assert Render(f6, req, now) == Render(TemplateFromUserAgent, req, now);
    assert Render(f5, req, now) == "\" \"" + Render(f6, req, now);
    assert Render(f4, req, now) == req.referrer + Render(f5, req, now);
    assert Render(f3, req, now) == " \"" + Render(f4, req, now);
    assert Render(f2, req, now) == req.contentLength + Render(f3, req, now);
    assert Render(f1, req, now) == " " + Render(f2, req, now);
    assert Render(f0, req, now) == req.status + Render(f1, req, now);
  }

  /**
   * The template written out: every field in its fixed place with its fixed separators, the
   * date in the access stream's format and the request id behind `UUID=`.
   */
  lemma LineLayout(req: Request, now: Clock.DateTime)
    ensures Line(req, now) == req.remoteAddr + (" - " + (req.remoteUser + (" [" + (AccessLog.Timestamp(now) + ("] \"" + (req.verb + (" " + (req.url + (" HTTP/" + (req.httpVersion + ("\" " + (req.status + (" " + (req.contentLength + (" \"" + (req.referrer + ("\" \"" + (req.userAgent + ("\" " + (req.headersJson + (" " + (("DEVICE=" + req.deviceJson) + (" " + (("UUID=" + req.requestId) + (" - " + (req.responseTime + (" ms")))))))))))))))))))))))))))
  {
    LayoutFromUserAgent(req, now);
    LayoutFromStatus(req, now);
    var f0 := Template;
    var f1 := f0.rest;
    var f2 := f1.rest;
    var f3 := f2.rest;
    var f4 := f3.rest;
    var f5 := f4.rest;
    var f6 := f5.rest;
    var f7 := f6.rest;
    var f8 := f7.rest;
    var f9 := f8.rest;
    var f10 := f9.rest;
    var f11 := f10.rest;
    var f12 := f11.rest;
    assert f12 == TemplateFromStatus;
    assert Render(f12, req, now) == Render(TemplateFromStatus, req, now);
    assert Render(f11, req, now) == "\" " + Render(f12, req, now);
    assert Render(f10, req, now) == req.httpVersion + Render(f11, req, now);
    assert Render(f9, req, now) == " HTTP/" + Render(f10, req, now);
    assert Render(f8, req, now) == req.url + Render(f9, req, now);
    assert Render(f7, req, now) == " " + Render(f8, req, now);
    assert Render(f6, req, now) == req.verb + Render(f7, req, now);
    assert Render(f5, req, now) == "] \"" + Render(f6, req, now);
    assert Render(f4, req, now) == AccessLog.Timestamp(now) + Render(f5, req, now);
    assert Render(f3, req, now) == " [" + Render(f4, req, now);
    assert Render(f2, req, now) == req.remoteUser + Render(f3, req, now);
    assert Render(f1, req, now) == " - " + Render(f2, req, now);
    assert Render(f0, req, now) == req.remoteAddr + Render(f1, req, now);
  }
}

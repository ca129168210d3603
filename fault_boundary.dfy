/**
 * The request-handling boundary of a worker (src/index.js:182-210): the catch-all handler for
 * unmatched routes and the error middleware that turns an uncaught fault into a log entry and
 * a JSON reply, either as a fresh 500 response or spliced onto a body already being sent.
 */
module FaultBoundary {
  import opened Wrappers
  import opened Text
  import Json
  import Clock
  import AccessLog

  /** `httpStatus.INTERNAL_SERVER_ERROR`. */
  const InternalServerError: int := 500

  /** The configuration values the boundary reads from `global.config`. */
  datatype Config = Config(defaultErrorCode: Option<int>, defaultErrorMessage: string, serviceDownMessage: string)

  /**
   * The service configuration (helpers/apiConfig.js:4-17): `default_error_message` and
   * `service_down_message` are set, and no `default_error_code` key exists, so reading it
   * yields `undefined`.
   */
  const ApiConfig: Config := Config(
    None, "Sorry, invalid request", "Oops, something went wrong, please try again later")

  /** The boundary's reply object `{responseCode, responseDesc}`; an undefined code is None. */
  datatype Envelope = Envelope(responseCode: Option<int>, responseDesc: string)

  /** `JSON.stringify` of an envelope: members in order, an undefined member left out. */
  function EnvelopeJson(e: Envelope): (r: string)
    ensures |r| >= 2 && r[0] == '{' && r[|r| - 1] == '}'
  {
    "{" +
    (if e.responseCode.Some? then "\"responseCode\":" + Json.Number(e.responseCode.value) + "," else "") +
    "\"responseDesc\":" + Json.Quote(e.responseDesc) + "}"
  }

  /** The unmatched-route reply (src/index.js:183-186). */
  function NotFoundEnvelope(config: Config): Envelope {
    Envelope(config.defaultErrorCode, config.defaultErrorMessage)
  }

  /** The fault reply (src/index.js:199-202). */
  function FaultEnvelope(config: Config): Envelope {
    Envelope(Some(InternalServerError), config.serviceDownMessage)
  }

  /** Both messages of the service configuration are written without escapes. */
  lemma ApiConfigPlain()
    ensures Json.PlainText(ApiConfig.defaultErrorMessage) && Json.PlainText(ApiConfig.serviceDownMessage)
  {
    assert Json.PlainText("Sorry, invalid request");
    ServiceDownPlain();
  }

  lemma ServiceDownPlain()
    ensures Json.PlainText("Oops, something went wrong, please try again later")
  {
    var a, b, c := "Oops, something ", "went wrong, ", "please try again later";
    PlainPieces();
    Json.PlainAppend(a, b);
    Json.PlainAppend(a + b, c);
    ServiceDownPieces();
  }

  lemma PlainPieces()
    ensures Json.PlainText("Oops, something ") && Json.PlainText("went wrong, ")
    ensures Json.PlainText("please try again later")
  {
  }

  lemma ServiceDownPieces()
    ensures "Oops, something " + "went wrong, " + "please try again later" ==
      "Oops, something went wrong, please try again later"
  {
  }

  /**
   * The unmatched-route body: with no code configured, as in the service configuration, the
   * undefined `responseCode` is dropped by the serialiser and only the description remains.
   */
  lemma NotFoundBody(config: Config)
    requires Json.PlainText(config.defaultErrorMessage)
    ensures config.defaultErrorCode.None? ==>
      EnvelopeJson(NotFoundEnvelope(config)) == "{\"responseDesc\":\"" + config.defaultErrorMessage + "\"}"
    ensures config.defaultErrorCode.Some? ==>
      EnvelopeJson(NotFoundEnvelope(config)) ==
        "{\"responseCode\":" + Json.Number(config.defaultErrorCode.value) +
        ",\"responseDesc\":\"" + config.defaultErrorMessage + "\"}"
  {
    var desc := config.defaultErrorMessage;
    Json.QuotePlain(desc);
    if config.defaultErrorCode.Some? {
      var code := Json.Number(config.defaultErrorCode.value);
      assert EnvelopeJson(NotFoundEnvelope(config)) ==
        "{" + ("\"responseCode\":" + code + ",") + "\"responseDesc\":" + Json.Quote(desc) + "}";
      CodeMember(code, desc, Json.Quote(desc));
    } else {
      DescriptionMember(Json.Quote(desc), desc);
    }
  }

  /** The fault body: code 500 (rendered `500`) and the service-down message. */
  lemma FaultBody(config: Config)
    requires Json.PlainText(config.serviceDownMessage)
    ensures EnvelopeJson(FaultEnvelope(config)) ==
      "{\"responseCode\":" + Json.Number(InternalServerError) + ",\"responseDesc\":\"" + config.serviceDownMessage + "\"}"
    ensures Json.Number(InternalServerError) == "500"
  {
    var desc := config.serviceDownMessage;
    Json.QuotePlain(desc);
    Json.Number500();
    CodeMember(Json.Number(InternalServerError), desc, Json.Quote(desc));
  }

  /**
   * The two bodies the service configuration produces: the unmatched-route reply has no
   * `responseCode` member, and the fault reply carries 500 and the service-down message.
   */
  lemma ServiceBodies()
    ensures EnvelopeJson(NotFoundEnvelope(ApiConfig)) == "{\"responseDesc\":\"Sorry, invalid request\"}"
    ensures EnvelopeJson(FaultEnvelope(ApiConfig)) ==
      "{\"responseCode\":500,\"responseDesc\":\"Oops, something went wrong, please try again later\"}"
  {
    ApiConfigPlain();
    NotFoundBody(ApiConfig);
    FaultBody(ApiConfig);
    NotFoundLiteral();
    FaultLiteral();
  }

  lemma NotFoundLiteral()
    ensures "{\"responseDesc\":\"" + "Sorry, invalid request" + "\"}" == "{\"responseDesc\":\"Sorry, invalid request\"}"
  {
  }

  lemma FaultLiteral()
    ensures "{\"responseCode\":" + "500" + ",\"responseDesc\":\"" + "Oops, something went wrong, please try again later" + "\"}" ==
      "{\"responseCode\":500,\"responseDesc\":\"Oops, something went wrong, please try again later\"}"
  {
    ServiceDownPieces();
    FaultHead();
    FaultMiddle();
    FaultEnd();
  }

  lemma FaultHead()
    ensures "{\"responseCode\":" + "500" + ",\"responseDesc\":\"" + "Oops, something " ==
      "{\"responseCode\":500,\"responseDesc\":\"Oops, something "
  {
  }

  lemma FaultMiddle()
    ensures "{\"responseCode\":500,\"responseDesc\":\"Oops, something " + "went wrong, " ==
      "{\"responseCode\":500,\"responseDesc\":\"Oops, something went wrong, "
  {
  }

  lemma FaultEnd()
    ensures "{\"responseCode\":500,\"responseDesc\":\"Oops, something went wrong, " + "please try again later" + "\"}" ==
      "{\"responseCode\":500,\"responseDesc\":\"Oops, something went wrong, please try again later\"}"
  {
  }

  /** Regrouping the `responseDesc` member around a quoted description. */
  lemma DescriptionMember(quoted: string, desc: string)
    requires quoted == "\"" + desc + "\""
    ensures "\"responseDesc\":" + quoted + "}" == "\"responseDesc\":\"" + desc + "\"}"
    ensures "{" + "\"responseDesc\":" + quoted + "}" == "{\"responseDesc\":\"" + desc + "\"}"
    ensures "{" + "" + "\"responseDesc\":" + quoted + "}" == "{\"responseDesc\":\"" + desc + "\"}"
  {
  }

  /** Regrouping an envelope with both members around a quoted description. */
  lemma CodeMember(code: string, desc: string, quoted: string)
    requires quoted == "\"" + desc + "\""
    ensures "{" + ("\"responseCode\":" + code + ",") + "\"responseDesc\":" + quoted + "}" ==
      "{\"responseCode\":" + code + ",\"responseDesc\":\"" + desc + "\"}"
  {
  }

  /** `s.replace(/^({)/, "")`: one `{` removed, and only when it is the first character. */
  function StripLeadingBrace(s: string): (r: string)
    ensures |s| > 0 && s[0] == '{' ==> "{" + r == s
    ensures !(|s| > 0 && s[0] == '{') ==> r == s
  {
    if |s| > 0 && s[0] == '{' then s[1..] else s
  }

  /** The text written after a body already under way: `",` and the envelope without its `{`. */
  function TrailingFragment(e: Envelope): string {
    "\"," + StripLeadingBrace(EnvelopeJson(e))
  }

  /**
   * The fragment starts with `",`, and putting `{` in front of what follows those two
   * characters gives back exactly the envelope's JSON.
   */
  lemma TrailingFragmentRestores(e: Envelope)
    ensures var f := TrailingFragment(e);
      |f| >= 2 && f[..2] == "\"," && "{" + f[2..] == EnvelopeJson(e)
  {
    var f := TrailingFragment(e);
    assert f[2..] == StripLeadingBrace(EnvelopeJson(e));
  }

  /** Only the first `{` goes: a second one right behind it stays. */
  lemma StripRemovesOneBrace(s: string)
    ensures StripLeadingBrace("{{" + s) == "{" + s
  {
    assert ("{{" + s)[1..] == "{" + s;
  }

  /** The access-log entry written for a fault: error level, message `UUID=<id>` and what follows it. */
  function FaultEntry(now: Clock.DateTime, requestId: string, rest: string, meta: Option<AccessLog.Meta>): string {
    AccessLog.Line(AccessLog.Timestamp(now), "error", Some("UUID=" + requestId + rest), meta)
  }

  /**
   * Whatever the logger renders after the request id (an error's stack runs over several
   * lines), the fault entry starts with the timestamp, the level `ERROR` and `UUID=<id>`.
   */
  lemma FaultEntryPrefix(now: Clock.DateTime, requestId: string, rest: string, meta: Option<AccessLog.Meta>)
    ensures var e, p := FaultEntry(now, requestId, rest, meta), AccessLog.Timestamp(now) + " ERROR UUID=" + requestId;
      |p| <= |e| && e[..|p|] == p
  {
    ErrorLinePrefix(AccessLog.Timestamp(now), requestId, rest, meta);
  }

  lemma ErrorLinePrefix(ts: string, requestId: string, rest: string, meta: Option<AccessLog.Meta>)
    ensures var e, p := AccessLog.Line(ts, "error", Some("UUID=" + requestId + rest), meta), ts + " ERROR UUID=" + requestId;
      |p| <= |e| && e[..|p|] == p
  {
    var e, p := AccessLog.Line(ts, "error", Some("UUID=" + requestId + rest), meta), ts + " ERROR UUID=" + requestId;
    UpperError();
    assert e == ts + " " + "ERROR" + " " + ("UUID=" + requestId + rest) + AccessLog.Tail(meta);
    ErrorRegroup(ts, requestId, rest, AccessLog.Tail(meta));
    assert e == p + (rest + AccessLog.Tail(meta));
  }

  lemma UpperError()
    ensures Upper("error") == "ERROR"
  {
    assert Upper("error") == [UpperChar('e')] + Upper("rror");
  }

  lemma ErrorRegroup(ts: string, requestId: string, rest: string, tail: string)
    ensures ts + " " + "ERROR" + " " + ("UUID=" + requestId + rest) + tail ==
      (ts + " ERROR UUID=" + requestId) + (rest + tail)
  {
    assert " " + "ERROR" + " " + "UUID=" == " ERROR UUID=";
  }

  /**
   * When what follows the request id has no newline, the fault entry reads back as an ERROR
   * entry with its message and meta.
   */
  lemma FaultEntryReadBack(now: Clock.DateTime, requestId: string, rest: string, meta: Option<AccessLog.Meta>)
    requires Clock.InRange(now)
    requires '\n' !in requestId && '\n' !in rest
    ensures AccessLog.ParseLine(FaultEntry(now, requestId, rest, meta)) ==
      Some(AccessLog.Entry(AccessLog.Timestamp(now), "ERROR", "UUID=" + requestId + rest,
        if AccessLog.HasMeta(meta) then Some(meta.value.json) else None))
  {
    var m := "UUID=" + requestId + rest;
    assert '\n' !in m by {
      forall i | 0 <= i < |m|
        ensures m[i] != '\n'
      {
        if i < 5 {
          assert m[i] == "UUID="[i];
        } else if i < 5 + |requestId| {
          assert m[i] == requestId[i - 5];
        } else {
          assert m[i] == rest[i - 5 - |requestId|];
        }
      }
    }
    AccessLog.TimestampHasNoSpace(now);
    AccessLog.ParseLineRoundTrip(AccessLog.Timestamp(now), "error", Some(m), meta);
    assert Upper("error") == "ERROR";
  }

  /** One observable step of a request's handling, in the order it is issued. */
  datatype Step = Logged(line: string) | StatusSet(code: int) | JsonSent(text: string) | Written(chunk: string) | Ended(chunk: string)

  /**
   * One request in flight: the response object `res` as the client sees it and the access-log
   * lines written while handling it, with the order of every log write and response call.
   */
  class Exchange {
    var statusCode: int
    var headersSent: bool
    var finished: bool
    var body: string
    var accessLog: seq<string>
    var steps: seq<Step>

    /** A finished response has sent its headers, and no body goes out before the headers. */
    ghost predicate Valid()
      reads this
    {
      && (finished ==> headersSent)
      && (!headersSent ==> body == [])
    }

    /** A fresh response: status 200, nothing sent, nothing logged. */
    constructor ()
      ensures Valid()
      ensures statusCode == 200 && !headersSent && !finished && body == []
      ensures accessLog == [] && steps == []
    {
      statusCode, headersSent, finished, body := 200, false, false, [];
      accessLog, steps := [], [];
    }

    /** `res.status(code)`: sets the status to be sent with the headers. */
    method Status(code: int)
      requires Valid()
      modifies this
      ensures Valid()
      ensures statusCode == code && steps == old(steps) + [StatusSet(code)]
      ensures headersSent == old(headersSent) && finished == old(finished)
      ensures body == old(body) && accessLog == old(accessLog)
    {
      statusCode := code;
      steps := steps + [StatusSet(code)];
    }

    /**
     * `res.json(value)`, given the value's JSON text: sends headers and body and finishes.
     * Once headers are out, setting the content type throws and nothing is written.
     */
    method SendJson(text: string) returns (thrown: bool)
      requires Valid()
      modifies this
      ensures Valid()
      ensures thrown == old(headersSent)
      ensures statusCode == old(statusCode) && headersSent && accessLog == old(accessLog)
      ensures thrown ==> finished == old(finished) && body == old(body) && steps == old(steps)
      ensures !thrown ==> finished && body == old(body) + text && steps == old(steps) + [JsonSent(text)]
    {
      thrown := headersSent;
      if !thrown {
        headersSent, finished := true, true;
        body := body + text;
        steps := steps + [JsonSent(text)];
      }
    }

    /**
     * `res.end(chunk)`: sends the headers if they are not out yet, appends the chunk and
     * finishes; on a response already finished the chunk is dropped.
     */
    method End(chunk: string)
      requires Valid()
      modifies this
      ensures Valid()
      ensures statusCode == old(statusCode) && headersSent && finished && accessLog == old(accessLog)
      ensures body == if old(finished) then old(body) else old(body) + chunk
      ensures steps == old(steps) + [Ended(chunk)]
    {
      if !finished {
        body := body + chunk;
      }
      headersSent, finished := true, true;
      steps := steps + [Ended(chunk)];
    }

    /**
     * `res.write(chunk)`, as a route streaming its reply does: sends the headers if they are not
     * out yet and appends the chunk, leaving the response open; after finish it is dropped.
     */
    method Write(chunk: string)
      requires Valid()
      modifies this
      ensures Valid()
      ensures statusCode == old(statusCode) && headersSent && finished == old(finished)
      ensures accessLog == old(accessLog)
      ensures body == if old(finished) then old(body) else old(body) + chunk
      ensures steps == old(steps) + [Written(chunk)]
    {
      if !finished {
        body := body + chunk;
      }
      headersSent := true;
      steps := steps + [Written(chunk)];
    }

    /** `global.logger.error(...)`: one line appended to the access stream. */
    method LogError(line: string)
      requires Valid()
      modifies this
      ensures Valid()
      ensures accessLog == old(accessLog) + [line] && steps == old(steps) + [Logged(line)]
      ensures statusCode == old(statusCode) && headersSent == old(headersSent)
      ensures finished == old(finished) && body == old(body)
    {
      accessLog := accessLog + [line];
      steps := steps + [Logged(line)];
    }

    /**
     * `app.all("*")`: status 500 and the not-found envelope. Nothing is logged. If a route has
     * already sent headers and passed the request on, `res.json` throws and the fault goes to
     * the error middleware.
     */
    method NotFound(config: Config) returns (thrown: bool)
      requires Valid()
      modifies this
      ensures Valid()
      ensures thrown == old(headersSent)
      ensures statusCode == InternalServerError && headersSent && accessLog == old(accessLog)
      ensures !thrown ==>
        && finished && body == EnvelopeJson(NotFoundEnvelope(config))
        && steps == old(steps) + [StatusSet(InternalServerError), JsonSent(EnvelopeJson(NotFoundEnvelope(config)))]
      ensures thrown ==>
        && finished == old(finished) && body == old(body)
        && steps == old(steps) + [StatusSet(InternalServerError)]
    {
      Status(InternalServerError);
      thrown := SendJson(EnvelopeJson(NotFoundEnvelope(config)));
    }

    /**
     * The error middleware. It first logs one error entry carrying the request id, then either
     * replies 500 with the fault envelope or, when headers are already out, ends the body with
     * the trailing fragment and returns without touching the status.
     * `rest` is the text the logger renders for the remaining arguments, `meta` what it attaches.
     */
    method HandleFault(config: Config, now: Clock.DateTime, requestId: string, rest: string, meta: Option<AccessLog.Meta>)
      requires Valid()
      modifies this
      ensures Valid()
      ensures accessLog == old(accessLog) + [FaultEntry(now, requestId, rest, meta)]
      ensures headersSent && finished
      ensures old(headersSent) ==>
        && statusCode == old(statusCode)
        && body == (if old(finished) then old(body) else old(body) + TrailingFragment(FaultEnvelope(config)))
        && steps == old(steps) + [Logged(FaultEntry(now, requestId, rest, meta)), Ended(TrailingFragment(FaultEnvelope(config)))]
      ensures !old(headersSent) ==>
        && statusCode == InternalServerError
        && body == EnvelopeJson(FaultEnvelope(config))
        && steps == old(steps) + [Logged(FaultEntry(now, requestId, rest, meta)),
                                  StatusSet(InternalServerError), JsonSent(EnvelopeJson(FaultEnvelope(config)))]
    {
      LogError(AccessLog.Line(AccessLog.Timestamp(now), "error", Some("UUID=" + requestId + rest), meta));
      var response := FaultEnvelope(config);
      if headersSent {
        var text := EnvelopeJson(response);
        text := StripLeadingBrace(text);
        End("\"," + text);
        return;
      }
      Status(InternalServerError);
      var thrown := SendJson(EnvelopeJson(response));
    }
  }
}

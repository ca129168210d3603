/**
 * The worker's startup announcement (src/index.js:239-245): the environment name with its
 * first character upper-cased, then " server started at port " and the port, logged at info.
 */
module Startup {
  import opened Wrappers
  import opened Text
  import Clock
  import AccessLog

  /** `app_port` of the service configuration (helpers/apiConfig.js:5). */
  const AppPort: nat := 3333

  /** The configured port renders as `3333`, so that is how the startup message ends. */
  lemma ServicePort(environmentName: string)
    ensures Message(environmentName, AppPort) == Capitalize(environmentName) + " server started at port 3333"
  {
    assert NatToString(3) == "3";
    assert NatToString(33) == "3" + "3";
    assert NatToString(333) == "33" + "3";
    assert NatToString(3333) == "333" + "3";
  }

  /** `s.charAt(0).toUpperCase() + s.slice(1)`. */
  function Capitalize(s: string): (r: string)
    ensures |r| == |s|
    ensures s != [] ==> r[0] == UpperChar(s[0])
    ensures forall i :: 1 <= i < |s| ==> r[i] == s[i]
  {
    if s == [] then [] else [UpperChar(s[0])] + s[1..]
  }

  /** Capitalising an already capitalised name changes nothing. */
  lemma CapitalizeIdempotent(s: string)
    ensures Capitalize(Capitalize(s)) == Capitalize(s)
  {
  }

  /** The announcement text. */
  function Message(environmentName: string, port: nat): string {
    Capitalize(environmentName) + " server started at port " + NatToString(port)
  }

  /**
   * The announcement keeps the environment name apart from its first letter, and the port can
   * be read back from the digits after the fixed phrase.
   */
  lemma MessageReadBack(environmentName: string, port: nat)
    ensures var m, k := Message(environmentName, port), |environmentName|;
      && |m| > k + 24
      && (forall i :: 1 <= i < k ==> m[i] == environmentName[i])
      && m[k..k + 24] == " server started at port "
      && (forall i :: k + 24 <= i < |m| ==> IsDigit(m[i]))
      && ParseNat(m[k + 24..]) == port
  {
    var m, k := Message(environmentName, port), |environmentName|;
    assert m[k..k + 24] == " server started at port ";
    assert m[k + 24..] == NatToString(port);
    ParseNatToString(port);
  }

  /** The access-log line written once the server listens. */
  function Line(now: Clock.DateTime, environmentName: string, port: nat): string {
    AccessLog.Line(AccessLog.Timestamp(now), "info", Some(Message(environmentName, port)), None)
  }

  /** The startup line reads back as an INFO entry carrying the announcement and no metadata. */
  lemma LineReadBack(now: Clock.DateTime, environmentName: string, port: nat)
    requires Clock.InRange(now)
    requires '\n' !in environmentName
    ensures AccessLog.ParseLine(Line(now, environmentName, port)) ==
      Some(AccessLog.Entry(AccessLog.Timestamp(now), "INFO", Message(environmentName, port), None))
  {
    var m := Message(environmentName, port);
    MessageHasNoNewline(environmentName, port);
    assert Upper("info") == "INFO";
    AccessLog.TimestampHasNoSpace(now);
    AccessLog.ParseLineRoundTrip(AccessLog.Timestamp(now), "info", Some(m), None);
  }

  /** A name without a newline gives an announcement without one. */
  lemma MessageHasNoNewline(environmentName: string, port: nat)
    requires '\n' !in environmentName
    ensures '\n' !in Message(environmentName, port)
  {
    var c := Capitalize(environmentName);
    forall i | 0 <= i < |c|
      ensures c[i] != '\n'
    {
      if i == 0 {
        assert c[0] == UpperChar(environmentName[0]);
      } else {
        assert c[i] == environmentName[i];
      }
    }
    assert '\n' !in " server started at port ";
    var digits := NatToString(port);
    forall i | 0 <= i < |digits|
      ensures digits[i] != '\n'
    {
      assert IsDigit(digits[i]);
    }
  }
}

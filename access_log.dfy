/**
 * The access stream's line format: the winston `formatter` of src/index.js:96-107
 * with the `timestamp` of line 94. Serialised metadata and the clock are inputs.
 */
module AccessLog {
  import opened Wrappers
  import opened Text
  import Clock

  /** The structured metadata attached to an entry: how many keys it has and its JSON text. */
  datatype Meta = Meta(keyCount: nat, json: string)

  /** `options.meta && Object.keys(options.meta).length`: metadata present with at least one key. */
  predicate HasMeta(meta: Option<Meta>) {
    meta.Some? && meta.value.keyCount > 0
  }

  /** The first segment: timestamp, upper-cased level and message (empty when undefined). */
  function Head(timestamp: string, level: string, message: Option<string>): string {
    timestamp + " " + Upper(level) + " " + message.GetOr("")
  }

  /** The continuation segment: a newline, a tab and the metadata's JSON, or nothing. */
  function Tail(meta: Option<Meta>): string {
    if HasMeta(meta) then "\n\t" + meta.value.json else ""
  }

  /** One access-log line, as the `formatter` builds it. */
  function Line(timestamp: string, level: string, message: Option<string>, meta: Option<Meta>): string {
    Head(timestamp, level, message) + Tail(meta)
  }

  /** The timestamp passed to the formatter: the shared UTC format of the current time. */
  function Timestamp(now: Clock.DateTime): string {
    Clock.FormatUtc(now)
  }

  /**
   * The line begins with `timestamp + " " + LEVEL + " " + message`, and it goes on past the
   * message exactly when metadata with a key is attached, in which case what follows is
   * `"\n\t" + json`.
   */
  lemma LineLayout(timestamp: string, level: string, message: Option<string>, meta: Option<Meta>)
    ensures var line, head := Line(timestamp, level, message, meta), Head(timestamp, level, message);
      && |head| <= |line| && line[..|head|] == head
      && head == timestamp + " " + Upper(level) + " " + (if message.Some? then message.value else "")
      && (|line| > |head| <==> HasMeta(meta))
      && (HasMeta(meta) ==> line[|head|..] == "\n\t" + meta.value.json)
      && (!HasMeta(meta) ==> line == head)
  {
    var line, head := Line(timestamp, level, message, meta), Head(timestamp, level, message);
    assert line[..|head|] == head;
    if HasMeta(meta) {
      assert line[|head|..] == "\n\t" + meta.value.json;
    }
  }

  /** What a reader of the access log can recover from one line. */
  datatype Entry = Entry(timestamp: string, level: string, message: string, meta: Option<string>)

  /**
   * Reads a line back: timestamp up to the first space, level up to the next one, then the
   * message and metadata as `ParseBody` reads them.
   */
  function ParseLine(line: string): (r: Option<Entry>)
    ensures r.Some? ==> ' ' !in r.value.timestamp && ' ' !in r.value.level && '\n' !in r.value.message
  {
    match SplitAt(line, ' ')
    case None => None
    case Some((timestamp, rest)) =>
      match SplitAt(rest, ' ')
      case None => None
      case Some((level, body)) =>
        match ParseBody(body)
        case None => None
        case Some((message, meta)) => Some(Entry(timestamp, level, message, meta))
  }

  /** Message up to the first newline; after a newline, a tab and the metadata's JSON. */
  function ParseBody(body: string): (r: Option<(string, Option<string>)>)
    ensures r.Some? ==> '\n' !in r.value.0
  {
    match SplitAt(body, '\n')
    case None => Some((body, None))
    case Some((message, tail)) =>
      if |tail| > 0 && tail[0] == '\t' then Some((message, Some(tail[1..]))) else None
  }

  /** The message and metadata segments read back from what follows the level. */
  lemma ParseBodyRoundTrip(message: string, meta: Option<Meta>)
    requires '\n' !in message
    ensures ParseBody(message + Tail(meta)) ==
      Some((message, if HasMeta(meta) then Some(meta.value.json) else None))
  {
    if HasMeta(meta) {
      assert message + Tail(meta) == message + ['\n'] + ("\t" + meta.value.json);
      SplitAtFirst(message, '\n', "\t" + meta.value.json);
    } else {
      assert message + Tail(meta) == message;
    }
  }

  /**
   * A line whose timestamp and level hold no space and whose message holds no newline reads
   * back as the fields it was built from, and shows metadata exactly when `HasMeta` holds.
   */
  lemma ParseLineRoundTrip(timestamp: string, level: string, message: Option<string>, meta: Option<Meta>)
    requires ' ' !in timestamp && ' ' !in level
    requires message.Some? ==> '\n' !in message.value
    ensures ParseLine(Line(timestamp, level, message, meta)) ==
      Some(Entry(timestamp, Upper(level), message.GetOr(""), if HasMeta(meta) then Some(meta.value.json) else None))
  {
    var msg := message.GetOr("");
    UpperKeepsOthers(level, ' ');
    assert Line(timestamp, level, message, meta) == timestamp + " " + Upper(level) + " " + (msg + Tail(meta));
    ParseLineFields(timestamp, Upper(level), msg + Tail(meta));
    ParseBodyRoundTrip(msg, meta);
  }

  /**
   * The format does not separate message from metadata: a message holding `"\n\t"` writes the
   * same line as the text before it with the rest attached as metadata. That is why the reader
   * above needs messages without a newline.
   */
  lemma MessageMimicsMeta(timestamp: string, level: string, message: string, json: string, keyCount: nat)
    requires keyCount > 0
    ensures Line(timestamp, level, Some(message + "\n\t" + json), None) ==
      Line(timestamp, level, Some(message), Some(Meta(keyCount, json)))
  {
    assert Head(timestamp, level, Some(message + "\n\t" + json)) ==
      Head(timestamp, level, Some(message)) + ("\n\t" + json);
  }

  /** The first two spaces delimit timestamp and level when neither holds a space. */
  lemma ParseLineFields(timestamp: string, level: string, body: string)
    requires ' ' !in timestamp && ' ' !in level
    ensures ParseLine(timestamp + " " + level + " " + body) ==
      match ParseBody(body)
      case None => None
      case Some((message, meta)) => Some(Entry(timestamp, level, message, meta))
  {
    var rest := level + [' '] + body;
    assert timestamp + " " + level + " " + body == timestamp + [' '] + rest;
    SplitAtFirst(timestamp, ' ', rest);
    SplitAtFirst(level, ' ', body);
  }

  /** A formatted clock reading holds no space, so the timestamp is the first field of its line. */
  lemma TimestampHasNoSpace(now: Clock.DateTime)
    requires Clock.InRange(now)
    ensures ' ' !in Timestamp(now)
  {
    Clock.FormatShape(now);
    var s := Timestamp(now);
    forall i | 0 <= i < |s|
      ensures s[i] != ' '
    {
      if !Clock.IsSeparatorPosition(i) {
        assert IsDigit(s[i]);
      }
    }
  }
}

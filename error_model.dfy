/**
 * The `errorLogs` model (src/models/errorModel.js:23-87): its attributes, their column names,
 * the five-valued `action` enum, the non-null timestamps that default to the insertion time,
 * and `id` as the primary key.
 */
module ErrorModel {
  import opened Wrappers
  import Clock

  /** The table the model is stored in. */
  const TableName: string := "errorLogs"

  /** The values of the `action` column. */
  datatype Severity = Critical | Major | Minor | Blocker | Neutral

  /** The enum label stored for each value. */
  function SeverityName(s: Severity): string {
    match s
    case Critical => "Critical"
    case Major => "Major"
    case Minor => "Minor"
    case Blocker => "Blocker"
    case Neutral => "Neutral"
  }

  /** Checks a value given for `action` against the enum. */
  function ParseSeverity(text: string): (r: Option<Severity>)
    ensures r.Some? ==> SeverityName(r.value) == text
    ensures r.None? ==> forall s: Severity :: SeverityName(s) != text
  {
    if text == "Critical" then Some(Critical)
    else if text == "Major" then Some(Major)
    else if text == "Minor" then Some(Minor)
    else if text == "Blocker" then Some(Blocker)
    else if text == "Neutral" then Some(Neutral)
    else None
  }

  /** The enum accepts exactly its five labels. */
  lemma SeverityAcceptsExactly(text: string)
    ensures ParseSeverity(text).Some? <==>
      text == "Critical" || text == "Major" || text == "Minor" || text == "Blocker" || text == "Neutral"
  {
  }

  /** Reading back a stored label gives the value that was stored. */
  lemma SeverityRoundTrip(s: Severity)
    ensures ParseSeverity(SeverityName(s)) == Some(s)
  {
  }

  /** The model's attributes, in declaration order. */
  datatype Attribute =
    | Id | Service | ProcessDate | Message | ErrorCode | ErrorId
    | StackTrace | InnerException | Action | CreatedAt | ModifiedAt

  /** The column an attribute is stored in: its `field`, or the attribute's own name without one. */
  function Column(a: Attribute): string {
    match a
    case Id => "id"
    case Service => "service"
    case ProcessDate => "process_date"
    case Message => "message"
    case ErrorCode => "error_code"
    case ErrorId => "error_id"
    case StackTrace => "stack_trace"
    case InnerException => "inner_exception"
    case Action => "action"
    case CreatedAt => "created"
    case ModifiedAt => "modified"
  }

  /** The attribute stored in a column, if any. */
  function AttributeOfColumn(column: string): (r: Option<Attribute>)
    ensures r.Some? ==> Column(r.value) == column
  {
    if column == "id" then Some(Id)
    else if column == "service" then Some(Service)
    else if column == "process_date" then Some(ProcessDate)
    else if column == "message" then Some(Message)
    else if column == "error_code" then Some(ErrorCode)
    else if column == "error_id" then Some(ErrorId)
    else if column == "stack_trace" then Some(StackTrace)
    else if column == "inner_exception" then Some(InnerException)
    else if column == "action" then Some(Action)
    else if column == "created" then Some(CreatedAt)
    else if column == "modified" then Some(ModifiedAt)
    else None
  }

  /** Every attribute can be found from its column: no two attributes share a column. */
  lemma ColumnRoundTrip(a: Attribute)
    ensures AttributeOfColumn(Column(a)) == Some(a)
  {
  }

  /** The attribute-to-column mapping is injective. */
  lemma ColumnInjective(a: Attribute, b: Attribute)
    ensures Column(a) == Column(b) ==> a == b
  {
    ColumnRoundTrip(a);
    ColumnRoundTrip(b);
  }

  /**
   * The two timestamps are declared `allowNull: false`, and a primary key is never null;
   * every other attribute may be null.
   */
  predicate AllowsNull(a: Attribute) {
    !IsPrimaryKey(a) && a != CreatedAt && a != ModifiedAt
  }

  /** Only the two timestamps have `defaultValue: Sequelize.NOW`. */
  predicate DefaultsToNow(a: Attribute) {
    a == CreatedAt || a == ModifiedAt
  }

  /** `id` is the primary key. */
  predicate IsPrimaryKey(a: Attribute) {
    a == Id
  }

  /** A stored row: every attribute but the timestamps may be null. */
  datatype ErrorRecord = ErrorRecord(
    id: Option<string>,
    service: Option<string>,
    processDate: Option<Clock.DateTime>,
    message: Option<string>,
    errorCode: Option<string>,
    errorId: Option<string>,
    stackTrace: Option<string>,
    innerException: Option<string>,
    action: Option<Severity>,
    createdAt: Clock.DateTime,
    modifiedAt: Clock.DateTime)

  /** Whether a row holds null for an attribute. */
  predicate IsNull(r: ErrorRecord, a: Attribute) {
    match a
    case Id => r.id.None?
    case Service => r.service.None?
    case ProcessDate => r.processDate.None?
    case Message => r.message.None?
    case ErrorCode => r.errorCode.None?
    case ErrorId => r.errorId.None?
    case StackTrace => r.stackTrace.None?
    case InnerException => r.innerException.None?
    case Action => r.action.None?
    case CreatedAt => false
    case ModifiedAt => false
  }

  /** The values a caller passes to `create`: any attribute may be missing. */
  datatype Draft = Draft(
    id: Option<string>,
    service: Option<string>,
    processDate: Option<Clock.DateTime>,
    message: Option<string>,
    errorCode: Option<string>,
    errorId: Option<string>,
    stackTrace: Option<string>,
    innerException: Option<string>,
    action: Option<string>,
    createdAt: Option<Clock.DateTime>,
    modifiedAt: Option<Clock.DateTime>)

  /** Whether a draft gives no value for an attribute. */
  predicate IsMissing(d: Draft, a: Attribute) {
    match a
    case Id => d.id.None?
    case Service => d.service.None?
    case ProcessDate => d.processDate.None?
    case Message => d.message.None?
    case ErrorCode => d.errorCode.None?
    case ErrorId => d.errorId.None?
    case StackTrace => d.stackTrace.None?
    case InnerException => d.innerException.None?
    case Action => d.action.None?
    case CreatedAt => d.createdAt.None?
    case ModifiedAt => d.modifiedAt.None?
  }

  datatype SchemaError = InvalidAction(given: string) | MissingId | DuplicateId(key: string)

  /**
   * Turns a draft into a row at time `now`: an `action` outside the enum is rejected, missing
   * timestamps become `now`, everything else is copied. No id is invented: `default` is not an
   * option Sequelize reads, so `Sequelize.UUIDV4` is never applied.
   */
  function Build(d: Draft, now: Clock.DateTime): (r: Result<ErrorRecord, SchemaError>)
    ensures r.Failure? <==> d.action.Some? && ParseSeverity(d.action.value).None?
    ensures r.Failure? ==> r.error == InvalidAction(d.action.value)
    ensures r.Success? ==>
      && r.value.createdAt == (if d.createdAt.Some? then d.createdAt.value else now)
      && r.value.modifiedAt == (if d.modifiedAt.Some? then d.modifiedAt.value else now)
      && (r.value.action.Some? <==> d.action.Some?)
      && (r.value.action.Some? ==> SeverityName(r.value.action.value) == d.action.value)
      && r.value.id == d.id && r.value.service == d.service && r.value.processDate == d.processDate
      && r.value.message == d.message && r.value.errorCode == d.errorCode && r.value.errorId == d.errorId
      && r.value.stackTrace == d.stackTrace && r.value.innerException == d.innerException
  {
    var action: Option<Option<Severity>> :=
      if d.action.None? then Some(None)
      else match ParseSeverity(d.action.value)
        case None => None
        case Some(s) => Some(Some(s));
    if action.None? then Failure(InvalidAction(d.action.value))
    else Success(ErrorRecord(
      d.id, d.service, d.processDate, d.message, d.errorCode, d.errorId, d.stackTrace,
      d.innerException, action.value, d.createdAt.GetOr(now), d.modifiedAt.GetOr(now)))
  }

  /** The draft that states every value of a row. */
  function ToDraft(r: ErrorRecord): Draft {
    Draft(
      r.id, r.service, r.processDate, r.message, r.errorCode, r.errorId, r.stackTrace,
      r.innerException, if r.action.Some? then Some(SeverityName(r.action.value)) else None,
      Some(r.createdAt), Some(r.modifiedAt))
  }

  /** A row's own values build that same row, whatever the time. */
  lemma BuildRoundTrip(r: ErrorRecord, now: Clock.DateTime)
    ensures Build(ToDraft(r), now) == Success(r)
  {
    if r.action.Some? {
      SeverityRoundTrip(r.action.value);
    }
  }

  /**
   * A built row is null exactly where the draft gave nothing and the attribute has no default;
   * an attribute with a default is never null.
   */
  lemma BuildNulls(d: Draft, now: Clock.DateTime, a: Attribute)
    requires Build(d, now).Success?
    ensures IsNull(Build(d, now).value, a) <==> IsMissing(d, a) && !DefaultsToNow(a)
  {
    var r := Build(d, now).value;
    if a == Action {
      assert r.action.Some? <==> d.action.Some?;
    }
  }

  /** Every row of the table has a key, and no two rows share one. */
  ghost predicate KeysUnique(rows: seq<ErrorRecord>) {
    && (forall i :: 0 <= i < |rows| ==> rows[i].id.Some?)
    && (forall i, j :: 0 <= i < j < |rows| ==> rows[i].id != rows[j].id)
  }

  /** Whether some row already has key `key`. */
  predicate HasKey(rows: seq<ErrorRecord>, key: string) {
    exists i :: 0 <= i < |rows| && rows[i].id == Some(key)
  }

  /** The primary-key constraint on an insert: a row needs a key, and one not already taken. */
  function Insert(rows: seq<ErrorRecord>, row: ErrorRecord): (r: Result<seq<ErrorRecord>, SchemaError>)
    ensures r.Success? <==> row.id.Some? && !HasKey(rows, row.id.value)
    ensures r.Success? ==> r.value == rows + [row]
    ensures row.id.None? ==> r == Failure(MissingId)
    ensures row.id.Some? && HasKey(rows, row.id.value) ==> r == Failure(DuplicateId(row.id.value))
  {
    if row.id.None? then Failure(MissingId)
    else if HasKey(rows, row.id.value) then Failure(DuplicateId(row.id.value))
    else Success(rows + [row])
  }

  /** A table whose keys are unique holds null only where the schema allows it. */
  lemma StoredNullsAllowed(rows: seq<ErrorRecord>, i: int, a: Attribute)
    requires KeysUnique(rows) && 0 <= i < |rows|
    ensures IsNull(rows[i], a) ==> AllowsNull(a)
  {
    if a == Id {
      assert rows[i].id.Some?;
    }
  }

  /** Inserting keeps the keys of the table unique. */
  lemma InsertKeepsKeysUnique(rows: seq<ErrorRecord>, row: ErrorRecord)
    requires KeysUnique(rows)
    ensures Insert(rows, row).Success? ==> KeysUnique(Insert(rows, row).value)
  {
    if Insert(rows, row).Success? {
      var next := rows + [row];
      forall i, j | 0 <= i < j < |next|
        ensures next[i].id != next[j].id
      {
        if j == |rows| {
          assert next[i] == rows[i];
        }
      }
    }
  }

  /** `create`: builds the row at time `now`, then inserts it under the key constraint. */
  function Create(rows: seq<ErrorRecord>, d: Draft, now: Clock.DateTime): (r: Result<seq<ErrorRecord>, SchemaError>)
    ensures r.Success? <==> Build(d, now).Success? && d.id.Some? && !HasKey(rows, d.id.value)
    ensures r.Success? ==> r.value == rows + [Build(d, now).value]
    ensures d.action.Some? && ParseSeverity(d.action.value).None? ==> r == Failure(InvalidAction(d.action.value))
    ensures Build(d, now).Success? && d.id.None? ==> r == Failure(MissingId)
    ensures Build(d, now).Success? && d.id.Some? && HasKey(rows, d.id.value) ==> r == Failure(DuplicateId(d.id.value))
  {
    match Build(d, now)
    case Failure(e) => Failure(e)
    case Success(row) => Insert(rows, row)
  }

  /** Creating keeps the keys of the table unique. */
  lemma CreateKeepsKeysUnique(rows: seq<ErrorRecord>, d: Draft, now: Clock.DateTime)
    requires KeysUnique(rows)
    ensures Create(rows, d, now).Success? ==> KeysUnique(Create(rows, d, now).value)
  {
    if Build(d, now).Success? {
      InsertKeepsKeysUnique(rows, Build(d, now).value);
    }
  }
}

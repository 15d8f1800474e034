/** Identifiers, column values and library functions shared by every table and service. */
module Values {
  /** uuid4 keys, modelled as numbers handed out by a counter so that none is ever repeated. */
  type Id = nat

  /** A naive UTC instant in microseconds since 0001-01-01T00:00. */
  type Time = nat

  datatype Option<+T> = None | Some(value: T)

  /** What the code can raise besides an HTTP refusal. */
  datatype Error =
    | MissingType | UnknownType(name: string) | MissingInner | NeedsDatabase | UnknownOperator(op: string)
    | BadStateType | BadUuid                                                    // ValueError
    | MissingKey(key: string)                                                   // KeyError
    | Uncomparable | NotText                                                    // TypeError
    | BlockedField(field: string)                                               // RuleEvaluationError while applying
    | BadRow | BadParameter | BrokenReference | TooManyRows | NoSuchRow         // database errors
    | NotSerializable                                                           // a date inside a JSON column
    | NoBacklogState | BadSchedule | Overflow                                   // scheduler errors
  {
    predicate IsValueError() {
      MissingType? || UnknownType? || MissingInner? || NeedsDatabase? || UnknownOperator? || BadStateType? || BadUuid?
    }
  }

  datatype Result<+T> = Ok(value: T) | Err(error: Error) {
    predicate IsFailure() {
      Err?
    }

    function PropagateFailure<U>(): Result<U>
      requires Err?
    {
      Err(error)
    }

    function Extract(): T
      requires Ok?
    {
      value
    }
  }

  /** A JSON or column value. `Ref` is a UUID column, `Date` a DATE column. */
  datatype Value =
    | Null | Bool(b: bool) | Int(n: int) | Float(r: real) | Str(s: string)
    | Ref(id: Id) | Date(day: int) | Arr(items: seq<Value>) | Obj(entries: map<string, Value>)
  {
    predicate IsNumber() {
      Bool? || Int? || Float?
    }

    function Number(): real
      requires IsNumber()
    {
      match this
      case Bool(b) => if b then 1.0 else 0.0
      case Int(n) => n as real
      case Float(r) => r
    }

    /** Python truthiness. */
    predicate Truthy() {
      match this
      case Null => false
      case Bool(b) => b
      case Int(n) => n != 0
      case Float(r) => r != 0.0
      case Str(s) => s != ""
      case Ref(_) => true
      case Date(_) => true
      case Arr(items) => items != []
      case Obj(entries) => entries != map[]
    }
  }

  /** Python `==`: numbers compare across their types. */
  predicate PyEq(a: Value, b: Value) {
    if a.IsNumber() && b.IsNumber() then a.Number() == b.Number() else a == b
  }

  /** The issue columns that PATCH and rules can write. */
  datatype Column =
    | Title | Description | Kind | Priority | Estimate | StateId | AssigneeId | ProjectId
    | ParentId | DueDate | CustomFields | TriageContext | Position

  /** Functions of Python and its libraries whose code is not part of the model. Every theorem holds for all of them. */
  datatype Lib = Lib(
    show: Value -> string,               // str(v) for anything but a str
    lower: string -> string,             // str.lower
    parseId: string -> Option<Id>,       // uuid.UUID(text), None on ValueError
    bind: (Column, Value) -> Value,      // what the driver stores for a value sent to a column
    word: char -> bool,                  // \w
    cronValid: string -> bool,           // croniter.is_valid
    cron: (string, Time) -> Option<Time>,  // croniter(expr, t).get_next(), None if it raises
    dateText: Time -> string             // strftime("%Y-%m-%d")
  )

  function Show(lib: Lib, v: Value): string {
    if v.Str? then v.s else lib.show(v)
  }

  /** `dict.get(key)`. */
  function Get(m: map<string, Value>, key: string): Value {
    if key in m then m[key] else Null
  }
}

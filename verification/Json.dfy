/**
 The JavaScript values that event payloads are made of. A payload is a record
 from field names to values; reading a missing field gives `Undefined`, and
 `{...a, ...b}` is the map operation `a + b`.
 */
module Json {

  /** The field names the modelled code reads or writes; any other name is an `OtherKey`. */
  datatype Field =
    | KeyId | KeySessionId | KeyRole | KeyContent | KeyTokenCount | KeyCreatedAt
    | KeyTurnId | KeyBackendItemId | KeyHistorySeq | KeyState | KeyPhase
    | KeyStartEventSeq | KeyEndEventSeq | KeyTimelineStartSeq | KeyLastEventSeq
    | KeyItemId | KeyMessageId | KeyMessage | KeyMessages | KeyIgnored | KeyText
    | KeyClientId | KeyClientRequestId | KeyInitial | KeyCode | KeyHistoryVersion
    | KeyDiffAvailable | KeySnapshotAvailable | KeyUnifiedDiff | KeyDiff | KeyDiffStat
    | OtherKey(name: string)

  datatype Value =
    | Undefined
    | Null
    | Bool(b: bool)
    | Num(n: int)
    | Str(s: string)
    | Arr(items: seq<Value>)
    | Obj(fields: map<Field, Value>)

  type Record = map<Field, Value>

  function Get(r: Record, k: Field): Value {
    if k in r then r[k] else Undefined
  }

  /** `v?.k`: only records have fields. */
  function Property(v: Value, k: Field): Value {
    if v.Obj? then Get(v.fields, k) else Undefined
  }

  predicate Truthy(v: Value) {
    match v
    case Undefined => false
    case Null => false
    case Bool(b) => b
    case Num(n) => n != 0
    case Str(s) => s != ""
    case Arr(_) => true
    case Obj(_) => true
  }

  /** `v ?? other`. */
  function OrElse(v: Value, other: Value): Value {
    if v.Undefined? || v.Null? then other else v
  }

  /** `typeof v === 'string' ? v : other`. */
  function StringOr(v: Value, other: string): string {
    if v.Str? then v.s else other
  }

  /** `a === b`: two arrays or objects read out of JSON are never the same reference. */
  predicate StrictEquals(a: Value, b: Value) {
    a == b && !a.Arr? && !a.Obj?
  }
}

/**
 Constraint values and the meaning of a constraint schema.

 Constraint values are what Python's `json` can hold, plus `Other` for any other object.
 A schema is itself such a value (a dict), read keyword by keyword with the same
 `isinstance` tests the validator makes, so malformed schemas are covered too.
*/
module ConstraintSchema {
  import opened Options

  datatype Value =
    | Null
    | Bool(b: bool)
    | Int(n: int)
    | Float(x: real)
    | Str(s: string)
    | Arr(items: seq<Value>)
    | Obj(fields: map<string, Value>)
    | Other(id: nat)

  type Schema = v: Value | v.Obj? witness Obj(map[])

  /** One step of a path from the root of a value: an object key or a list index. */
  datatype Step = Key(name: string) | Index(i: nat)
  type Path = seq<Step>

  datatype Code =
    | InvalidType | EnumMismatch | MinLength | MaxLength | Minimum | Maximum
    | MinItems | MaxItems | Required | AdditionalProperty

  // ---------- Python's view of values ----------

  predicate Truthy(v: Value) {
    match v
    case Null => false
    case Bool(b) => b
    case Int(n) => n != 0
    case Float(x) => x != 0.0
    case Str(s) => s != ""
    case Arr(items) => items != []
    case Obj(fields) => fields != map[]
    case Other(_) => true
  }

  predicate IsNumber(v: Value) { v.Int? || v.Float? }

  /** Numeric reading of a bool, int or float; `isinstance(True, int)` holds in Python. */
  function Numeric(v: Value): Option<real> {
    match v
    case Bool(b) => Some(if b then 1.0 else 0.0)
    case Int(n) => Some(n as real)
    case Float(x) => Some(x)
    case _ => None
  }

  /** `isinstance(v, int)` with its value. */
  function Integral(v: Value): Option<int> {
    match v
    case Bool(b) => Some(if b then 1 else 0)
    case Int(n) => Some(n)
    case _ => None
  }

  /** Python's `==`: numbers compare across types, containers member by member. */
  predicate PyEq(a: Value, b: Value) {
    if Numeric(a).Some? || Numeric(b).Some? then Numeric(a) == Numeric(b)
    else
      match (a, b)
      case (Arr(xs), Arr(ys)) => |xs| == |ys| && forall i | 0 <= i < |xs| :: PyEq(xs[i], ys[i])
      case (Obj(f), Obj(g)) => f.Keys == g.Keys && forall k | k in f :: PyEq(f[k], g[k])
      case _ => a == b
  }

  predicate PyIn(v: Value, list: seq<Value>) { exists i | 0 <= i < |list| :: PyEq(v, list[i]) }

  // ---------- Keywords of a schema ----------

  function Get(s: Schema, keyword: string): Option<Value> {
    if keyword in s.fields then Some(s.fields[keyword]) else None
  }

  function TypeNames(s: Schema): seq<Value> {
    match Get(s, "type")
    case None => []
    case Some(Null) => []
    case Some(Arr(items)) => items
    case Some(v) => [v]
  }

  predicate MatchesType(v: Value, name: string) {
    match name
    case "string" => v.Str?
    case "boolean" => v.Bool?
    case "integer" => v.Int?
    case "number" => IsNumber(v)
    case "array" => v.Arr?
    case "object" => v.Obj?
    case "null" => v.Null?
    case _ => false
  }

  predicate TypeOk(v: Value, s: Schema) {
    TypeNames(s) == []
    || exists i | 0 <= i < |TypeNames(s)| :: TypeNames(s)[i].Str? && MatchesType(v, TypeNames(s)[i].s)
  }

  /** A null that `nullable` lets through without any further check. */
  predicate NullAccepted(v: Value, s: Schema) {
    v.Null? && Get(s, "nullable").Some? && Truthy(Get(s, "nullable").value)
  }

  predicate EnumOk(v: Value, s: Schema) {
    match Get(s, "enum")
    case Some(Arr(members)) => PyIn(v, members)
    case _ => true
  }

  function IntKeyword(s: Schema, keyword: string): Option<int> {
    match Get(s, keyword) case None => None case Some(v) => Integral(v)
  }

  function NumberKeyword(s: Schema, keyword: string): Option<real> {
    match Get(s, keyword) case None => None case Some(v) => Numeric(v)
  }

  predicate AtLeast(n: int, bound: Option<int>) { bound.Some? ==> bound.value <= n }
  predicate AtMost(n: int, bound: Option<int>) { bound.Some? ==> n <= bound.value }

  /** `code` is a violation located at the value itself, whose type is already right. */
  predicate LocalError(v: Value, s: Schema, code: Code) {
    match code
    case EnumMismatch => !EnumOk(v, s)
    case MinLength => v.Str? && !AtLeast(|v.s|, IntKeyword(s, "minLength"))
    case MaxLength => v.Str? && !AtMost(|v.s|, IntKeyword(s, "maxLength"))
    case Minimum => IsNumber(v) && NumberKeyword(s, "minimum").Some? && Numeric(v).value < NumberKeyword(s, "minimum").value
    case Maximum => IsNumber(v) && NumberKeyword(s, "maximum").Some? && Numeric(v).value > NumberKeyword(s, "maximum").value
    case MinItems => v.Arr? && !AtLeast(|v.items|, IntKeyword(s, "minItems"))
    case MaxItems => v.Arr? && !AtMost(|v.items|, IntKeyword(s, "maxItems"))
    case _ => false
  }

  function Items(s: Schema): (r: Option<Schema>)
    ensures r.Some? ==> r.value < s
  {
    match Get(s, "items") case Some(Obj(f)) => Some(s.fields["items"]) case _ => None
  }

  function Properties(s: Schema): (r: map<string, Value>)
    ensures forall k | k in r :: r[k] < s
  {
    match Get(s, "properties") case Some(Obj(f)) => s.fields["properties"].fields case _ => map[]
  }

  function RequiredList(s: Schema): seq<Value> {
    match Get(s, "required") case Some(Arr(names)) => names case _ => []
  }

  predicate IsRequired(s: Schema, name: string) { Str(name) in RequiredList(s) }

  function Additional(s: Schema): (r: Value)
    ensures r.Obj? ==> r < s
  {
    if "additionalProperties" in s.fields then s.fields["additionalProperties"] else Bool(true)
  }

  /** The schema an object's field is validated against, if any. */
  function FieldSchema(s: Schema, name: string): (r: Option<Schema>)
    ensures r.Some? ==> r.value < s
  {
    if name in Properties(s) then
      if Properties(s)[name].Obj? then Some(Properties(s)[name]) else None
    else if Additional(s).Obj? then Some(Additional(s)) else None
  }

  predicate HasDefault(s: Schema, name: string) {
    name in Properties(s) && Properties(s)[name].Obj? && "default" in Properties(s)[name].fields
  }

  function DefaultOf(s: Schema, name: string): Value
    requires HasDefault(s, name)
  {
    Properties(s)[name].fields["default"]
  }

  predicate Forbidden(s: Schema, name: string) {
    name !in Properties(s) && Additional(s) == Bool(false)
  }

  // ---------- Declarative conformance ----------

  /** The size and range keywords, each for the kind of value it speaks about. */
  predicate WithinBounds(n: Value, s: Schema) {
    match n
    case Str(text) => AtLeast(|text|, IntKeyword(s, "minLength")) && AtMost(|text|, IntKeyword(s, "maxLength"))
    case Arr(items) => AtLeast(|items|, IntKeyword(s, "minItems")) && AtMost(|items|, IntKeyword(s, "maxItems"))
    case Int(_) => InRange(Numeric(n).value, s)
    case Float(x) => InRange(x, s)
    case _ => true
  }

  predicate InRange(x: real, s: Schema) {
    && (NumberKeyword(s, "minimum").Some? ==> NumberKeyword(s, "minimum").value <= x)
    && (NumberKeyword(s, "maximum").Some? ==> x <= NumberKeyword(s, "maximum").value)
  }

  /** What it means for a complete value to conform: no filling, no order, no error list. */
  ghost predicate Conforms(n: Value, s: Schema)
    decreases s
  {
    NullAccepted(n, s)
    || (&& TypeOk(n, s)
        && EnumOk(n, s)
        && WithinBounds(n, s)
        && (n.Arr? && Items(s).Some? ==> forall i | 0 <= i < |n.items| :: Conforms(n.items[i], Items(s).value))
        && (n.Obj? ==>
              && (forall name :: IsRequired(s, name) ==> name in n.fields)
              && (forall k | k in n.fields :: !Forbidden(s, k))
              && (forall k | k in n.fields && FieldSchema(s, k).Some? :: Conforms(n.fields[k], FieldSchema(s, k).value))))
  }

  // ---------- Filling in defaults ----------

  /** `m` with the defaults of the missing fields among `names`. */
  function WithDefaultsFor(m: map<string, Value>, s: Schema, names: set<string>): map<string, Value> {
    (map k | k in names && HasDefault(s, k) :: DefaultOf(s, k)) + m
  }

  function WithDefaults(m: map<string, Value>, s: Schema): map<string, Value> {
    WithDefaultsFor(m, s, Properties(s).Keys)
  }

  /** The normalised value: defaults filled in wherever the schema reaches. */
  function Fill(v: Value, s: Schema): Value
    decreases s
  {
    if NullAccepted(v, s) || !TypeOk(v, s) then v
    else
      match v
      case Arr(items) =>
        if Items(s).None? then v
        else Arr(seq(|items|, i requires 0 <= i < |items| => Fill(items[i], Items(s).value)))
      case Obj(m) =>
        var w := WithDefaults(m, s);
        Obj(map k | k in w :: if FieldSchema(s, k).Some? then Fill(w[k], FieldSchema(s, k).value) else w[k])
      case _ => v
  }

  // ---------- Exact accounts of errors and defaults ----------

  type Report = (Path, Code)

  /** Every error, located relative to the value. */
  ghost function ErrorSet(v: Value, s: Schema): iset<Report>
    decreases s
  {
    if NullAccepted(v, s) then iset{}
    else if !TypeOk(v, s) then iset{([], InvalidType)}
    else (iset e: Report |
      || (e.0 == [] && LocalError(v, s, e.1))
      || (e.0 != [] && v.Arr? && e.0[0].Index? && e.0[0].i < |v.items| && Items(s).Some?
          && (e.0[1..], e.1) in ErrorSet(v.items[e.0[0].i], Items(s).value))
      || (e.0 != [] && v.Obj? && e.0[0].Key? && FieldReport(v.fields, s, e))
      || (e.0 != [] && v.Obj? && e.0[0].Key? && e.0[0].name in WithDefaults(v.fields, s)
          && FieldSchema(s, e.0[0].name).Some?
          && (e.0[1..], e.1) in ErrorSet(WithDefaults(v.fields, s)[e.0[0].name], FieldSchema(s, e.0[0].name).value)))
  }

  /** Errors about a field of `m` as such: required but absent, or present but not allowed. */
  predicate FieldReport(m: map<string, Value>, s: Schema, e: Report) {
    |e.0| == 1 && e.0[0].Key? &&
    var k := e.0[0].name;
    || (e.1 == Required && IsRequired(s, k) && k !in WithDefaults(m, s))
    || (e.1 == AdditionalProperty && k in m && Forbidden(s, k))
  }

  /** Every applied default, located relative to the value, with the default as declared. */
  ghost function DefaultsOf(v: Value, s: Schema): imap<Path, Value>
    decreases s
  {
    if NullAccepted(v, s) || !TypeOk(v, s) then imap[]
    else
      match v
      case Arr(items) =>
        if Items(s).None? then imap[]
        else
          (imap p: Path |
             p != [] && p[0].Index? && p[0].i < |items| && p[1..] in DefaultsOf(items[p[0].i], Items(s).value)
             :: DefaultsOf(items[p[0].i], Items(s).value)[p[1..]])
      case Obj(m) =>
        var w := WithDefaults(m, s);
        (imap p: Path |
           p != [] && p[0].Key? && p[0].name in w && p[1..] in FieldDefaults(w, m.Keys, s, p[0].name)
           :: FieldDefaults(w, m.Keys, s, p[0].name)[p[1..]])
      case _ => imap[]
  }

  /** The defaults recorded at field `k` of `w`: its own, if it was not `given`, and those within. */
  ghost function FieldDefaults(w: map<string, Value>, given: set<string>, s: Schema, k: string): imap<Path, Value>
    requires k in w
    decreases s, 0
  {
    (if k !in given then imap[[] := w[k]] else imap[])
    + (if FieldSchema(s, k).Some? then DefaultsOf(w[k], FieldSchema(s, k).value) else imap[])
  }

  ghost predicate Clean(v: Value, s: Schema) { ErrorSet(v, s) == iset{} }
}

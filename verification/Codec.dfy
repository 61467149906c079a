/** The string-map codec of parser.go. A struct is a function from its JSON tags to values;
    a schema says which tags it has and how each is written. */
module Codec {
  import opened Wrappers
  import opened Text

  /** How a field is tagged: a string, an int or bool marked ",string", or a bare int. */
  datatype Kind = Text | QuotedInt | QuotedBool | BareInt

  datatype Value = Str(text: string) | Num(num: int) | Flag(flag: bool)

  datatype Json = JString(text: string) | JNumber(num: int)

  datatype Schema<!T(==)> = Schema(tags: set<T>, kind: T -> Kind, omitEmpty: T -> bool)

  function Zero(kind: Kind): Value {
    match kind
    case Text => Str("")
    case QuotedBool => Flag(false)
    case _ => Num(0)
  }

  predicate HasKind(v: Value, kind: Kind) {
    match kind
    case Text => v.Str?
    case QuotedBool => v.Flag?
    case _ => v.Num? && InInt64(v.num)
  }

  /** Every field holds a value of its type; Go's int is 64 bits wide. */
  ghost predicate WellTyped<T>(schema: Schema<T>, record: T -> Value) {
    forall t :: t in schema.tags ==> HasKind(record(t), schema.kind(t))
  }

  function Encode(kind: Kind, v: Value): Json
    requires HasKind(v, kind)
  {
    match kind
    case Text => JString(v.text)
    case QuotedInt => JString(Itoa(v.num))
    case QuotedBool => JString(FormatBool(v.flag))
    case BareInt => JNumber(v.num)
  }

  function Decode(kind: Kind, s: string): Option<Value> {
    match kind
    case Text => Some(Str(s))
    case QuotedInt => (match JsonInt(s) case Some(i) => Some(Num(i)) case None => None)
    case QuotedBool => (match JsonBool(s) case Some(b) => Some(Flag(b)) case None => None)
    case BareInt => None
  }

  /** The JSON object a struct marshals to: "omitempty" drops zero values. */
  function JsonObject<T>(schema: Schema<T>, record: T -> Value): map<T, Json>
    requires WellTyped(schema, record)
  {
    map t | t in schema.tags && !(schema.omitEmpty(t) && record(t) == Zero(schema.kind(t)))
      :: Encode(schema.kind(t), record(t))
  }

  predicate AllStrings<T>(o: map<T, Json>) {
    forall t :: t in o ==> o[t].JString?
  }

  function Texts<T>(o: map<T, Json>): map<T, string>
    requires AllStrings(o)
  {
    map t | t in o :: o[t].text
  }

  /** Go ranges over the intermediate map in no particular order. */
  method MarshalToMap<T>(schema: Schema<T>, record: T -> Value) returns (r: Option<map<T, string>>)
    requires WellTyped(schema, record)
    ensures r == Marshalled(schema, record)
  {
    var o := JsonObject(schema, record);
    var res: map<T, string> := map[];
    var todo := o.Keys;
    while todo != {}
      invariant todo <= o.Keys
      invariant res.Keys == o.Keys - todo
      invariant forall t :: t in res ==> o[t] == JString(res[t])
      decreases |todo|
    {
      var t :| t in todo;
      if !o[t].JString? {
        return None;
      }
      res := res[t := o[t].text];
      todo := todo - {t};
    }
    assert res == Texts(o);
    r := Some(res);
  }

  function Marshalled<T>(schema: Schema<T>, record: T -> Value): Option<map<T, string>>
    requires WellTyped(schema, record)
  {
    var o := JsonObject(schema, record);
    if AllStrings(o) then Some(Texts(o)) else None
  }

  function FieldOf<T>(schema: Schema<T>, m: map<T, string>, t: T): Option<Value> {
    if t in m then Decode(schema.kind(t), m[t]) else Some(Zero(schema.kind(t)))
  }

  /** Unmarshalling succeeds when every key that names a field parses; other keys are
      ignored and missing fields keep their zero value. */
  predicate Unmarshals<T>(schema: Schema<T>, m: map<T, string>) {
    forall t :: t in schema.tags ==> FieldOf(schema, m, t).Some?
  }

  function Unmarshalled<T>(schema: Schema<T>, m: map<T, string>): T -> Value {
    t => match FieldOf(schema, m, t) case Some(v) => v case None => Zero(schema.kind(t))
  }

  lemma UnmarshalledIsTyped<T(!new)>(schema: Schema<T>, m: map<T, string>)
    ensures forall t :: HasKind(Unmarshalled(schema, m)(t), schema.kind(t))
  {
  }

  lemma DecodeEncode(kind: Kind, v: Value)
    requires HasKind(v, kind) && kind != BareInt
    ensures Decode(kind, Encode(kind, v).text) == Some(v)
  {
    if kind == QuotedInt {
      AtoiItoa(v.num);
      assert !IsDigit('n');
    }
  }

  /** Round trip: for a struct without bare ints marshalling never fails and unmarshalling
      gives back every field, including those dropped as empty. */
  lemma RoundTrip<T>(schema: Schema<T>, record: T -> Value)
    requires WellTyped(schema, record)
    requires forall t :: t in schema.tags ==> schema.kind(t) != BareInt
    ensures var m := Marshalled(schema, record);
            && m.Some?
            && Unmarshals(schema, m.value)
            && forall t :: t in schema.tags ==> Unmarshalled(schema, m.value)(t) == record(t)
  {
    var m := Marshalled(schema, record).value;
    forall t | t in schema.tags
      ensures FieldOf(schema, m, t) == Some(record(t))
    {
      DecodeEncode(schema.kind(t), record(t));
    }
  }

  /** Adding string fields to a marshalled map changes those fields and no others. */
  lemma Overlay<T>(schema: Schema<T>, record: T -> Value, m: map<T, string>, added: T -> bool)
    requires WellTyped(schema, record)
    requires forall t :: t in schema.tags ==> schema.kind(t) != BareInt && (added(t) ==> schema.kind(t) == Text)
    requires Marshalled(schema, record).Some?
    requires forall t :: t in schema.tags && !added(t) ==>
               FieldOf(schema, m, t) == FieldOf(schema, Marshalled(schema, record).value, t)
    ensures Unmarshals(schema, m)
    ensures forall t :: t in schema.tags ==>
              Unmarshalled(schema, m)(t) == if added(t) then Str(if t in m then m[t] else "") else record(t)
  {
    RoundTrip(schema, record);
    forall t | t in schema.tags
      ensures FieldOf(schema, m, t) == Some(if added(t) then Str(if t in m then m[t] else "") else record(t))
    {
      assert Unmarshalled(schema, Marshalled(schema, record).value)(t) == record(t);
    }
  }

  /** A marshalled string field, looked up with a missing key read as empty, is itself. */
  lemma TextLookup<T>(schema: Schema<T>, record: T -> Value, t: T)
    requires WellTyped(schema, record) && Marshalled(schema, record).Some?
    requires t in schema.tags && schema.kind(t) == Text
    ensures var m := Marshalled(schema, record).value;
            record(t) == Str(if t in m then m[t] else "")
  {
  }

  /** Which keys a marshalled map has, and what stands under each. */
  lemma EmittedIff<T>(schema: Schema<T>, record: T -> Value, t: T)
    requires WellTyped(schema, record) && Marshalled(schema, record).Some? && t in schema.tags
    ensures var m := Marshalled(schema, record).value;
            && (t in m <==> !schema.omitEmpty(t) || record(t) !in {Str(""), Num(0), Flag(false)})
            && (t in m ==>
                  m[t] == match record(t)
                          case Str(text) => text
                          case Num(i) => Itoa(i)
                          case Flag(b) => if b then "true" else "false")
  {
    assert t in JsonObject(schema, record) ==> JsonObject(schema, record)[t].JString?;
  }

  /** Marshalling fails exactly when some emitted field is a bare int. */
  lemma MarshalFailsIff<T>(schema: Schema<T>, record: T -> Value)
    requires WellTyped(schema, record)
    ensures Marshalled(schema, record).None? <==>
            exists t :: t in schema.tags && schema.kind(t) == BareInt && !(schema.omitEmpty(t) && record(t) == Num(0))
  {
    var o := JsonObject(schema, record);
    forall t | t in o
      ensures o[t].JString? <==> schema.kind(t) != BareInt
    {
    }
    if t :| t in schema.tags && schema.kind(t) == BareInt && !(schema.omitEmpty(t) && record(t) == Num(0)) {
      assert t in o;
    }
  }
}

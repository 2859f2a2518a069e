/** Configuration values as the Go program holds them. JSON decoding yields `List` and `Float`; the
    program itself also builds `Strings` (`[]string`) and `Int`. */
module GoValue {
  import opened Wrappers
  import opened Decimal

  datatype Val =
    | Nil
    | Bool(b: bool)
    | Str(s: string)
    | Int(i: int)
    | Float(f: real)
    | List(items: seq<Val>)
    | Strings(strings: seq<string>)
    | Map(fields: map<string, Val>)

  type Object = map<string, Val>

  /** `s, _ := v.(string)` on the entry of a map. */
  function StringAt(m: Object, key: string): string {
    if key in m && m[key].Str? then m[key].s else ""
  }

  /** `strconv.Itoa` */
  function Itoa(n: int): string {
    if n < 0 then "-" + Digits(-n) else Digits(n)
  }

  const MAX_EXACT_FLOAT := 9007199254740992

  /** `strconv.FormatFloat(f, 'f', -1, 64)`: plain digits for the integers a float64 holds exactly; how it
      prints any other number is the parameter. */
  function FormatFloat(f: real, other: real -> string): string {
    if f == f.Floor as real && -MAX_EXACT_FLOAT <= f.Floor <= MAX_EXACT_FLOAT then Itoa(f.Floor) else other(f)
  }

  /** `portValue` */
  function PortValue(port: Option<Val>, other: real -> string): string {
    match port
    case Some(Str(s)) => s
    case Some(Int(i)) => Itoa(i)
    case Some(Float(f)) => FormatFloat(f, other)
    case _ => ""
  }

  /** The string fields "type" and "tag" of an outbound. */
  function TypeOf(v: Val): string {
    if v.Map? then StringAt(v.fields, "type") else ""
  }

  function TagOf(v: Val): string {
    if v.Map? then StringAt(v.fields, "tag") else ""
  }

  function At(m: Object, key: string): Option<Val> {
    if key in m then Some(m[key]) else None
  }

  /** What a value becomes when it is written as JSON and read again: numbers turn into floats, string
      lists into generic lists. */
  function Redecode(v: Val): Val {
    match v
    case Int(i) => Float(i as real)
    case Strings(strings) => List(seq(|strings|, k requires 0 <= k < |strings| => Str(strings[k])))
    case List(items) => List(seq(|items|, k requires 0 <= k < |items| => Redecode(items[k])))
    case Map(fields) => Map(map key | key in fields :: Redecode(fields[key]))
    case _ => v
  }

  /** A value that came out of JSON. */
  predicate Decoded(v: Val) {
    match v
    case Int(_) => false
    case Strings(_) => false
    case List(items) => forall k | 0 <= k < |items| :: Decoded(items[k])
    case Map(fields) => forall key | key in fields :: Decoded(fields[key])
    case _ => true
  }

  lemma {:induction false} RedecodeDecoded(v: Val)
    requires Decoded(v)
    ensures Redecode(v) == v
  {
    match v
    case List(items) =>
      forall k | 0 <= k < |items| ensures Redecode(items[k]) == items[k] {
        RedecodeDecoded(items[k]);
      }
    case Map(fields) =>
      forall key | key in fields ensures Redecode(fields[key]) == fields[key] {
        RedecodeDecoded(fields[key]);
      }
    case _ =>
  }

  lemma {:induction false} RedecodeIsDecoded(v: Val)
    ensures Decoded(Redecode(v))
  {
    match v
    case List(items) =>
      forall k | 0 <= k < |items| ensures Decoded(Redecode(items[k])) {
        RedecodeIsDecoded(items[k]);
      }
    case Map(fields) =>
      forall key | key in fields ensures Decoded(Redecode(fields[key])) {
        RedecodeIsDecoded(fields[key]);
      }
    case _ =>
  }

  lemma RedecodeIdempotent(v: Val)
    ensures Redecode(Redecode(v)) == Redecode(v)
  {
    RedecodeIsDecoded(v);
    RedecodeDecoded(Redecode(v));
  }

  function RedecodeFields(m: Object): Object {
    map key | key in m :: Redecode(m[key])
  }

  function RedecodeAll(items: seq<Val>): (r: seq<Val>)
    ensures |r| == |items| && forall i | 0 <= i < |items| :: r[i] == Redecode(items[i])
  {
    seq(|items|, i requires 0 <= i < |items| => Redecode(items[i]))
  }

  lemma RedecodedAllDecoded(items: seq<Val>)
    ensures forall v | v in RedecodeAll(items) :: Decoded(v)
  {
    forall v | v in RedecodeAll(items)
      ensures Decoded(v)
    {
      var i :| 0 <= i < |items| && RedecodeAll(items)[i] == v;
      RedecodeIsDecoded(items[i]);
    }
  }

  lemma RedecodeAllDecoded(items: seq<Val>)
    requires forall v | v in items :: Decoded(v)
    ensures RedecodeAll(items) == items
  {
    forall i | 0 <= i < |items|
      ensures RedecodeAll(items)[i] == items[i]
    {
      RedecodeDecoded(items[i]);
    }
  }
}

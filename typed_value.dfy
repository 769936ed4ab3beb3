/** The scalar types the typed accessors are instantiated with (bool, int,
    std::string) and nlohmann's conversions between them and JSON. */
module TypedValue {
  import opened Wrappers
  import opened Json

  const TwoTo31: int := 0x8000_0000
  const TwoTo32: int := 0x1_0000_0000

  /** C++ `int`: 32-bit two's complement. */
  newtype Int32 = x: int | -0x8000_0000 <= x < 0x8000_0000

  /** `static_cast<int>` of a 64-bit JSON integer: the value modulo 2^32, read
      as a signed 32-bit number. */
  function Wrap32(i: int): (r: Int32)
    ensures (r as int - i) % TwoTo32 == 0
    ensures -TwoTo31 <= i < TwoTo31 ==> r as int == i
  {
    var m := i % TwoTo32;
    if m >= TwoTo31 then (m - TwoTo32) as Int32 else m as Int32
  }

  /** The type argument T of `getSettingItem<T>` / `setSettingItem<T>`. */
  datatype Kind = BoolKind | IntKind | StringKind

  /** A value of one of those types. */
  datatype Value = BoolVal(b: bool) | IntVal(n: Int32) | StrVal(s: string)

  function KindOf(v: Value): Kind {
    match v
    case BoolVal(_) => BoolKind
    case IntVal(_) => IntKind
    case StrVal(_) => StringKind
  }

  /** The JSON value a C++ value becomes on assignment into a json. */
  function Encode(v: Value): Json {
    match v
    case BoolVal(b) => Bool(b)
    case IntVal(n) => Int(n as int)
    case StrVal(s) => Str(s)
  }

  /** `j.get<T>()`: None where nlohmann throws. A bool is read only from a
      boolean and a string only from a string; an int is read from an integer
      (narrowed to 32 bits) and also from a boolean (as 0 or 1). */
  function Convert(j: Json, k: Kind): (r: Option<Value>)
    ensures r.Some? ==> KindOf(r.value) == k
    ensures k == BoolKind ==> (r.Some? <==> j.Bool?)
    ensures k == StringKind ==> (r.Some? <==> j.Str?)
    ensures k == IntKind ==> (r.Some? <==> j.Int? || j.Bool?)
    ensures k == BoolKind && j.Bool? ==> r == Some(BoolVal(j.b))
    ensures k == StringKind && j.Str? ==> r == Some(StrVal(j.s))
    ensures k == IntKind && j.Int? ==> r == Some(IntVal(Wrap32(j.i)))
    ensures k == IntKind && j.Bool? ==> r == Some(IntVal(if j.b then 1 else 0))
  {
    match (k, j)
    case (BoolKind, Bool(b)) => Some(BoolVal(b))
    case (StringKind, Str(s)) => Some(StrVal(s))
    case (IntKind, Int(i)) => Some(IntVal(Wrap32(i)))
    case (IntKind, Bool(b)) => Some(IntVal(if b then 1 else 0))
    case _ => None
  }

  /** Reading a stored value back as its own type gives the value that was
      stored. */
  lemma ConvertEncode(v: Value)
    ensures Convert(Encode(v), KindOf(v)) == Some(v)
  {
  }

  /** Reading across types: a stored bool reads as int 0 or 1, and every other
      mismatch fails. */
  lemma ConvertAcrossKinds(v: Value, k: Kind)
    requires k != KindOf(v)
    ensures v.BoolVal? && k == IntKind ==> Convert(Encode(v), k) == Some(IntVal(if v.b then 1 else 0))
    ensures !(v.BoolVal? && k == IntKind) ==> Convert(Encode(v), k) == None
  {
  }
}

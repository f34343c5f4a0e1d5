// Values exchanged by the service: what a JSON text means, independent of how
// a program holds it.

module Wrappers {
  datatype Option<+T> = None | Some(value: T) {
    predicate IsFailure() { None? }

    function PropagateFailure<U>(): Option<U>
      requires None?
    {
      None
    }

    function Extract(): T
      requires Some?
    {
      value
    }
  }
}

module Values {
  import opened Wrappers

  // The number m / 10^k.
  datatype RawDecimal = RawDecimal(m: int, k: nat)

  // Lowest terms, so equal numbers are equal decimals.
  type Decimal = d: RawDecimal | d.k > 0 ==> d.m % 10 != 0 witness RawDecimal(0, 0)

  // A JSON value. Objects are maps: member order carries no meaning. Numbers are
  // exact decimals: 1 and 1.0 are one value.
  datatype Value =
    | Null
    | Bool(b: bool)
    | Num(num: Decimal)
    | Str(str: string)
    | Arr(items: seq<Value>)
    | Obj(members: map<string, Value>)

  type Record = map<string, Value>

  function IntVal(n: int): Value {
    Num(RawDecimal(n, 0))
  }

  function StrOpt(r: Record, key: string): (s: Option<string>) {
    if key in r && r[key].Str? then Some(r[key].str) else None
  }
}

/** Values shared by every component of the model. */
module Basics {
  datatype Option<+T> = None | Some(value: T)

  /** A JSON value; object fields are a map because key order carries no meaning. */
  datatype Json =
    | Null
    | Bool(b: bool)
    | Num(n: real)
    | Str(s: string)
    | Arr(items: seq<Json>)
    | Obj(fields: map<string, Json>)

  /** A payload that may be absent: `None` is JavaScript's `undefined`. */
  type Payload = Option<Json>

  /** How a sender's wait for its duplex to drain comes out. */
  datatype DrainOutcome = Drained | TimedOut | Cancelled

  /** Decimal digits of a counter, as `String(n)` prints them. */
  function Decimal(n: nat): string {
    if n < 10 then [Digit(n)] else Decimal(n / 10) + [Digit(n % 10)]
  }

  function Digit(d: nat): char
    requires d < 10
  {
    '0' + d as char
  }

  /** The number a run of decimal digits stands for. */
  function Number(s: string): nat {
    if s == [] then 0
    else
      var last := s[|s| - 1];
      Number(s[..|s| - 1]) * 10 + (if '0' <= last <= '9' then last as nat - '0' as nat else 0)
  }

  lemma {:induction false} NumberOfDecimal(n: nat)
    ensures Decimal(n) != [] && Number(Decimal(n)) == n
  {
    var s := Decimal(n);
    if n < 10 {
      assert s[..0] == [];
      assert Number(s[..0]) == 0;
    } else {
      NumberOfDecimal(n / 10);
      assert s[..|s| - 1] == Decimal(n / 10);
    }
  }

  /** Distinct counters print as distinct ids. */
  lemma DecimalInjective(m: nat, n: nat)
    ensures Decimal(m) == Decimal(n) ==> m == n
  {
    NumberOfDecimal(m);
    NumberOfDecimal(n);
  }

  function SumOf<T>(s: seq<T>, size: T -> nat): nat {
    if s == [] then 0 else size(s[0]) + SumOf(s[1..], size)
  }

  lemma {:induction false} SumSplit<T>(a: seq<T>, b: seq<T>, size: T -> nat)
    ensures SumOf(a + b, size) == SumOf(a, size) + SumOf(b, size)
  {
    if a == [] {
      assert a + b == b;
    } else {
      assert (a + b)[1..] == a[1..] + b;
      SumSplit(a[1..], b, size);
    }
  }
}

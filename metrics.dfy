/** The records an adapter reports (modem/modem.go): the device description and the
    traffic counters, with the field-wise `uint64` sum the adapters accumulate and the
    total over the LAN interfaces a page lists. */
module Metrics {
  import opened Errors
  import opened Uint64

  /** `modem.Info`: vendor and model of the adapter's device. */
  datatype Info = Info(vendor: string, model: string, extra: seq<bv8>)

  /** `modem.Stat`: the four `uint64` counters. No adapter fills `Extra`. */
  datatype Stat = Stat(txBytes: U64, txPackets: U64, rxBytes: U64, rxPackets: U64, extra: seq<bv8>)

  /** The four counters, by name. */
  datatype Counter = TxBytes | TxPackets | RxBytes | RxPackets

  function CounterOf(s: Stat, c: Counter): U64
  {
    match c
    case TxBytes => s.txBytes
    case TxPackets => s.txPackets
    case RxBytes => s.rxBytes
    case RxPackets => s.rxPackets
  }

  /** `modem.Stat{}`. */
  const Zero := Stat(0, 0, 0, 0, [])

  /** Adding the counters of `b` into `a` (each `+=` on `uint64`). */
  function Plus(a: Stat, b: Stat): Stat
  {
    Stat(Add(a.txBytes, b.txBytes), Add(a.txPackets, b.txPackets),
         Add(a.rxBytes, b.rxBytes), Add(a.rxPackets, b.rxPackets), a.extra)
  }

  /** The counters of a page accumulated part by part, from the first part on: the first
      part that failed ends the accumulation with its error. */
  function Total(parts: seq<Result<Stat>>): Result<Stat>
    decreases |parts|
  {
    if parts == [] then Ok(Zero)
    else
      match Total(parts[..|parts| - 1])
      case Err(e) => Err(e)
      case Ok(acc) =>
        match parts[|parts| - 1]
        case Err(e) => Err(e)
        case Ok(x) => Ok(Plus(acc, x))
  }

  /** The failure of a total is the failure of its first failed part; without a failed
      part the total succeeds. */
  lemma {:induction false} TotalFirstError(parts: seq<Result<Stat>>)
    ensures Total(parts).Err? <==> exists k :: 0 <= k < |parts| && parts[k].Err?
    ensures Total(parts).Err? ==>
      exists k :: 0 <= k < |parts| && parts[k] == Total(parts) && forall j :: 0 <= j < k ==> parts[j].Ok?
    decreases |parts|
  {
    if parts != [] {
      var front := parts[..|parts| - 1];
      TotalFirstError(front);
      if Total(front).Err? {
        var k :| 0 <= k < |front| && front[k] == Total(front) && forall j :: 0 <= j < k ==> front[j].Ok?;
        assert parts[k] == front[k];
      } else {
        assert forall j :: 0 <= j < |front| ==> parts[j] == front[j];
      }
    }
  }

  /** Accumulating one more part that succeeded adds its counters. */
  lemma TotalExtend(parts: seq<Result<Stat>>, i: nat, acc: Stat)
    requires i < |parts| && Total(parts[..i]) == Ok(acc) && parts[i].Ok?
    ensures Total(parts[..i + 1]) == Ok(Plus(acc, parts[i].value))
  {
    assert parts[..i + 1][..i] == parts[..i];
  }

  /** A failed part after parts that all succeeded is the failure of the whole total. */
  lemma TotalStopsAt(parts: seq<Result<Stat>>, i: nat)
    requires i < |parts| && Total(parts[..i]).Ok? && parts[i].Err?
    ensures Total(parts) == parts[i]
  {
    TotalFirstError(parts[..i]);
    TotalFirstError(parts);
    assert forall j :: 0 <= j < i ==> parts[j] == parts[..i][j];
  }

  /** The exact sum, over the integers, of one counter of every part. */
  function SumOf(parts: seq<Result<Stat>>, c: Counter): int
    requires forall k :: 0 <= k < |parts| ==> parts[k].Ok?
    decreases |parts|
  {
    if parts == [] then 0 else SumOf(parts[..|parts| - 1], c) + CounterOf(parts[|parts| - 1].value, c)
  }

  /** Without failures every counter of the total is the exact sum of that counter over
      the parts, reduced modulo 2^64: the wrapping `+=` loses nothing but the carry out
      of 64 bits, and totals below 2^64 are exact. */
  lemma {:induction false} TotalIsSumModulo(parts: seq<Result<Stat>>)
    requires forall k :: 0 <= k < |parts| ==> parts[k].Ok?
    ensures Total(parts).Ok?
    ensures forall c :: CounterOf(Total(parts).value, c) == SumOf(parts, c) % MODULUS
    decreases |parts|
  {
    if parts != [] {
      var front := parts[..|parts| - 1];
      TotalIsSumModulo(front);
      var last := parts[|parts| - 1].value;
      forall c
        ensures CounterOf(Total(parts).value, c) == SumOf(parts, c) % MODULUS
      {
        ModuloAdd(SumOf(front, c), CounterOf(last, c));
      }
    }
  }

  lemma ModuloAdd(a: int, b: U64)
    ensures Add(a % MODULUS, b) == (a + b) % MODULUS
  {
  }
}

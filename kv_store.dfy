/** The key-value store that holds the built single-page application, as the
    handler sees it: a listing of key names and a partial map from keys to
    opaque bytes. Every read either yields a value or faults with a message
    (the rejected promise of the store binding). */
module KvStore {

  import opened Wrappers

  newtype byte = x: int | 0 <= x < 256

  /** Opaque stored bytes (an `ArrayBuffer`). */
  type Bytes = seq<byte>

  /** The result of one store read. */
  datatype Fetch<T> = Value(value: T) | Fault(message: string)

  /** One read the handler issues against the store. */
  datatype Op = ListOp(limit: nat) | GetOp(key: string)

  function Min(a: nat, b: nat): nat {
    if a <= b then a else b
  }

  /** `names` is what an unbounded listing would return (or its fault);
      `blobs` maps each stored key to what reading it yields. A key outside
      `blobs` reads as `null`. */
  datatype Store = Store(names: Fetch<seq<string>>, blobs: map<string, Fetch<Bytes>>) {

    /** `list({ limit })`: the first `limit` key names, in store order. */
    function List(limit: nat): (r: Fetch<seq<string>>)
      ensures r.Fault? <==> names.Fault?
      ensures r.Fault? ==> r.message == names.message
      ensures r.Value? ==> |r.value| == Min(limit, |names.value|)
      ensures r.Value? ==> r.value == names.value[..|r.value|]
    {
      match names
      case Fault(m) => Fault(m)
      case Value(all) => Value(all[..Min(limit, |all|)])
    }

    /** `get(key, "arrayBuffer")`: the bytes, `None` for `null`, or a fault. */
    function Get(key: string): (r: Fetch<Option<Bytes>>)
      ensures r == Value(None) <==> key !in blobs
      ensures r.Fault? <==> key in blobs && blobs[key].Fault?
      ensures r.Fault? ==> r.message == blobs[key].message
      ensures r.Value? && r.value.Some? ==> blobs[key] == Value(r.value.value)
    {
      if key !in blobs then Value(None)
      else match blobs[key]
        case Fault(m) => Fault(m)
        case Value(b) => Value(Some(b))
    }

    /** Whether performing `op` against this store faults. */
    predicate Faults(op: Op) {
      match op
      case ListOp(_) => names.Fault?
      case GetOp(k) => k in blobs && blobs[k].Fault?
    }

    /** The message of a read that faults. */
    function FaultMessage(op: Op): string
      requires Faults(op)
    {
      match op
      case ListOp(_) => names.message
      case GetOp(k) => blobs[k].message
    }
  }
}

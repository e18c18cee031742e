/** Values shared by the server and the client models. */
module Prelude {

  newtype byte = x: int | 0 <= x < 256

  type Bytes = seq<byte>
  type Hash = string
  type Tenant = string
  type Path = string
  type UploadId = nat

  /** One past the largest value of the 64-bit unsigned counters. */
  const U64_LIMIT: nat := 0x1_0000_0000_0000_0000

  datatype Option<+T> = None | Some(value: T)

  datatype Error =
    | QuotaExceeded
    | NotFound
    | Validation
    | SizeMismatch
    | HashMismatch
    | Io
    | Network

  datatype Result<+T> = Ok(value: T) | Err(error: Error)

  function Min(a: nat, b: nat): nat { if a < b then a else b }

  ghost predicate NoDuplicates<T>(s: seq<T>) {
    forall i, j :: 0 <= i < j < |s| ==> s[i] != s[j]
  }

  function Elements<T>(s: seq<T>): set<T> { set x | x in s }

  /** A sequence without duplicates has as many elements as positions. */
  lemma {:induction false} DistinctCount<T>(s: seq<T>)
    requires NoDuplicates(s)
    ensures |Elements(s)| == |s|
  {
    if s != [] {
      var last := |s| - 1;
      DistinctCount(s[..last]);
      assert Elements(s) == Elements(s[..last]) + {s[last]};
    }
  }
}

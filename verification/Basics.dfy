// Vocabulary shared by every module: bytes, concatenation of chunks and the crate's
// error values.

module Basics {

  newtype byte = b: int | 0 <= b < 256

  datatype Option<+T> = None | Some(value: T)

  // src/error.rs, without the payloads that only carry a foreign cause.
  datatype Error =
    | Tls
    | Io
    | Allocation
    | Staged
    | Retained
    | BufferUnavailable
    | InvalidBufferProgress
    | Consume

  datatype Result<+T> = Ok(value: T) | Err(error: Error) {
    function Cause(): Option<Error> {
      match this
      case Ok(_) => None
      case Err(e) => Some(e)
    }

    /** Forgets the value. */
    function Done(): Result<()> {
      match this
      case Ok(_) => Ok(())
      case Err(e) => Err(e)
    }
  }

  /** The first failure, if any: Rust's eager `and` on two finished results. */
  function And(a: Result<()>, b: Result<()>): Result<()> {
    if a.Ok? then b else a
  }

  function Min(a: nat, b: nat): nat {
    if a <= b then a else b
  }

  /** The bytes of a list of chunks, in order. */
  function Flatten<T>(chunks: seq<seq<T>>): seq<T> {
    if chunks == [] then [] else chunks[0] + Flatten(chunks[1..])
  }

  ghost predicate NoneEmpty<T>(chunks: seq<seq<T>>) {
    forall i :: 0 <= i < |chunks| ==> |chunks[i]| > 0
  }

  lemma {:induction false} FlattenConcat<T>(a: seq<seq<T>>, b: seq<seq<T>>)
    ensures Flatten(a + b) == Flatten(a) + Flatten(b)
  {
    if a == [] {
      assert a + b == b;
    } else {
      assert (a + b)[0] == a[0] && (a + b)[1..] == a[1..] + b;
      FlattenConcat(a[1..], b);
    }
  }

  lemma NothingMore<T>(a: seq<T>)
    ensures a + [] == a
  {
  }

  lemma DropTwice<T>(s: seq<T>, a: nat, b: nat)
    requires a + b <= |s|
    ensures s[a..][b..] == s[a + b..]
  {
  }

  lemma Regroup<T>(a: seq<T>, b: seq<T>, c: seq<T>)
    ensures (a + b) + c == a + (b + c)
  {
  }

  lemma FlattenOne<T>(chunk: seq<T>)
    ensures Flatten([chunk]) == chunk
  {
    assert Flatten([chunk]) == chunk + Flatten([chunk][1..]);
  }
}

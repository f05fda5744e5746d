/** Small shared vocabulary: optional values, bytes, flattened sequences and bounded histories. */
module Common {

  datatype Option<+T> = None | Some(value: T)

  datatype Result<+T, +E> = Ok(value: T) | Err(error: E)

  type Byte = n: nat | n < 256

  type Bytes = seq<Byte>

  function Min(a: int, b: int): int {
    if a <= b then a else b
  }

  function Zeros(n: nat): (z: Bytes)
    ensures |z| == n && forall i :: 0 <= i < n ==> z[i] == 0
  {
    seq(n, _ => 0)
  }

  /** The concatenation of a list of lists, in order. */
  function Flatten<T>(parts: seq<seq<T>>): seq<T> {
    if parts == [] then [] else parts[0] + Flatten(parts[1..])
  }

  lemma {:induction false} FlattenAppend<T>(a: seq<seq<T>>, b: seq<seq<T>>)
    ensures Flatten(a + b) == Flatten(a) + Flatten(b)
  {
    if a == [] {
      assert a + b == b;
    } else {
      assert (a + b)[1..] == a[1..] + b;
      FlattenAppend(a[1..], b);
    }
  }

  /** The first value a history holds under a key. */
  function Remembered<K(==), V>(history: seq<(K, V)>, key: K): (found: Option<V>)
    ensures found.Some? ==> (key, found.value) in history
    ensures found.None? ==> forall i :: 0 <= i < |history| ==> history[i].0 != key
  {
    if history == [] then None
    else if history[0].0 == key then Some(history[0].1)
    else Remembered(history[1..], key)
  }

  /** The oldest entries leave until the limit is met. */
  function Trimmed<T>(items: seq<T>, limit: nat): (kept: seq<T>)
    ensures |items| <= limit ==> kept == items
    ensures |items| > limit ==> kept == items[|items| - limit..]
  {
    if |items| <= limit then items else Trimmed(items[1..], limit)
  }
}

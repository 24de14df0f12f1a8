/** Small value types shared by every module of the model. */
module Common {

  /** An optional value: Python's `None` or a present value. */
  datatype Option<T> = None | Some(value: T)

  /** One byte of a file pulled from the device. */
  newtype byte = x: int | 0 <= x < 256

  lemma ConcatAssoc<T>(a: seq<T>, b: seq<T>, c: seq<T>)
    ensures a + (b + c) == (a + b) + c
  {
  }
}

/** Values shared by every part of the recogniser. */
module Types {

  /** A value that may be absent; `None` also stands for "the library call raised". */
  datatype Option<T> = None | Some(value: T)

  /** A face embedding as returned by the face library (a fixed-length vector of floats). */
  type Encoding = seq<real>

  /** A face location in the order the face library reports it: (top, right, bottom, left). */
  datatype Box = Box(top: int, right: int, bottom: int, left: int)

  /** Regrouping an append of two pieces onto a list: a step the solver does not take by itself. */
  lemma AppendAssociative<T>(x: seq<T>, a: seq<T>, b: seq<T>)
    ensures (x + a) + b == x + (a + b)
  {
  }
}

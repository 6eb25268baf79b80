/** Option and Result datatypes shared by the resource-name parser and the cluster record. */
module Wrappers {

  /** An optional value: the record's "not yet known" fields and a parser's "no match". */
  datatype Option<+T> = None | Some(value: T)

  /** The outcome of an operation that either produces a value or fails with an error. */
  datatype Result<+R, +E> = Success(value: R) | Failure(error: E)
}

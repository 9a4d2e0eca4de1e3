/** Failure-carrying results for the errors the toolkit throws. */
module Results {

  /** The errors the core raises with `throw new Error(...)`. */
  datatype Error =
    | ColumnsShouldEqualRows   // multiplyMatrix: a.cols != b.rows
    | DstRowsDiffer            // multiplyMatrix: dst.rows != a.rows
    | DstColsDiffer            // multiplyMatrix: dst.cols != b.cols
    | NoForwardPass            // Dense.backward before any forward
    | ArchitectureMismatch     // RNNModel.load with other sizes

  datatype Result<+T> = Ok(value: T) | Err(error: Error)

  /** A nullable field (`T | null` in the source). */
  datatype Option<+T> = None | Some(value: T)
}

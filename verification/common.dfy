/** Small value wrappers shared by every module: nullable columns and error returns. */
module Common {

  /** A nullable column or an optional argument. */
  datatype Option<T> = None | Some(value: T)
  {
    function GetOr(default: T): T
    {
      match this
      case Some(v) => v
      case None => default
    }
  }

  /** What a failed request reports instead of a committed result. */
  datatype Error =
    | NoCategory          // the stock-sheet import found no category to file new items under
    | NotNullViolation    // a sale without a sale group reached the NOT NULL column at commit
    | SaleNotFound        // the mark-paid lookup returned nothing and the field write failed
    | GroupNotFound       // a single-group summary unpacked an empty result

  datatype Result<T> = Ok(value: T) | Err(error: Error)

  /** A numeric column read with NULL treated as zero (`x or 0`, `fillna(0)`, `coalesce(x, 0)`). */
  function RealOrZero(x: Option<real>): real
  {
    x.GetOr(0.0)
  }
}

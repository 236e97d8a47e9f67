/** Optional values, results, and the ways a run of the CLTV pipeline can abort. */
module Wrappers {

  /** A cell of the input table that may be missing (NaN / None in the data frame). */
  datatype Option<+T> = None | Some(value: T)

  /** Either the computed value or the reason the computation stopped. */
  datatype Result<+T, +E> = Ok(value: T) | Err(error: E)

  /** Why `create_cltv_c` produces no customer table. */
  datatype Failure =
    | EmptyPopulation    // no customer survives cleaning: the repeat rate divides 0 by 0
    | ZeroChurn          // every customer bought more than once: the CLTV divides by a churn rate of 0
                         // (the resulting infinite values then make the quartile cut fail as below)
    | DuplicateBinEdges  // two quartile edges coincide, so the quartile cut refuses to bin
}

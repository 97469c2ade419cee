/** Optional values, outcomes and the ways a generator run can fail. */
module Results {

  datatype Option<+T> = None | Some(value: T)

  /** The two ways of stopping without a document that this model keeps. */
  datatype Error =
    | ZeroDivision   // the uncaught ZeroDivisionError of hdg.py:216-217
    | NoFilesFound   // sys.exit('error: no files found'), hdg.py:237-238

  datatype Result<+T> = Success(value: T) | Failure(error: Error)
}

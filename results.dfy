/** The two wrapper datatypes the pipeline uses: an optional DataFrame cell and
    the outcome of a call that pandas or scikit-learn may abort with an error. */
module Results {

  /** A cell of a column that a row may or may not carry yet. */
  datatype Option<+T> = None | Some(value: T)

  /** A value, or the error the Python call would raise instead. */
  datatype Result<+T, +E> = Success(value: T) | Failure(error: E)
}

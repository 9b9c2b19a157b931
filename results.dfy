/** Outcome types shared by the model: a value or the text of the exception raised instead. */
module Results {

  /** Either a value or an error, carrying `str(e)` of the exception. */
  datatype Result<+T> = Ok(value: T) | Err(error: string)

  datatype Option<+T> = None | Some(value: T)
}

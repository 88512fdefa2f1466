/** Failure-carrying return values shared by the backend and extension models.
    `Option` stands for a call that can throw without a useful payload (a parse
    that raises, an awaited promise that rejects); `Result` carries a reason. */
module Results {

  datatype Option<+T> = None | Some(value: T)

  datatype Result<+T, +E> = Success(value: T) | Failure(error: E)
}

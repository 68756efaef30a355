/** Values shared by every part of the model: optional values, results that
    carry a Python exception instead of raising it, and chat messages. */
module Common {

  datatype Option<T> = None | Some(value: T)

  /** The exceptions the modelled code raises or lets propagate. */
  datatype Error =
    | IndexError(message: string)
    | KeyError(key: string)
    | ValueError(message: string)
    | FileNotFoundError(message: string)
      /** A backend (LLM) call failed; the source lets it propagate. */
    | BackendError
      /** The finite sequence of backend results supplied to the model ran out.
          The source would wait for the next backend result instead. */
    | RepliesExhausted

  datatype Result<T> = Success(value: T) | Failure(error: Error)

  /** The `role` of a chat message: "system", "assistant" or "user". */
  datatype Role = System | Assistant | User

  /** A chat message `{"role": ..., "content": ...}`. */
  datatype Message = Message(role: Role, content: string)

  /** A persona profile: a JSON object whose values are free text. */
  type Profile = map<string, string>
}

/** Small value types shared by the chat components. */
module Common {

  /** An optional value: the source's `undefined` / `null` / "not found". */
  datatype Option<+T> = None | Some(value: T)

  /** The result of an asynchronous call into code outside the model
      (the completion, transcription and summary adapters): it either
      resolves with a value or rejects. */
  datatype Outcome<+T> = Resolved(value: T) | Rejected

  /** Who wrote a chat message: the `'user' | 'ai'` union of the source. */
  datatype Sender = User | Ai
}

/** The shared types of the assistant: the four-valued session state and the
    chat message record (src/types/index.ts). */
module Types {

  datatype Option<+T> = None | Some(value: T)

  /** Exactly one of these is the session's state at any time. */
  datatype AssistantState = Idle | Listening | Processing | Speaking

  datatype Author = User | Assistant

  /** A chat message. The source's uuid is modelled by a natural number drawn
      from a counter; the creation timestamp is not modelled. */
  datatype Message = Message(id: nat, author: Author, content: string)
}

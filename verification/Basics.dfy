/** Values shared by every component. */
module Basics {
  datatype Option<+T> = None | Some(value: T)

  datatype Result<+T, +E> = Ok(value: T) | Err(error: E)

  datatype Role = User | Assistant | System

  /** One provider-facing message. */
  datatype Prompt = Prompt(role: Role, content: string)

  /** A model, route, project or fingerprint: only its equality matters. */
  type Name(==, !new)
}

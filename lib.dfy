/** Crate-level constants of the chat front-end. */
module Lib {

  /** The reserved speaker tag that marks user lines inside a rendered prompt. */
  const UserChattingName: string := "Userc33dc3a"
}

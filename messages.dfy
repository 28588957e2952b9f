/** The chat history as the stages see it. */
module Messages {

  /**
   * A message of the conversation: from the user, from the assistant, or of
   * any other kind (system or tool messages), which the stages pass over.
   */
  datatype Message = Human(content: string) | Ai(content: string) | Other(content: string)
}

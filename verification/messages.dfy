/** The parts of a chat model's reply that the agent's control flow reads. */
module Messages {
  /**
   * One tool call of a model reply: its identifier, the tool's name and its
   * arguments.  `A` is the type of an argument value.
   */
  datatype ToolCall<A> = ToolCall(id: string, name: string, args: map<string, A>)

  /** An argument value of a structured-extraction tool: a string, or a list of strings. */
  datatype Arg = Text(s: string) | Texts(items: seq<string>)
}

/** The chat message shapes shared by the agents and the hooks (src/types/index.ts). */
module Messages {

  /** Who wrote a message. */
  datatype Role = System | User | Assistant

  /** A chat message as the agents store and display it; `id` is an opaque identifier. */
  datatype Message = Message(id: string, role: Role, content: string)
}

/** Record shapes that both in-memory stores share (the `chapters` table and the chat message). */
module Schema {
  import opened Wrappers

  /** A chapter of the scripture: reference data, seeded once. */
  datatype Chapter = Chapter(id: int, chapterNumber: int, title: string, description: Option<string>)

  datatype Role = User | Assistant

  /**
   * One entry of a conversation's log. The content is absent when an
   * assistant reply came back without a `message` field.
   */
  datatype Message = Message(role: Role, content: Option<string>, timestamp: string)
}

/** The values the scheduler receives from, or hands to, its collaborators: the chat
    service's messages and thread channels, and the outcome of an awaited call. */
module Discord {

  /** A file attached to a message. */
  datatype Attachment = Attachment(contentType: string, url: string)

  /** A chat message as the event source and the message fetch deliver it.
      `channelId` is the id of the channel (here: the thread) the message was posted in;
      `createdTimestamp` is its creation instant in milliseconds. */
  datatype Message = Message(
    id: string,
    authorTag: string,
    authorIsBot: bool,
    channelId: string,
    content: string,
    createdTimestamp: int,
    attachments: seq<Attachment>)

  /** A thread channel as the channel fetch returns it: its own id, the id of the channel
      it was opened in, and that parent channel's name. */
  datatype ThreadChannel = ThreadChannel(id: string, parentId: string, parentName: string)

  /** The outcome of an awaited collaborator call: a value, or a rejected promise. */
  datatype Outcome<T> = Resolved(value: T) | Rejected
}

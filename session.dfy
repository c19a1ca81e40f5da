/** The session's current user and the transient message a store posts. */
module Session {
  import opened Elements

  /** IUser, reduced to what the stores read: its Id and display name. */
  datatype User = User(id: Value, name: string)

  datatype MessageKind = Error | Success

  /** IMessage. The five-second expiry timer is not modelled. */
  datatype Message = Message(text: string, kind: MessageKind)
}

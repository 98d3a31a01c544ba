/** The one domain entity of the chat room: a posted message. */
module Messages {

  /**
   * A point in time. Foundation's `Date` and Firestore's `Timestamp` are both
   * modelled by one abstract integer clock, so converting between them is the
   * identity.
   */
  type Time = int

  /** A chat message: its text, the sender's photo URL and uid, and when it was created. */
  datatype Message = Message(text: string, photoURL: string, uid: string, createdAt: Time)
}

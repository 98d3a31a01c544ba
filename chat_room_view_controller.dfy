/**
 * The chat room screen: the list of messages it shows, the text being typed,
 * and the events that change them (a fetch completing, the publisher
 * emitting, the send button being tapped).
 */
module ChatRoom {
  import opened Wrappers
  import opened Messages
  import opened Database
  import opened Cells

  /** The signed-in user, as far as the screen uses it. */
  datatype User = User(uid: string, photoURL: Option<string>)

  /** `currentUser.photoURL?.absoluteString ?? ""` */
  function PhotoURLOrEmpty(user: User): string {
    if user.photoURL.Some? then user.photoURL.value else ""
  }

  /** Send accepts only input longer than two characters. */
  predicate LongEnough(text: string) {
    |text| > 2
  }

  class ChatRoomViewController {
    /** The list the table shows, oldest first. */
    var messages: seq<Message>
    /** `textView.text` */
    var input: string
    /** Whether the screen has subscribed to `updatedMessagesPublisher`. */
    var subscribed: bool
    const currentUser: User
    /** The shared `DatabaseManager`. */
    const db: DatabaseManager

    constructor (currentUser: User, db: DatabaseManager)
      ensures messages == [] && input == "" && !subscribed
      ensures this.currentUser == currentUser && this.db == db
    {
      messages := [];
      input := "";
      subscribed := false;
      this.currentUser := currentUser;
      this.db := db;
    }

    /** `tableView(_:numberOfRowsInSection:)`: one row per message. */
    function NumberOfRows(): int
      reads this
    {
      |messages|
    }

    /**
     * `didTapSend`: input of at most two characters is ignored. Otherwise one
     * message is built from the input, the user and the clock, written to the
     * store, appended to the list, and the input is cleared.
     */
    method DidTapSend(now: Time)
      modifies this, db
      ensures !LongEnough(old(input)) ==>
                messages == old(messages) && input == old(input) && db.written == old(db.written)
      ensures LongEnough(old(input)) ==>
                && |messages| == |old(messages)| + 1
                && messages[..|old(messages)|] == old(messages)
                && messages[|messages| - 1] == Message(old(input), PhotoURLOrEmpty(currentUser), currentUser.uid, now)
                && db.written == old(db.written) + [Encode(messages[|messages| - 1])]
                && input == ""
      ensures LongEnough(old(input)) ==> NumberOfRows() == old(NumberOfRows()) + 1
      ensures !LongEnough(old(input)) ==> NumberOfRows() == old(NumberOfRows())
      ensures subscribed == old(subscribed)
      ensures db.listeners == old(db.listeners) && db.published == old(db.published)
    {
      var textMessage := input;
      if |textMessage| > 2 {
        var msg := Message(textMessage, PhotoURLOrEmpty(currentUser), currentUser.uid, now);
        db.SendMessageToDatabase(msg);
        messages := messages + [msg];
        input := "";
      }
    }

    /**
     * `fetchMessages`, run to completion: a successful fetch replaces the list
     * with the fetched window; a failed one leaves the screen as it was.
     */
    method FetchMessages(query: Result<seq<Document>>, now: Time)
      modifies this, db
      ensures query.Success? ==> messages == Window(query.value, now)
      ensures query.Failure? ==> messages == old(messages)
      ensures query.Success? ==> NumberOfRows() == |query.value|
      ensures input == old(input) && subscribed == old(subscribed)
      ensures db.listeners == old(db.listeners) + (if query.Success? then 1 else 0)
      ensures db.written == old(db.written) && db.published == old(db.published)
    {
      var msgs := db.FetchAllMessages(query, now);
      if msgs.Success? {
        messages := msgs.value;
      }
    }

    /** `subscribeToMessagePublisher`: from now on published lists reach this screen. */
    method SubscribeToMessagePublisher()
      modifies this
      ensures subscribed
      ensures messages == old(messages) && input == old(input)
    {
      subscribed := true;
    }

    /** The subscriber's `receiveValue`: the delivered list replaces the shown one, unmerged. */
    method ReceiveMessages(msgs: seq<Message>)
      requires subscribed
      modifies this
      ensures messages == msgs && NumberOfRows() == |msgs|
      ensures input == old(input) && subscribed
    {
      messages := msgs;
    }

    /**
     * A snapshot listener fires: the database client decodes and publishes,
     * and a subscribed screen shows what was published.
     */
    method SnapshotArrives(snapshot: Option<seq<Document>>, failed: bool, now: Time)
      requires db.listeners > 0
      modifies this, db
      ensures subscribed && snapshot.Some? && !failed ==> messages == Window(snapshot.value, now)
      ensures !subscribed || snapshot.None? || failed ==> messages == old(messages)
      ensures subscribed && snapshot.Some? && !failed ==> NumberOfRows() == |snapshot.value|
      ensures snapshot.Some? && !failed ==> db.published == old(db.published) + [Window(snapshot.value, now)]
      ensures snapshot.None? || failed ==> db.published == old(db.published)
      ensures input == old(input) && subscribed == old(subscribed)
      ensures db.written == old(db.written) && db.listeners == old(db.listeners)
    {
      var emitted := db.OnSnapshot(snapshot, failed, now);
      if emitted.Some? && subscribed {
        ReceiveMessages(emitted.value);
      }
    }

    /** `tableView(_:cellForRowAt:)`: configures the row's cell for the message at that row. */
    method CellForRow(row: int, cell: ChatTableViewCell)
      requires 0 <= row < NumberOfRows()
      modifies cell
      ensures cell.Valid() && cell.configured
      ensures cell.Alignment() == LayoutFor(IsUser(currentUser.uid, messages[row]))
      ensures cell.labelText == Some(messages[row].text)
      ensures |messages[row].photoURL| > 0 ==> cell.profileImage == Some(Remote(messages[row].photoURL))
      ensures |messages[row].photoURL| == 0 ==> cell.profileImage == old(cell.profileImage)
    {
      cell.ConfigureForMessage(messages[row], currentUser.uid);
    }
  }

  /**
   * The document a successful send writes to the store reads back, at any
   * later time, as exactly the message the send appended to the screen's list.
   */
  method SentMessageReadsBack(vc: ChatRoomViewController, now: Time, later: Time) returns (stored: Document)
    requires LongEnough(vc.input)
    modifies vc, vc.db
    ensures stored in vc.db.written && |vc.messages| > 0
    ensures Decode(stored, later) == vc.messages[|vc.messages| - 1]
  {
    vc.DidTapSend(now);
    stored := vc.db.written[|vc.db.written| - 1];
    DecodeEncode(vc.messages[|vc.messages| - 1], later);
  }
}

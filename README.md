# ChatRoom message feed, modelled in Dafny

A model of the sequential logic of a one-room chat client. The client reads
messages from a hosted document store, shows them in a table and posts new
ones. Three pieces are modelled:

- **Record codec** (module `Database`, `database_manager.dfy`). A stored
  document is a string-keyed map of `Value`s (`Str`, `Stamp` or `Other`).
  `Decode` turns a document into a `Message`. A missing or mistyped field
  becomes a fixed placeholder, and a missing or mistyped `createdAt` becomes
  the current time. `Encode` builds the four-field map that a send writes.
  `DecodeSnapshot` is the decode-and-append loop followed by the reversal.
  It is shared by the one-shot fetch and the snapshot listener, and is proved
  to return `Window(docs, now)`: the decoded documents in reverse query order.
  The class `DatabaseManager` records what the client hands out: documents
  written to the store, snapshot listeners registered, and lists sent to
  subscribers.
- **Chat screen state** (module `ChatRoom`, `chat_room_view_controller.dfy`).
  The class `ChatRoomViewController` holds the shown `messages` and the typed
  `input`. A fetch result or a published list replaces `messages` wholesale.
  A send of more than two characters appends one message, writes the same
  message to the store and clears the input.
- **Row layout** (module `Cells`, `chat_table_view_cell.dfy`). The class
  `ChatTableViewCell` holds the four leading/trailing constraint flags, the
  bubble colour, the label text and the profile image. Each configure call
  pins the row to the trailing side (blue) for the signed-in user's own
  messages and to the leading side (gray) otherwise.

`Message` (module `Messages`, `message.dfy`) mirrors the source's message
record. Times are abstract integers. The clock (`Date()`, `Timestamp()`) is a
`now` parameter. The outcome of a store query is a parameter too.

A document without a well-typed `createdAt` decodes to the current time
(`Timestamp()` at ChatRoom/Managers/DatabaseManager.swift:32), not to the
epoch.

## Model

| member | source | states |
|---|---|---|
| Database.Decode | ChatRoom/Managers/DatabaseManager.swift:29-34 | a well-typed `text`, `uid`, `photoURL` or `createdAt` passes through unchanged; a missing or mistyped one gives "error with text", "error with uid", "error with photoURL" or the supplied current time |
| Database.Encode | ChatRoom/Managers/DatabaseManager.swift:42-47 | the written map has exactly the keys `text`, `uid`, `photoURL` and `createdAt`, three strings and a timestamp |
| Database.DecodeEncode | ChatRoom/Managers/DatabaseManager.swift:42-47 | decoding the map a send writes gives back the sent message, whatever the clock reads |
| Database.EncodeDecode | ChatRoom/Managers/DatabaseManager.swift:29-34 | every well-formed four-field document is the encoding of the message it decodes to |
| Database.DecodeAll | ChatRoom/Managers/DatabaseManager.swift:26-36 | decoding never drops a document: one message per document, the i-th being the i-th document decoded |
| Database.Reverse | ChatRoom/Managers/DatabaseManager.swift:38 | `reversed()` keeps the length and puts element i at position n-1-i |
| Database.ReverseReverse | ChatRoom/Managers/DatabaseManager.swift:38 | reversing twice gives back the original list |
| Database.Window | ChatRoom/Managers/DatabaseManager.swift:26-38 | the shown list has one message per document, the i-th being the (n-1-i)-th document decoded |
| Database.WindowReversesQueryOrder | ChatRoom/Managers/DatabaseManager.swift:69 | the shown list is the exact reverse of the documents decoded in query order |
| Database.NewestFirstShownOldestFirst | ChatRoom/Managers/DatabaseManager.swift:23-38 | documents delivered newest first by `createdAt` are shown oldest first |
| Database.DecodeSnapshot | ChatRoom/Managers/DatabaseManager.swift:57-69 | the append loop followed by `reversed()` returns exactly `Window(docs, now)` |
| Database.DatabaseManager.constructor | ChatRoom/Managers/DatabaseManager.swift:14-20 | the shared client starts with nothing written, no listener and nothing published |
| Database.DatabaseManager.FetchAllMessages | ChatRoom/Managers/DatabaseManager.swift:22-39 | a failed query propagates its error and registers no listener; a successful one registers one listener and returns the window |
| Database.DatabaseManager.SendMessageToDatabase | ChatRoom/Managers/DatabaseManager.swift:41-49 | exactly one write, of the message's encoding, and nothing else changes |
| Database.DatabaseManager.ListenToChangesInDatabase | ChatRoom/Managers/DatabaseManager.swift:51-52 | each call registers one more listener |
| Database.DatabaseManager.OnSnapshot | ChatRoom/Managers/DatabaseManager.swift:52-70 | with an error or no snapshot nothing is published; otherwise the window is published once and returned |
| Database.FetchAndListenAgree | ChatRoom/Managers/DatabaseManager.swift:58-69 | the fetch path and the listener path give the same list for the same documents |
| ChatRoom.ChatRoomViewController.constructor | ChatRoom/ChatRoomViewController.swift:55-76 | the screen starts with no messages, empty input and no subscription |
| ChatRoom.ChatRoomViewController.DidTapSend | ChatRoom/ChatRoomViewController.swift:129-138 | input of at most two characters changes nothing and writes nothing; longer input appends one message (input text, user uid, user photo URL or "", the current time) keeping the old list as a prefix, writes that same message's encoding, and clears the input; the row count (`NumberOfRows`, ChatRoom/ChatRoomViewController.swift:198-200) grows by exactly one on a send and is unchanged on a rejected one |
| ChatRoom.ChatRoomViewController.FetchMessages | ChatRoom/ChatRoomViewController.swift:172-181 | a successful fetch replaces the list with the fetched window, so the table has one row per fetched document; a failed one leaves it as it was |
| ChatRoom.ChatRoomViewController.SubscribeToMessagePublisher | ChatRoom/ChatRoomViewController.swift:183-192 | the screen is subscribed afterwards and its list is untouched |
| ChatRoom.ChatRoomViewController.ReceiveMessages | ChatRoom/ChatRoomViewController.swift:186-189 | a published list replaces the shown list entirely, with no merge or dedupe, and the row count becomes its length |
| ChatRoom.ChatRoomViewController.SnapshotArrives | ChatRoom/ChatRoomViewController.swift:183-189 | a successful snapshot publishes its window once and shows it on a subscribed screen (one row per document); an error or a missing snapshot publishes nothing; an error, a missing snapshot or no subscription leaves the list as it was |
| ChatRoom.ChatRoomViewController.CellForRow | ChatRoom/ChatRoomViewController.swift:202-215 | for any row below the row count, the cell shows that message's text in the layout its ownership decides, and requests that message's photo exactly when its URL is non-empty |
| ChatRoom.SentMessageReadsBack | ChatRoom/ChatRoomViewController.swift:132-134 | the document written by a send decodes to the message appended to the list |
| Cells.LayoutFor | ChatRoom/ChatTableViewCell.swift:105-119 | exactly one constraint of each leading/trailing pair is active; the trailing side and the blue bubble hold exactly for the user's own message |
| Cells.OppositeAlignment | ChatRoom/ChatTableViewCell.swift:97 | a message from the current uid and one from another uid sit on opposite sides in different colours |
| Cells.ChatTableViewCell.constructor | ChatRoom/ChatTableViewCell.swift:15-94 | a new cell has no switchable constraint active, a blue bubble, the initial label text and the "person" image |
| Cells.ChatTableViewCell.PrepareForReuse | ChatRoom/ChatTableViewCell.swift:61-65 | the label text and the image are cleared, the constraint flags and colour stay as they were |
| Cells.ChatTableViewCell.ConfigureForMessage | ChatRoom/ChatTableViewCell.swift:96-120 | the layout is `LayoutFor(currentUid == message.uid)`, the label is the message text, and an image load is requested exactly when the photo URL is non-empty |
| Cells.ChatTableViewCell.ConfigureForMock | ChatRoom/ChatTableViewCell.swift:122-140 | the layout is `LayoutFor(isUser)`, the label is the given text, the image is untouched |
| Cells.MockMatchesMessage | ChatRoom/ChatTableViewCell.swift:122-140 | a mock row and a real row with the same ownership end in the same layout with the same text |

## Left out

- Firestore query execution: ordering by `createdAt` and the limit of 25 documents are done by the store, so the model takes whatever documents the query delivers. `NewestFirstShownOldestFirst` takes the descending order as a precondition.
- Database.DecodeSnapshot: one `now` serves every document of a snapshot, whereas `Timestamp()` is evaluated once per document.
- Concurrency: the `Task` and `MainActor` hop, the Combine subject, `sink` and `tokens`, and the listener callback are each modelled as one sequential method call. The order in which a fetch and a listener callback finish is up to the caller of the model.
- Database.DatabaseManager.OnSnapshot: the `[weak self]` capture is not modelled; the shared client is never deallocated.
- Sign-in and sign-out (`AuthManager`, `SignInViewController`, `didTapSignOut`): thin wrappers over the identity provider and scene switching.
- Keyboard frame handling: floating-point view geometry.
- Layout constants, colours other than the two bubble colours, SDWebImage loading (a requested load is recorded as `Remote(url)`), `resignFirstResponder`, `reloadData` and scrolling, including `reloadChatRoom`'s row `count - 1`.
- `Date` and `Timestamp` precision: time is an abstract integer.
- Swift's grapheme-cluster `count`: text is a sequence of characters and its length is used.
- The unused `mockData` list.

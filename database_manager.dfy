/**
 * The client of the hosted document store: how a stored document becomes a
 * `Message`, how a query snapshot becomes the list shown on screen, and what
 * is written when a message is sent.
 */
module Database {
  import opened Wrappers
  import opened Messages

  /** A field value as read back from a document: a string, a timestamp, or anything else. */
  datatype Value = Str(s: string) | Stamp(t: Time) | Other

  /** A stored document: its string-keyed field map. */
  type Document = map<string, Value>

  const TextPlaceholder := "error with text"
  const UidPlaceholder := "error with uid"
  const PhotoURLPlaceholder := "error with photoURL"

  /** The four keys a sent message is stored under. */
  const StoredKeys: set<string> := {"text", "uid", "photoURL", "createdAt"}

  /** `doc[key] as? String` succeeds. */
  predicate HasString(doc: Document, key: string) {
    key in doc && doc[key].Str?
  }

  /** `doc[key] as? Timestamp` succeeds. */
  predicate HasStamp(doc: Document, key: string) {
    key in doc && doc[key].Stamp?
  }

  /** `doc[key] as? String ?? placeholder` */
  function StringField(doc: Document, key: string, placeholder: string): string {
    if HasString(doc, key) then doc[key].s else placeholder
  }

  /** `doc[key] as? Timestamp ?? Timestamp()`, with `now` standing for `Timestamp()` */
  function StampField(doc: Document, key: string, now: Time): Time {
    if HasStamp(doc, key) then doc[key].t else now
  }

  /**
   * Decodes one stored document. Decoding never fails: a field that is
   * missing or of the wrong type is replaced by its placeholder, and a
   * missing or mistyped `createdAt` by the current time.
   */
  function Decode(doc: Document, now: Time): (m: Message)
    ensures HasString(doc, "text") ==> m.text == doc["text"].s
    ensures !HasString(doc, "text") ==> m.text == TextPlaceholder
    ensures HasString(doc, "uid") ==> m.uid == doc["uid"].s
    ensures !HasString(doc, "uid") ==> m.uid == UidPlaceholder
    ensures HasString(doc, "photoURL") ==> m.photoURL == doc["photoURL"].s
    ensures !HasString(doc, "photoURL") ==> m.photoURL == PhotoURLPlaceholder
    ensures HasStamp(doc, "createdAt") ==> m.createdAt == doc["createdAt"].t
    ensures !HasStamp(doc, "createdAt") ==> m.createdAt == now
  {
    Message(
      text := StringField(doc, "text", TextPlaceholder),
      photoURL := StringField(doc, "photoURL", PhotoURLPlaceholder),
      uid := StringField(doc, "uid", UidPlaceholder),
      createdAt := StampField(doc, "createdAt", now))
  }

  /** A document exactly as the send path writes it: the four keys, each well typed. */
  predicate WellFormed(doc: Document) {
    && doc.Keys == StoredKeys
    && HasString(doc, "text")
    && HasString(doc, "uid")
    && HasString(doc, "photoURL")
    && HasStamp(doc, "createdAt")
  }

  /** The field map `sendMessageToDatebase` hands to the store. */
  function Encode(m: Message): (doc: Document)
    ensures WellFormed(doc)
  {
    map["text" := Str(m.text), "uid" := Str(m.uid), "photoURL" := Str(m.photoURL),
        "createdAt" := Stamp(m.createdAt)]
  }

  /** Reading back what was sent gives the message that was sent, whatever the clock says. */
  lemma DecodeEncode(m: Message, now: Time)
    ensures Decode(Encode(m), now) == m
  {
  }

  /** Every well-formed document is the encoding of the message it decodes to. */
  lemma EncodeDecode(doc: Document, now: Time)
    requires WellFormed(doc)
    ensures Encode(Decode(doc, now)) == doc
  {
  }

  /** The documents decoded one by one, in query order. */
  function DecodeAll(docs: seq<Document>, now: Time): (ms: seq<Message>)
    ensures |ms| == |docs|
    ensures forall i :: 0 <= i < |docs| ==> ms[i] == Decode(docs[i], now)
  {
    if docs == [] then []
    else DecodeAll(docs[..|docs| - 1], now) + [Decode(docs[|docs| - 1], now)]
  }

  /** `reversed()`: the same elements, last first. */
  function Reverse<T>(s: seq<T>): (r: seq<T>)
    ensures |r| == |s|
    ensures forall i :: 0 <= i < |s| ==> r[i] == s[|s| - 1 - i]
  {
    if s == [] then [] else [s[|s| - 1]] + Reverse(s[..|s| - 1])
  }

  /** Reversing twice gives back the original sequence. */
  lemma ReverseReverse<T>(s: seq<T>)
    ensures Reverse(Reverse(s)) == s
  {
  }

  /**
   * The list a query snapshot is shown as: every document decoded, in the
   * reverse of the order the query delivered them.
   */
  function Window(docs: seq<Document>, now: Time): (w: seq<Message>)
    ensures |w| == |docs|
    ensures forall i :: 0 <= i < |docs| ==> w[i] == Decode(docs[|docs| - 1 - i], now)
  {
    Reverse(DecodeAll(docs, now))
  }

  /** The shown list is exactly the decoded documents turned around. */
  lemma WindowReversesQueryOrder(docs: seq<Document>, now: Time)
    ensures Reverse(Window(docs, now)) == DecodeAll(docs, now)
  {
  }

  /** The query's order: every document carries a timestamp, newest first. */
  ghost predicate NewestFirst(docs: seq<Document>) {
    && (forall i :: 0 <= i < |docs| ==> HasStamp(docs[i], "createdAt"))
    && (forall i, j :: 0 <= i < j < |docs| ==> docs[j]["createdAt"].t <= docs[i]["createdAt"].t)
  }

  /** Messages in display order: oldest first. */
  ghost predicate OldestFirst(ms: seq<Message>) {
    forall i, j :: 0 <= i < j < |ms| ==> ms[i].createdAt <= ms[j].createdAt
  }

  /** A snapshot that arrives newest first is shown oldest first. */
  lemma NewestFirstShownOldestFirst(docs: seq<Document>, now: Time)
    requires NewestFirst(docs)
    ensures OldestFirst(Window(docs, now))
  {
  }

  /**
   * The loop shared by `fetchAllMessages` and the snapshot listener: decode
   * each document into a growing array, then return it reversed.
   */
  method DecodeSnapshot(docs: seq<Document>, now: Time) returns (window: seq<Message>)
    ensures window == Window(docs, now)
  {
    var messages: seq<Message> := [];
    for k := 0 to |docs|
      invariant messages == DecodeAll(docs[..k], now)
    {
      assert docs[..k + 1][..k] == docs[..k];
      messages := messages + [Decode(docs[k], now)];
    }
    assert docs[..|docs|] == docs;
    window := Reverse(messages);
  }

  /**
   * The shared database client. The store itself is outside the model: a
   * query's outcome is passed in, and what the client hands to the store and
   * to its subscribers is recorded.
   */
  class DatabaseManager {
    /** Documents passed to `addDocument`, in call order. */
    var written: seq<Document>
    /** Snapshot listeners registered on the messages query. */
    var listeners: nat
    /** Values sent through `updatedMessagesPublisher`, in send order. */
    var published: seq<seq<Message>>

    constructor ()
      ensures written == [] && listeners == 0 && published == []
    {
      written := [];
      listeners := 0;
      published := [];
    }

    /**
     * `fetchAllMessages`: `query` is what `getDocuments()` delivered. When it
     * threw, the error propagates and no listener is registered; otherwise a
     * new listener is registered and the decoded window is returned.
     */
    method FetchAllMessages(query: Result<seq<Document>>, now: Time) returns (r: Result<seq<Message>>)
      modifies this
      ensures query.Failure? ==> r == Failure(query.reason) && listeners == old(listeners)
      ensures query.Success? ==> r == Success(Window(query.value, now)) && listeners == old(listeners) + 1
      ensures written == old(written) && published == old(published)
    {
      if query.Failure? {
        return Failure(query.reason);
      }
      var messages := DecodeSnapshot(query.value, now);
      ListenToChangesInDatabase();
      r := Success(messages);
    }

    /** `sendMessageToDatebase`: one write of the message's four fields, fire and forget. */
    method SendMessageToDatabase(message: Message)
      modifies this
      ensures written == old(written) + [Encode(message)]
      ensures listeners == old(listeners) && published == old(published)
    {
      var msgData := Encode(message);
      written := written + [msgData];
    }

    /** `listenToChangesInDatabase`: registers one more snapshot listener. */
    method ListenToChangesInDatabase()
      modifies this
      ensures listeners == old(listeners) + 1
      ensures written == old(written) && published == old(published)
    {
      listeners := listeners + 1;
    }

    /**
     * One call of a registered listener's callback. With an error or without
     * a snapshot nothing is published; otherwise the decoded window is.
     */
    method OnSnapshot(snapshot: Option<seq<Document>>, failed: bool, now: Time)
      returns (emitted: Option<seq<Message>>)
      requires listeners > 0
      modifies this
      ensures snapshot.None? || failed ==> emitted == None && published == old(published)
      ensures snapshot.Some? && !failed ==>
                emitted == Some(Window(snapshot.value, now))
                && published == old(published) + [Window(snapshot.value, now)]
      ensures written == old(written) && listeners == old(listeners)
    {
      if snapshot.None? || failed {
        return None;
      }
      var messages := DecodeSnapshot(snapshot.value, now);
      published := published + [messages];
      emitted := Some(messages);
    }
  }

  /** The fetch and a listener callback turn the same documents into the same list. */
  method FetchAndListenAgree(db: DatabaseManager, docs: seq<Document>, now: Time)
    returns (fetched: seq<Message>, heard: seq<Message>)
    modifies db
    ensures fetched == heard == Window(docs, now)
  {
    var r := db.FetchAllMessages(Success(docs), now);
    var e := db.OnSnapshot(Some(docs), false, now);
    fetched, heard := r.value, e.value;
  }
}

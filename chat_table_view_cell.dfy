/**
 * One row of the chat table: a profile image and a text bubble, pinned to the
 * trailing edge for the signed-in user's own messages and to the leading edge
 * for everybody else's.
 */
module Cells {
  import opened Wrappers
  import opened Messages

  /** The two bubble colours a row can take. */
  datatype Color = SystemBlue | SystemGray6

  /** What the profile image view shows: the "person" symbol, or an image loaded from a URL. */
  datatype ProfileImage = PersonSymbol | Remote(url: string)

  /** The four switchable layout constraints and the bubble colour. */
  datatype Layout = Layout(
    imageLeading: bool, imageTrailing: bool,
    textLeading: bool, textTrailing: bool,
    bubble: Color)

  /** Exactly one constraint of each leading/trailing pair is active, both on the same side. */
  predicate OneSidePerPair(l: Layout) {
    && l.imageLeading != l.imageTrailing
    && l.textLeading != l.textTrailing
    && l.imageTrailing == l.textTrailing
  }

  /** No switchable constraint is active: the state before the first configure. */
  predicate NoneActive(l: Layout) {
    !l.imageLeading && !l.imageTrailing && !l.textLeading && !l.textTrailing
  }

  /** The layout a row takes: trailing and blue for the user's own message, leading and gray otherwise. */
  function LayoutFor(isUser: bool): (l: Layout)
    ensures OneSidePerPair(l)
    ensures l.imageTrailing <==> isUser
    ensures l.bubble == SystemBlue <==> isUser
  {
    if isUser then Layout(false, true, false, true, SystemBlue)
    else Layout(true, false, true, false, SystemGray6)
  }

  /** A message is the user's own exactly when its uid is the signed-in uid. */
  predicate IsUser(currentUid: string, message: Message) {
    currentUid == message.uid
  }

  /** Messages from the signed-in user and from anybody else sit on opposite sides in different colours. */
  lemma OppositeAlignment(currentUid: string, mine: Message, theirs: Message)
    requires mine.uid == currentUid && theirs.uid != currentUid
    ensures LayoutFor(IsUser(currentUid, mine)).imageTrailing
    ensures LayoutFor(IsUser(currentUid, theirs)).imageLeading
    ensures LayoutFor(IsUser(currentUid, mine)).bubble != LayoutFor(IsUser(currentUid, theirs)).bubble
  {
  }

  class ChatTableViewCell {
    var imageLeading: bool
    var imageTrailing: bool
    var textLeading: bool
    var textTrailing: bool
    var bubbleColor: Color
    /** `chatTextLabel.text`; `None` is `nil`. */
    var labelText: Option<string>
    /** `profileImageView.image`; `None` is `nil`. */
    var profileImage: Option<ProfileImage>
    /** Whether a configure call has run since the cell was made. */
    ghost var configured: bool

    /** The constraint flags and the bubble colour together. */
    function Alignment(): Layout
      reads this
    {
      Layout(imageLeading, imageTrailing, textLeading, textTrailing, bubbleColor)
    }

    /** Before the first configure no constraint is active; after it, exactly one side is. */
    ghost predicate Valid()
      reads this
    {
      if configured then OneSidePerPair(Alignment()) else NoneActive(Alignment())
    }

    /** `init(style:reuseIdentifier:)`: the four constraints are created but not activated. */
    constructor ()
      ensures Valid() && !configured
      ensures NoneActive(Alignment()) && bubbleColor == SystemBlue
      ensures labelText == Some("HELLLOOO ITS MEEEE") && profileImage == Some(PersonSymbol)
    {
      imageLeading, imageTrailing := false, false;
      textLeading, textTrailing := false, false;
      bubbleColor := SystemBlue;
      labelText := Some("HELLLOOO ITS MEEEE");
      profileImage := Some(PersonSymbol);
      configured := false;
    }

    /** `prepareForReuse`: clears the text and the image and leaves the layout as it was. */
    method PrepareForReuse()
      requires Valid()
      modifies this
      ensures Valid() && configured == old(configured)
      ensures labelText == None && profileImage == None
      ensures Alignment() == old(Alignment())
    {
      profileImage := None;
      labelText := None;
    }

    /**
     * `configureForMessage`: shows the message's text, asks for its sender's
     * photo when there is a URL, and aligns the row by comparing uids.
     */
    method ConfigureForMessage(message: Message, currentUid: string)
      modifies this
      ensures Valid() && configured
      ensures Alignment() == LayoutFor(IsUser(currentUid, message))
      ensures labelText == Some(message.text)
      ensures |message.photoURL| > 0 ==> profileImage == Some(Remote(message.photoURL))
      ensures |message.photoURL| == 0 ==> profileImage == old(profileImage)
    {
      var isUser := currentUid == message.uid;
      labelText := Some(message.text);
      if |message.photoURL| > 0 {
        profileImage := Some(Remote(message.photoURL));
      }

      if isUser {
        bubbleColor := SystemBlue;
        imageTrailing := true;
        textTrailing := true;

        imageLeading := false;
        textLeading := false;
      } else {
        bubbleColor := SystemGray6;
        imageLeading := true;
        textLeading := true;

        imageTrailing := false;
        textTrailing := false;
      }
      configured := true;
    }

    /** `configureForMock`: the same alignment as for a real message, decided by the caller. */
    method ConfigureForMock(message: string, isUser: bool)
      modifies this
      ensures Valid() && configured
      ensures Alignment() == LayoutFor(isUser)
      ensures labelText == Some(message) && profileImage == old(profileImage)
    {
      labelText := Some(message);

      if isUser {
        bubbleColor := SystemBlue;
        imageTrailing := true;
        textTrailing := true;

        imageLeading := false;
        textLeading := false;
      } else {
        bubbleColor := SystemGray6;
        imageLeading := true;
        textLeading := true;

        imageTrailing := false;
        textTrailing := false;
      }
      configured := true;
    }
  }

  /**
   * A row configured through `configureForMock` and one configured through
   * `configureForMessage` with the same ownership show the same text in the
   * same layout.
   */
  method MockMatchesMessage(live: ChatTableViewCell, mock: ChatTableViewCell, message: Message, currentUid: string)
    requires live != mock
    modifies live, mock
    ensures live.Alignment() == mock.Alignment()
    ensures live.labelText == mock.labelText
  {
    live.ConfigureForMessage(message, currentUid);
    mock.ConfigureForMock(message.text, currentUid == message.uid);
  }
}

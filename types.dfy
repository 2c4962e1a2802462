/** The message records and the classifier of pkg/types/whatsapp.go: an incoming
    event, its kind, the labels of kinds and priorities, and the normalised
    records built from an event. */
module Types {
  import opened Options

  // ---------------------------------------------------------------------------
  // The incoming event, as far as the program reads it. Each payload of the
  // protocol message is an optional sub-message; the fields of a sub-message hold
  // what its getter returns (the zero value when the field is unset).

  datatype ExtendedTextMessage = ExtendedTextMessage(text: string)
  datatype ImageMessage = ImageMessage(caption: string, mimetype: string)
  datatype DocumentMessage = DocumentMessage(fileName: string, mimetype: string, fileLength: nat)
  datatype AudioMessage = AudioMessage(mimetype: string, seconds: nat)
  datatype VideoMessage = VideoMessage(caption: string, mimetype: string, seconds: nat)
  datatype StickerMessage = StickerMessage
  datatype ContactMessage = ContactMessage
  datatype LocationMessage = LocationMessage

  datatype Message = Message(
    conversation: Option<string>,
    extendedText: Option<ExtendedTextMessage>,
    image: Option<ImageMessage>,
    document: Option<DocumentMessage>,
    audio: Option<AudioMessage>,
    video: Option<VideoMessage>,
    sticker: Option<StickerMessage>,
    contact: Option<ContactMessage>,
    location: Option<LocationMessage>)

  /** Envelope of an event: `chat` is the chat identifier already rendered as text,
      `timestamp` the send time as a number. */
  datatype EventInfo = EventInfo(
    id: string, chat: string, pushName: string, timestamp: int, isGroup: bool, isFromMe: bool)

  datatype Event = Event(info: EventInfo, message: Message)

  // ---------------------------------------------------------------------------
  // Message kinds: a Go `int` type with nine named values.

  newtype MessageType = int

  const TextType: MessageType := 0
  const ImageType: MessageType := 1
  const DocumentType: MessageType := 2
  const AudioType: MessageType := 3
  const VideoType: MessageType := 4
  const StickerType: MessageType := 5
  const ContactType: MessageType := 6
  const LocationType: MessageType := 7
  const UnknownType: MessageType := 8

  /** The label of each named kind, indexed by its value. */
  const TypeLabels: seq<string> :=
    ["text", "image", "document", "audio", "video", "sticker", "contact", "location", "unknown"]

  /** `MessageType.String`: the label of a named kind; "unknown" for UnknownType and
      for every value outside the named range. */
  function TypeString(mt: MessageType): (r: string)
    ensures r in TypeLabels
    ensures TextType <= mt <= UnknownType ==> r == TypeLabels[mt as int]
    ensures r == "unknown" <==> !(TextType <= mt <= LocationType)
  {
    if mt == TextType then "text"
    else if mt == ImageType then "image"
    else if mt == DocumentType then "document"
    else if mt == AudioType then "audio"
    else if mt == VideoType then "video"
    else if mt == StickerType then "sticker"
    else if mt == ContactType then "contact"
    else if mt == LocationType then "location"
    else "unknown"
  }

  /** Distinct named kinds have distinct labels. */
  lemma TypeStringInjective(a: MessageType, b: MessageType)
    requires TextType <= a <= UnknownType && TextType <= b <= UnknownType
    requires TypeString(a) == TypeString(b)
    ensures a == b
  {
  }

  // ---------------------------------------------------------------------------
  // Priorities: a Go `int` type with four named values, in increasing order.

  newtype MessagePriority = int

  const PriorityLow: MessagePriority := 0
  const PriorityNormal: MessagePriority := 1
  const PriorityHigh: MessagePriority := 2
  const PriorityCritical: MessagePriority := 3

  /** `MessagePriority.String`: the label of a named priority; "normal" for every
      other value. */
  function PriorityString(p: MessagePriority): (r: string)
    ensures r in ["low", "normal", "high", "critical"]
    ensures r == "normal" <==> p != PriorityLow && p != PriorityHigh && p != PriorityCritical
    ensures r == "low" <==> p == PriorityLow
    ensures r == "critical" <==> p == PriorityCritical
  {
    if p == PriorityLow then "low"
    else if p == PriorityNormal then "normal"
    else if p == PriorityHigh then "high"
    else if p == PriorityCritical then "critical"
    else "normal"
  }

  /** The named priorities are strictly ordered and have distinct labels. */
  lemma PriorityOrder()
    ensures PriorityLow < PriorityNormal < PriorityHigh < PriorityCritical
    ensures |{PriorityString(PriorityLow), PriorityString(PriorityNormal),
              PriorityString(PriorityHigh), PriorityString(PriorityCritical)}| == 4
  {
  }

  // ---------------------------------------------------------------------------
  // Classification.

  /** Which payloads are present, in the order the classifier tests them. */
  function Presence(m: Message): (flags: seq<bool>)
    ensures |flags| == 9
  {
    [m.conversation.Some?, m.extendedText.Some?, m.image.Some?, m.document.Some?,
     m.audio.Some?, m.video.Some?, m.sticker.Some?, m.contact.Some?, m.location.Some?]
  }

  /** The kind each entry of Presence stands for. */
  const PayloadKinds: seq<MessageType> :=
    [TextType, TextType, ImageType, DocumentType, AudioType, VideoType,
     StickerType, ContactType, LocationType]

  predicate HasPayload(m: Message) {
    true in Presence(m)
  }

  /** Reference classifier: the kind of the first flag set at or after `from`, else
      UnknownType. */
  function FirstPresent(flags: seq<bool>, kinds: seq<MessageType>, from: nat): MessageType
    requires |flags| == |kinds| && from <= |flags|
    decreases |flags| - from
  {
    if from == |flags| then UnknownType
    else if flags[from] then kinds[from]
    else FirstPresent(flags, kinds, from + 1)
  }

  /** `GetMessageType`: total; Text exactly when a conversation or an extended text
      is present (whatever its content), and otherwise the first media kind present,
      or Unknown. A kind other than Text and Unknown is only returned when its
      payload is there. */
  function GetMessageType(m: Message): (r: MessageType)
    ensures TextType <= r <= UnknownType
    ensures r == TextType <==> m.conversation.Some? || m.extendedText.Some?
    ensures r == ImageType ==> m.image.Some?
    ensures r == DocumentType ==> m.document.Some?
    ensures r == AudioType ==> m.audio.Some?
    ensures r == VideoType ==> m.video.Some?
    ensures r == StickerType ==> m.sticker.Some?
    ensures r == ContactType ==> m.contact.Some?
    ensures r == LocationType ==> m.location.Some?
    ensures r == UnknownType <==> !HasPayload(m)
  {
    if m.conversation.Some? then TextType
    else if m.extendedText.Some? then TextType
    else if m.image.Some? then ImageType
    else if m.document.Some? then DocumentType
    else if m.audio.Some? then AudioType
    else if m.video.Some? then VideoType
    else if m.sticker.Some? then StickerType
    else if m.contact.Some? then ContactType
    else if m.location.Some? then LocationType
    else UnknownType
  }

  /** FirstPresent returns the kind at the first set flag. */
  lemma {:induction false} FirstPresentAt(flags: seq<bool>, kinds: seq<MessageType>, from: nat, i: nat)
    requires |flags| == |kinds| && from <= i < |flags| && flags[i]
    requires forall j :: from <= j < i ==> !flags[j]
    ensures FirstPresent(flags, kinds, from) == kinds[i]
    decreases i - from
  {
    if from < i {
      FirstPresentAt(flags, kinds, from + 1, i);
    }
  }

  /** FirstPresent returns UnknownType when no flag is set. */
  lemma {:induction false} FirstPresentNone(flags: seq<bool>, kinds: seq<MessageType>, from: nat)
    requires |flags| == |kinds| && from <= |flags|
    requires forall j :: from <= j < |flags| ==> !flags[j]
    ensures FirstPresent(flags, kinds, from) == UnknownType
    decreases |flags| - from
  {
    if from < |flags| {
      FirstPresentNone(flags, kinds, from + 1);
    }
  }

  /** The classifier returns the kind of the first payload present in the order
      conversation, extended text, image, document, audio, video, sticker, contact,
      location, and Unknown when there is none. */
  lemma ClassifierIsFirstPresent(m: Message)
    ensures GetMessageType(m) == FirstPresent(Presence(m), PayloadKinds, 0)
  {
    var flags := Presence(m);
    if HasPayload(m) {
      var i := FirstIndex(flags);
      FirstPresentAt(flags, PayloadKinds, 0, i);
      assert flags[i] && forall k :: 0 <= k < i ==> !flags[k];
      assert !flags[0] || i == 0;
      assert !flags[1] || i <= 1;
      assert !flags[2] || i <= 2;
      assert !flags[3] || i <= 3;
      assert !flags[4] || i <= 4;
      assert !flags[5] || i <= 5;
      assert !flags[6] || i <= 6;
      assert !flags[7] || i <= 7;
    } else {
      FirstPresentNone(flags, PayloadKinds, 0);
    }
  }

  /** The position of the first set flag. */
  lemma FirstIndex(flags: seq<bool>) returns (i: nat)
    requires true in flags
    ensures i < |flags| && flags[i] && forall j :: 0 <= j < i ==> !flags[j]
  {
    i := 0;
    while !flags[i]
      invariant i < |flags| && true in flags[i..]
      invariant forall j :: 0 <= j < i ==> !flags[j]
      decreases |flags| - i
    {
      assert flags[i..] == [flags[i]] + flags[i + 1..];
      i := i + 1;
    }
  }

  /** With exactly one payload present the kind is that payload's kind, however the
      other payloads are left. */
  lemma ExactlyOnePayload(m: Message, i: nat)
    requires i < 9 && Presence(m)[i]
    requires forall j :: 0 <= j < 9 && j != i ==> !Presence(m)[j]
    ensures GetMessageType(m) == PayloadKinds[i]
  {
    ClassifierIsFirstPresent(m);
    FirstPresentAt(Presence(m), PayloadKinds, 0, i);
  }

  // ---------------------------------------------------------------------------
  // Normalised records.

  /** The text of a message: the conversation when it is non-empty, else the
      extended text's text, else "". */
  function MessageText(m: Message): (t: string)
    ensures m.conversation.Some? && m.conversation.value != "" ==> t == m.conversation.value
    ensures t == "" || (m.conversation.Some? && t == m.conversation.value)
                    || (m.extendedText.Some? && t == m.extendedText.value.text)
    ensures t != "" ==> GetMessageType(m) == TextType
    ensures t == "" <==> ((m.conversation.None? || m.conversation.value == "")
                          && (m.extendedText.None? || m.extendedText.value.text == ""))
  {
    var conversation := if m.conversation.Some? then m.conversation.value else "";
    if conversation == "" && m.extendedText.Some? then m.extendedText.value.text
    else conversation
  }

  datatype MessageInfo = MessageInfo(
    id: string, from: string, to: string, pushName: string, text: string,
    timestamp: int, isGroup: bool, groupName: string, isFromMe: bool)

  /** `NewMessageInfoFromEvent`: the envelope's identity, sender name, time and flags
      carried over unchanged, the chat as sender address, the message text, and no
      recipient or group name. */
  function NewMessageInfoFromEvent(e: Event): (r: MessageInfo)
    ensures r.id == e.info.id && r.pushName == e.info.pushName && r.timestamp == e.info.timestamp
    ensures r.isGroup == e.info.isGroup && r.isFromMe == e.info.isFromMe
    ensures r.from == e.info.chat && r.to == "" && r.groupName == ""
    ensures r.text == MessageText(e.message)
  {
    MessageInfo(
      id := e.info.id,
      from := e.info.chat,
      to := "",
      pushName := e.info.pushName,
      text := MessageText(e.message),
      timestamp := e.info.timestamp,
      isGroup := e.info.isGroup,
      groupName := "",
      isFromMe := e.info.isFromMe)
  }

  /** A media record; `messageType` is the Go field `Type`. */
  datatype MediaMessage = MediaMessage(
    info: MessageInfo, messageType: MessageType, mimeType: string, filename: string,
    caption: string, data: seq<bv8>, size: int, duration: int, groupName: string,
    processedAt: int, needsProcessing: bool, textContent: string, transcription: string)

  /** `NewWhatsAppMessageFromEvent`, with the clock reading passed in: the info of
      the event, marked as needing processing, and every media field at its zero
      value, so the record's kind reads as Text (value 0) whatever the event holds. */
  function NewWhatsAppMessageFromEvent(e: Event, now: int): (r: MediaMessage)
    ensures r.info == NewMessageInfoFromEvent(e)
    ensures r.needsProcessing && r.processedAt == now
    ensures r.messageType == TextType && TypeString(r.messageType) == "text"
    ensures r.mimeType == "" && r.filename == "" && r.caption == "" && r.data == []
    ensures r.size == 0 && r.duration == 0 && r.groupName == ""
    ensures r.textContent == "" && r.transcription == ""
  {
    MediaMessage(
      info := NewMessageInfoFromEvent(e), messageType := 0, mimeType := "", filename := "",
      caption := "", data := [], size := 0, duration := 0, groupName := "",
      processedAt := now, needsProcessing := true, textContent := "", transcription := "")
  }
}

/** The alternative message handlers of internal/whatsapp/handlers.go. They are
    methods of the same client as those of client.go and log through the same
    `logMessage`, but route and format differently: text is handled here, the
    duration of audio and video is always printed, the document template is fixed,
    and stickers, contacts and locations fall into the "not supported" branch.
    They are modelled as methods over the same `WhatsApp.Client` and its trace.
    The module also holds `isProcessableTextFile`. */
module Handlers {
  import opened Options
  import opened GoStd
  import opened Types
  import opened WhatsApp

  // ---------------------------------------------------------------------------
  // The variant summaries: every part is printed, empty or zero.

  function ImageLine(img: ImageMessage): string {
    "[IMAGEN] " + img.mimetype + Opt(img.caption != "", " - Caption: " + img.caption)
  }

  function AudioLine(audio: AudioMessage): string {
    "[AUDIO] " + audio.mimetype + " - Duracion: " + Digits(audio.seconds) + "s"
  }

  function VideoLine(video: VideoMessage): string {
    "[VIDEO] " + video.mimetype + " - Duracion: " + Digits(video.seconds) + "s"
    + Opt(video.caption != "", " - Caption: " + video.caption)
  }

  function DocumentLine(doc: DocumentMessage): string {
    "[DOCUMENTO] " + doc.fileName + " (" + doc.mimetype + ") - Size: " + Digits(doc.fileLength) + " bytes"
  }

  /** What the variant `processComplexMessage` logs for a message: the text of a
      text message (nothing when it is empty), the summary of an image, audio,
      video or document, and "[kind] No soportado" for every other kind. */
  function VariantContent(m: Message): (r: Option<string>)
    ensures r.None? <==> GetMessageType(m) == TextType && MessageText(m) == ""
    ensures GetMessageType(m) == TextType && r.Some? ==> r.value == MessageText(m)
    ensures GetMessageType(m) != TextType ==> r.Some? && |r.value| > 1 && r.value[0] == '['
  {
    var kind := GetMessageType(m);
    if kind == TextType then
      (if MessageText(m) != "" then Some(MessageText(m)) else None)
    else if kind == ImageType then Some(ImageLine(m.image.value))
    else if kind == AudioType then Some(AudioLine(m.audio.value))
    else if kind == VideoType then Some(VideoLine(m.video.value))
    else if kind == DocumentType then Some(DocumentLine(m.document.value))
    else Some("[" + TypeString(kind) + "] No soportado")
  }

  /** The log effect of one optional line. */
  function LogEffects(info: EventInfo, groupName: string, content: Option<string>): seq<Effect> {
    if content.Some? then [Logged(LogLine(info, groupName, content.value))] else []
  }

  /** Effects of the variant `processComplexMessage`: the group lookup, then at most
      one line. */
  function VariantEffects(e: Event, lookup: Option<string>): seq<Effect> {
    LookupEffects(e.info) + LogEffects(e.info, GroupName(e.info, lookup), VariantContent(e.message))
  }

  // ---------------------------------------------------------------------------
  // Properties of the variant.

  /** The variant logs exactly the line of its content, with the context prefix,
      after the group lookup, and calls no handler. */
  lemma VariantViews(e: Event, lookup: Option<string>)
    ensures var g := GroupName(e.info, lookup);
            var content := VariantContent(e.message);
            && Lines(VariantEffects(e, lookup))
               == (if content.Some? then [LogLine(e.info, g, content.value)] else [])
            && Lookups(VariantEffects(e, lookup)) == Lookups(LookupEffects(e.info))
            && Callbacks(VariantEffects(e, lookup)) == []
  {
    var logs := LogEffects(e.info, GroupName(e.info, lookup), VariantContent(e.message));
    ViewsAppend(LookupEffects(e.info), logs);
    LookupViews(e.info);
    if VariantContent(e.message).Some? {
      ViewsOfOne(logs[0]);
    }
  }

  /** A text message is logged by the variant exactly when its text is non-empty;
      every other kind is always logged, once. */
  lemma VariantLogsUnlessEmptyText(e: Event, lookup: Option<string>)
    ensures |Lines(VariantEffects(e, lookup))|
            == (if GetMessageType(e.message) == TextType && MessageText(e.message) == "" then 0 else 1)
  {
    VariantViews(e, lookup);
  }

  /** Every line the variant logs carries the context prefix of its message. */
  lemma VariantLinesPrefixed(e: Event, lookup: Option<string>)
    ensures forall line <- Lines(VariantEffects(e, lookup)) ::
              Prefixed(e.info, GroupName(e.info, lookup), line)
  {
    VariantViews(e, lookup);
    var content := VariantContent(e.message);
    if content.Some? {
      LogLineShape(e.info, GroupName(e.info, lookup), content.value);
    }
  }

  /** The routing of the variant `processComplexMessage`: text is logged as is
      (nothing when empty), each media kind logs its own line, and every other kind,
      Unknown included, "[<label>] No soportado". */
  lemma VariantRouting(m: Message)
    ensures var kind, content := GetMessageType(m), VariantContent(m);
            && (kind == TextType ==> content == (if MessageText(m) != "" then Some(MessageText(m)) else None))
            && (kind == ImageType ==> content == Some(ImageLine(m.image.value)))
            && (kind == AudioType ==> content == Some(AudioLine(m.audio.value)))
            && (kind == VideoType ==> content == Some(VideoLine(m.video.value)))
            && (kind == DocumentType ==> content == Some(DocumentLine(m.document.value)))
            && (kind == UnknownType ==> content == Some("[unknown] No soportado"))
  {
    if GetMessageType(m) == UnknownType {
      assert TypeString(UnknownType) == "unknown";
      assert "[" + "unknown" + "] No soportado" == "[unknown] No soportado";
    }
  }

  /** Stickers are summarised by client.go but reported as not supported by the
      variant; so are contacts and locations (below). */
  lemma VariantSticker(m: Message)
    requires GetMessageType(m) == StickerType
    ensures VariantContent(m) == Some("[sticker] No soportado")
    ensures ComplexContent(m) == "[STICKER]"
  {
    assert TypeString(StickerType) == "sticker";
    assert "[" + "sticker" + "] No soportado" == "[sticker] No soportado";
  }

  lemma VariantContact(m: Message)
    requires GetMessageType(m) == ContactType
    ensures VariantContent(m) == Some("[contact] No soportado")
    ensures ComplexContent(m) == "[CONTACTO]"
  {
    assert TypeString(ContactType) == "contact";
    assert "[" + "contact" + "] No soportado" == "[contact] No soportado";
  }

  lemma VariantLocation(m: Message)
    requires GetMessageType(m) == LocationType
    ensures VariantContent(m) == Some("[location] No soportado")
    ensures ComplexContent(m) == "[UBICACIÓN]"
  {
    assert TypeString(LocationType) == "location";
    assert "[" + "location" + "] No soportado" == "[location] No soportado";
  }

  /** The variant prints the audio duration even when it is zero, where client.go
      leaves it out; the seconds printed are the message's. */
  lemma AudioLineShowsDuration(audio: AudioMessage)
    ensures var s := AudioLine(audio);
            var tail := " - Duracion: " + Digits(audio.seconds) + "s";
            |s| >= |tail| && s[|s| - |tail|..] == tail
  {
    var s := AudioLine(audio);
    var tail := " - Duracion: " + Digits(audio.seconds) + "s";
    assert s == ("[AUDIO] " + audio.mimetype) + tail;
  }

  /** The variant prints the video duration even when it is zero, right after the
      MIME type and before any caption. */
  lemma VideoLineShowsDuration(video: VideoMessage)
    ensures "[VIDEO] " + video.mimetype + " - Duracion: " + Digits(video.seconds) + "s" <= VideoLine(video)
  {
  }

  /** A zero-second voice note; client.go logs the same note as "[AUDIO]
      (audio/ogg)". */
  lemma ZeroSecondAudio()
    ensures AudioLine(AudioMessage("audio/ogg", 0)) == "[AUDIO] audio/ogg - Duracion: 0s"
  {
    assert Digits(0) == "0";
  }

  /** Two audio notes of the same type with the same line lasted equally long: the
      duration can be read back from the line. */
  lemma AudioLineDeterminesSeconds(a1: AudioMessage, a2: AudioMessage)
    requires a1.mimetype == a2.mimetype && AudioLine(a1) == AudioLine(a2)
    ensures a1.seconds == a2.seconds
  {
    var head := "[AUDIO] " + a1.mimetype + " - Duracion: ";
    var s := AudioLine(a1);
    assert s == head + Digits(a1.seconds) + "s";
    assert s == head + Digits(a2.seconds) + "s";
    assert s[|head|..|s| - 1] == Digits(a1.seconds);
    assert s[|head|..|s| - 1] == Digits(a2.seconds);
    DigitsInjective(a1.seconds, a2.seconds);
  }

  /** Two documents with the same name and type and the same line have the same
      size: the size can be read back from the line. */
  lemma DocumentLineDeterminesSize(d1: DocumentMessage, d2: DocumentMessage)
    requires d1.fileName == d2.fileName && d1.mimetype == d2.mimetype
    requires DocumentLine(d1) == DocumentLine(d2)
    ensures d1.fileLength == d2.fileLength
  {
    var head := "[DOCUMENTO] " + d1.fileName + " (" + d1.mimetype + ") - Size: ";
    var s := DocumentLine(d1);
    assert s == head + Digits(d1.fileLength) + " bytes";
    assert s == head + Digits(d2.fileLength) + " bytes";
    assert s[|head|..|s| - 6] == Digits(d1.fileLength);
    assert s[|head|..|s| - 6] == Digits(d2.fileLength);
    DigitsInjective(d1.fileLength, d2.fileLength);
  }

  // ---------------------------------------------------------------------------
  // The variant handlers, over the client's trace.

  method HandleTextMessage(c: Client, e: Event, groupName: string)
    modifies c`trace
    ensures c.trace == old(c.trace)
                       + LogEffects(e.info, groupName, if MessageText(e.message) != "" then Some(MessageText(e.message)) else None)
  {
    var text := if e.message.conversation.Some? then e.message.conversation.value else "";
    if text == "" && e.message.extendedText.Some? {
      text := e.message.extendedText.value.text;
    }
    if text != "" {
      c.LogMessage(e, groupName, text);
    } else {
      assert c.trace == old(c.trace) + [];
    }
  }

  method HandleImageMessage(c: Client, e: Event, groupName: string)
    modifies c`trace
    ensures c.trace == old(c.trace)
                       + LogEffects(e.info, groupName, if e.message.image.Some? then Some(ImageLine(e.message.image.value)) else None)
  {
    if e.message.image.None? {
      assert c.trace == old(c.trace) + [];
      return;
    }
    var image := e.message.image.value;
    var logText := "[IMAGEN] " + image.mimetype;
    if image.caption != "" {
      logText := logText + (" - Caption: " + image.caption);
    }
    assert logText == ImageLine(image);
    c.LogMessage(e, groupName, logText);
  }

  method HandleAudioMessage(c: Client, e: Event, groupName: string)
    modifies c`trace
    ensures c.trace == old(c.trace)
                       + LogEffects(e.info, groupName, if e.message.audio.Some? then Some(AudioLine(e.message.audio.value)) else None)
  {
    if e.message.audio.None? {
      assert c.trace == old(c.trace) + [];
      return;
    }
    var audio := e.message.audio.value;
    var logText := "[AUDIO] " + audio.mimetype + " - Duracion: " + Digits(audio.seconds) + "s";
    c.LogMessage(e, groupName, logText);
  }

  method HandleVideoMessage(c: Client, e: Event, groupName: string)
    modifies c`trace
    ensures c.trace == old(c.trace)
                       + LogEffects(e.info, groupName, if e.message.video.Some? then Some(VideoLine(e.message.video.value)) else None)
  {
    if e.message.video.None? {
      assert c.trace == old(c.trace) + [];
      return;
    }
    var video := e.message.video.value;
    var logText := "[VIDEO] " + video.mimetype + " - Duracion: " + Digits(video.seconds) + "s";
    if video.caption != "" {
      logText := logText + (" - Caption: " + video.caption);
    }
    assert logText == VideoLine(video);
    c.LogMessage(e, groupName, logText);
  }

  method HandleDocumentMessage(c: Client, e: Event, groupName: string)
    modifies c`trace
    ensures c.trace == old(c.trace)
                       + LogEffects(e.info, groupName, if e.message.document.Some? then Some(DocumentLine(e.message.document.value)) else None)
  {
    if e.message.document.None? {
      assert c.trace == old(c.trace) + [];
      return;
    }
    var doc := e.message.document.value;
    var logText := "[DOCUMENTO] " + doc.fileName + " (" + doc.mimetype + ") - Size: " + Digits(doc.fileLength) + " bytes";
    c.LogMessage(e, groupName, logText);
  }

  method ProcessComplexMessage(c: Client, e: Event, lookup: Option<string>)
    modifies c`trace
    ensures c.trace == old(c.trace) + VariantEffects(e, lookup)
  {
    var messageType := GetMessageType(e.message);
    var groupName := c.ResolveGroupName(e, lookup);
    ghost var resolved := c.trace;
    ghost var logs := LogEffects(e.info, groupName, VariantContent(e.message));
    if messageType == TextType {
      HandleTextMessage(c, e, groupName);
    } else if messageType == ImageType {
      HandleImageMessage(c, e, groupName);
    } else if messageType == AudioType {
      HandleAudioMessage(c, e, groupName);
    } else if messageType == VideoType {
      HandleVideoMessage(c, e, groupName);
    } else if messageType == DocumentType {
      HandleDocumentMessage(c, e, groupName);
    } else {
      c.LogMessage(e, groupName, "[" + TypeString(messageType) + "] No soportado");
    }
    assert c.trace == resolved + logs;
  }

  // ---------------------------------------------------------------------------
  // isProcessableTextFile.

  const TextMimeTypes: seq<string> :=
    ["text/plain", "text/csv", "application/json", "text/xml", "application/xml"]

  const TextExtensions: seq<string> :=
    [".txt", ".log", ".csv", ".json", ".xml", ".md"]

  /** The MIME type contains one of the text types. */
  predicate TextMimeType(mimetype: string) {
    exists j :: 0 <= j < |TextMimeTypes| && Contains(mimetype, TextMimeTypes[j])
  }

  /** The extension of the file name, lowered, is one of the text extensions. */
  predicate TextExtension(filename: string) {
    ToLower(Ext(filename)) in TextExtensions
  }

  /** A file is processable text when its MIME type contains one of the text types,
      or when its extension, lowered, is one of the text extensions. */
  predicate ProcessableTextFile(filename: string, mimetype: string) {
    TextMimeType(mimetype) || TextExtension(filename)
  }

  /** A MIME type found among the text types makes the file processable. */
  lemma TextMimeAt(mimetype: string, i: nat)
    requires i < |TextMimeTypes| && Contains(mimetype, TextMimeTypes[i])
    ensures TextMimeType(mimetype)
  {
  }

  /** A MIME type that contains none of the text types is no text type. */
  lemma NoTextMime(mimetype: string)
    requires forall j :: 0 <= j < |TextMimeTypes| ==> !Contains(mimetype, TextMimeTypes[j])
    ensures !TextMimeType(mimetype)
  {
  }

  /** An extension found among the text extensions makes the file processable. */
  lemma TextExtensionAt(filename: string, k: nat)
    requires k < |TextExtensions| && ToLower(Ext(filename)) == TextExtensions[k]
    ensures TextExtension(filename)
  {
  }

  /** An extension that equals none of the text extensions is no text extension. */
  lemma NoTextExtension(filename: string)
    requires forall j :: 0 <= j < |TextExtensions| ==> ToLower(Ext(filename)) != TextExtensions[j]
    ensures !TextExtension(filename)
  {
  }

  /** The first loop of `isProcessableTextFile`: the MIME type is checked against
      each text type in turn. */
  method MatchTextMimeType(mimetype: string) returns (found: bool)
    ensures found == TextMimeType(mimetype)
  {
    var i := 0;
    while i < |TextMimeTypes|
      invariant 0 <= i <= |TextMimeTypes|
      invariant forall j :: 0 <= j < i ==> !Contains(mimetype, TextMimeTypes[j])
    {
      if Contains(mimetype, TextMimeTypes[i]) {
        TextMimeAt(mimetype, i);
        return true;
      }
      i := i + 1;
    }
    NoTextMime(mimetype);
    return false;
  }

  /** The second loop of `isProcessableTextFile`: the lowered extension is compared
      with each text extension in turn. */
  method MatchTextExtension(filename: string) returns (found: bool)
    ensures found == TextExtension(filename)
  {
    var ext := ToLower(Ext(filename));
    var k := 0;
    while k < |TextExtensions|
      invariant 0 <= k <= |TextExtensions|
      invariant forall j :: 0 <= j < k ==> ext != TextExtensions[j]
    {
      if ext == TextExtensions[k] {
        TextExtensionAt(filename, k);
        return true;
      }
      k := k + 1;
    }
    NoTextExtension(filename);
    return false;
  }

  /** `isProcessableTextFile`: the MIME type test first, then the extension test. */
  method IsProcessableTextFile(filename: string, mimetype: string) returns (b: bool)
    ensures b == ProcessableTextFile(filename, mimetype)
  {
    b := MatchTextMimeType(mimetype);
    if b {
      return;
    }
    b := MatchTextExtension(filename);
  }

  /** The extension test ignores case: a file name and its lowered form are judged
      alike. */
  lemma ProcessableIgnoresCase(filename: string, mimetype: string)
    ensures ProcessableTextFile(ToLower(filename), mimetype) == ProcessableTextFile(filename, mimetype)
  {
    ExtToLower(filename);
    ToLowerIdempotent(Ext(filename));
  }

  /** A MIME type that names a text type, with parameters after it or not, makes
      the file processable whatever its name. */
  lemma TextMimeTypeSuffices(filename: string, mimetype: string, mt: string)
    requires mt in TextMimeTypes && mt <= mimetype
    ensures ProcessableTextFile(filename, mimetype)
  {
    assert mt <= mimetype[0..];
    var j :| 0 <= j < |TextMimeTypes| && TextMimeTypes[j] == mt;
    assert Contains(mimetype, TextMimeTypes[j]);
  }

  /** Only the final element of the path counts: a dot in a directory name is not
      an extension. */
  lemma DirectoryDotIgnored()
    ensures !ProcessableTextFile("dir.txt/readme", "")
  {
    DirectoryExt();
    assert forall j :: 0 <= j < |TextMimeTypes| ==> |TextMimeTypes[j]| > 0;
  }

  lemma DirectoryExt()
    ensures Ext("dir.txt/readme") == ""
  {
    assert Ext("dir.txt/") == "";
    assert "dir.txt/r"[..8] == "dir.txt/";
    assert Ext("dir.txt/r") == "";
    assert "dir.txt/re"[..9] == "dir.txt/r";
    assert Ext("dir.txt/re") == "";
    assert "dir.txt/rea"[..10] == "dir.txt/re";
    assert Ext("dir.txt/rea") == "";
    assert "dir.txt/read"[..11] == "dir.txt/rea";
    assert Ext("dir.txt/read") == "";
    assert "dir.txt/readm"[..12] == "dir.txt/read";
    assert Ext("dir.txt/readm") == "";
    assert "dir.txt/readme"[..13] == "dir.txt/readm";
  }

  /** An upper-case extension is recognised. */
  lemma UpperCaseExtension()
    ensures ProcessableTextFile("NOTES.MD", "application/octet-stream")
  {
    NotesExt();
    assert ToLower(".MD") == ".md";
    assert TextExtensions[5] == ".md";
  }

  lemma NotesExt()
    ensures Ext("NOTES.MD") == ".MD"
  {
    assert Ext("NOTES.") == ".";
    assert "NOTES.M"[..6] == "NOTES.";
    assert Ext("NOTES.M") == ".M";
    assert "NOTES.MD"[..7] == "NOTES.M";
  }
}

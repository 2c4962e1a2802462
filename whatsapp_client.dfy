/** Inbound dispatch of internal/whatsapp/client.go: a client that drops its own
    messages, resolves the group name, logs one prefixed line per message or a kind
    tag followed by a per-kind summary, and then calls the registered handler.

    What the client does to the outside world is recorded, in order, in `trace`:
    requests for group information, log lines (their content, without the
    timestamp the logger adds) and calls of the registered handler. */
module WhatsApp {
  import opened Options
  import opened GoStd
  import opened Types

  /** Identity of a registered message handler (the Go function value). */
  type HandlerId = nat

  datatype Effect =
    | GroupLookup(chat: string)
    | Logged(line: string)
    | Callback(handler: HandlerId, msg: Event)

  /** Name used for a group whose information could not be obtained. */
  const UnknownGroup: string := "Grupo desconocido"

  // ---------------------------------------------------------------------------
  // Context and log-line format.

  /** The group name a handler works with: "" for a direct chat, the looked-up
      name, or the fallback when the lookup fails (`lookup` is None). */
  function GroupName(info: EventInfo, lookup: Option<string>): (g: string)
    ensures !info.isGroup ==> g == ""
    ensures info.isGroup && lookup.Some? ==> g == lookup.value
    ensures info.isGroup && lookup.None? ==> g == UnknownGroup
  {
    if !info.isGroup then "" else if lookup.Some? then lookup.value else UnknownGroup
  }

  /** Lookup requests made while resolving the group name: one, for group chats. */
  function LookupEffects(info: EventInfo): seq<Effect> {
    if info.isGroup then [GroupLookup(info.chat)] else []
  }

  /** The context prefix of a log line. */
  function Prefix(info: EventInfo, groupName: string): string {
    if info.isGroup then "WA [GRUPO:" + groupName + "] " else "WA [PRIVADO] "
  }

  /** `logMessage`'s line: the context prefix, the sender's display name, then the
      content. */
  function LogLine(info: EventInfo, groupName: string, content: string): string {
    Prefix(info, groupName) + info.pushName + ": " + content
  }

  /** A log line carries the context prefix of its message: the group prefix with
      the resolved name for group chats, the direct prefix otherwise. */
  predicate Prefixed(info: EventInfo, groupName: string, line: string) {
    && Prefix(info, groupName) <= line
    && ("WA [GRUPO:" <= line <==> info.isGroup)
  }

  /** A log line starts with the group prefix exactly for group chats and with the
      direct prefix exactly for direct chats (so never with both), and ends with the
      content. */
  lemma LogLineShape(info: EventInfo, groupName: string, content: string)
    ensures var line := LogLine(info, groupName, content);
            && Prefixed(info, groupName, line)
            && ("WA [PRIVADO] " <= line <==> !info.isGroup)
            && |line| >= |content| + 2 && line[|line| - |content| - 2..] == ": " + content
  {
    var line := LogLine(info, groupName, content);
    assert line[|line| - |content| - 2..] == ": " + content;
    assert line[4] == if info.isGroup then 'G' else 'P';
  }

  // ---------------------------------------------------------------------------
  // Per-kind summaries. Each optional part is left out when its field is empty or
  // zero.

  function Opt(present: bool, part: string): string {
    if present then part else ""
  }

  function ImageSummary(img: ImageMessage): string {
    "[IMAGEN]"
    + Opt(img.mimetype != "", " (" + img.mimetype + ")")
    + Opt(img.caption != "", " - Caption: " + img.caption)
  }

  function AudioSummary(audio: AudioMessage): string {
    "[AUDIO]"
    + Opt(audio.mimetype != "", " (" + audio.mimetype + ")")
    + Opt(audio.seconds > 0, " - " + Digits(audio.seconds) + "s")
  }

  function VideoSummary(video: VideoMessage): string {
    "[VIDEO]"
    + Opt(video.mimetype != "", " (" + video.mimetype + ")")
    + Opt(video.seconds > 0, " - " + Digits(video.seconds) + "s")
    + Opt(video.caption != "", " - Caption: " + video.caption)
  }

  function DocumentSummary(doc: DocumentMessage): string {
    "[DOCUMENTO]"
    + Opt(doc.fileName != "", " " + doc.fileName)
    + Opt(doc.mimetype != "", " (" + doc.mimetype + ")")
    + Opt(doc.fileLength > 0, " - " + Digits(doc.fileLength) + " bytes")
  }

  /** A summary is its bare tag exactly when every optional field is empty or zero. */
  lemma SummariesOmitAbsentParts(img: ImageMessage, audio: AudioMessage, video: VideoMessage, doc: DocumentMessage)
    ensures ImageSummary(img) == "[IMAGEN]" <==> img.mimetype == "" && img.caption == ""
    ensures AudioSummary(audio) == "[AUDIO]" <==> audio.mimetype == "" && audio.seconds == 0
    ensures VideoSummary(video) == "[VIDEO]" <==> video.mimetype == "" && video.seconds == 0 && video.caption == ""
    ensures DocumentSummary(doc) == "[DOCUMENTO]" <==> doc.fileName == "" && doc.mimetype == "" && doc.fileLength == 0
  {
    assert |ImageSummary(img)| == 8 + |Opt(img.mimetype != "", " (" + img.mimetype + ")")|
                                    + |Opt(img.caption != "", " - Caption: " + img.caption)|;
    assert |AudioSummary(audio)| == 7 + |Opt(audio.mimetype != "", " (" + audio.mimetype + ")")|
                                      + |Opt(audio.seconds > 0, " - " + Digits(audio.seconds) + "s")|;
    assert |VideoSummary(video)| == 7 + |Opt(video.mimetype != "", " (" + video.mimetype + ")")|
                                      + |Opt(video.seconds > 0, " - " + Digits(video.seconds) + "s")|
                                      + |Opt(video.caption != "", " - Caption: " + video.caption)|;
    assert |DocumentSummary(doc)| == 11 + |Opt(doc.fileName != "", " " + doc.fileName)|
                                        + |Opt(doc.mimetype != "", " (" + doc.mimetype + ")")|
                                        + |Opt(doc.fileLength > 0, " - " + Digits(doc.fileLength) + " bytes")|;
  }

  /** The audio summary ends in a seconds suffix exactly when the duration is
      positive: a zero duration never shows as "0s". */
  lemma AudioDurationShownIffPositive(audio: AudioMessage)
    ensures var s := AudioSummary(audio); s[|s| - 1] == 's' <==> audio.seconds > 0
  {
    var s := AudioSummary(audio);
    var mime := Opt(audio.mimetype != "", " (" + audio.mimetype + ")");
    var head := "[AUDIO]" + mime;
    if audio.seconds > 0 {
      var tail := " - " + Digits(audio.seconds) + "s";
      assert s == head + tail;
      LastOfConcat(head, tail);
    } else {
      assert s == head + "";
      if audio.mimetype == "" {
        assert head == "[AUDIO]";
      } else {
        LastOfConcat("[AUDIO]", mime);
      }
    }
  }

  /** Helper: the last character of a concatenation is that of its second part. */
  lemma LastOfConcat(a: string, b: string)
    requires b != []
    ensures (a + b)[|a + b| - 1] == b[|b| - 1]
  {
  }

  /** With every field set, the document summary is the full template. */
  lemma DocumentSummaryFull(doc: DocumentMessage)
    requires doc.fileName != "" && doc.mimetype != "" && doc.fileLength > 0
    ensures DocumentSummary(doc)
            == "[DOCUMENTO] " + doc.fileName + " (" + doc.mimetype + ") - " + Digits(doc.fileLength) + " bytes"
  {
  }

  lemma DocumentExampleText(size: string)
    requires size == "2048"
    ensures "[DOCUMENTO] " + "report.pdf" + " (" + "application/pdf" + ") - " + size + " bytes"
            == "[DOCUMENTO] report.pdf (application/pdf) - 2048 bytes"
  {
  }

  /** The summary of a document with every field set. */
  lemma DocumentSummaryExample()
    ensures DocumentSummary(DocumentMessage("report.pdf", "application/pdf", 2048))
            == "[DOCUMENTO] report.pdf (application/pdf) - 2048 bytes"
  {
    DigitsExamples();
    DocumentSummaryFull(DocumentMessage("report.pdf", "application/pdf", 2048));
    DocumentExampleText(Digits(2048));
  }

  /** The summary of an audio note without duration has no seconds part. */
  lemma AudioSummaryExample()
    ensures AudioSummary(AudioMessage("audio/ogg", 0)) == "[AUDIO] (audio/ogg)"
  {
  }

  /** With every field set, the video summary lists mimetype, duration and caption,
      in that order. */
  lemma VideoSummaryFull(video: VideoMessage)
    requires video.caption != "" && video.mimetype != "" && video.seconds > 0
    ensures VideoSummary(video)
            == "[VIDEO] (" + video.mimetype + ") - " + Digits(video.seconds) + "s - Caption: " + video.caption
  {
  }

  // ---------------------------------------------------------------------------
  // processComplexMessage and handleMessage, as the effects they produce.

  /** The content `processComplexMessage` logs for a message: the media summary for
      the four media kinds (whose payload the classifier guarantees), a fixed tag for
      sticker, contact and location, and "[<label>] No soportado" otherwise, Text
      included. */
  function ComplexContent(m: Message): (content: string)
    ensures |content| > 1 && content[0] == '['
  {
    var kind := GetMessageType(m);
    if kind == ImageType then ImageSummary(m.image.value)
    else if kind == AudioType then AudioSummary(m.audio.value)
    else if kind == VideoType then VideoSummary(m.video.value)
    else if kind == DocumentType then DocumentSummary(m.document.value)
    else if kind == StickerType then "[STICKER]"
    else if kind == ContactType then "[CONTACTO]"
    else if kind == LocationType then "[UBICACIÓN]"
    else "[" + TypeString(kind) + "] No soportado"
  }

  /** The routing of `processComplexMessage` for the media kinds: each logs its own
      summary. */
  lemma MediaRouting(m: Message)
    ensures var kind, content := GetMessageType(m), ComplexContent(m);
            && (kind == ImageType ==> content == ImageSummary(m.image.value))
            && (kind == AudioType ==> content == AudioSummary(m.audio.value))
            && (kind == VideoType ==> content == VideoSummary(m.video.value))
            && (kind == DocumentType ==> content == DocumentSummary(m.document.value))
  {
    var kind, content := GetMessageType(m), ComplexContent(m);
    if kind == ImageType {
      assert content == ImageSummary(m.image.value);
    } else if kind == AudioType {
      assert content == AudioSummary(m.audio.value);
    } else if kind == VideoType {
      assert content == VideoSummary(m.video.value);
    } else if kind == DocumentType {
      assert content == DocumentSummary(m.document.value);
    }
  }

  /** The routing of `processComplexMessage` for the other kinds: stickers, contacts
      and locations log their fixed tags, and Text and Unknown (the switch's default
      branch) "[<label>] No soportado". */
  lemma TagRouting(m: Message)
    ensures var kind, content := GetMessageType(m), ComplexContent(m);
            && (kind == StickerType ==> content == "[STICKER]")
            && (kind == ContactType ==> content == "[CONTACTO]")
            && (kind == LocationType ==> content == "[UBICACIÓN]")
            && (kind == TextType ==> content == "[text] No soportado")
            && (kind == UnknownType ==> content == "[unknown] No soportado")
  {
    var kind, content := GetMessageType(m), ComplexContent(m);
    if kind == TextType {
      assert content == "[" + TypeString(TextType) + "] No soportado";
      assert TypeString(TextType) == "text";
      assert "[" + "text" + "] No soportado" == "[text] No soportado";
    } else if kind == UnknownType {
      assert content == "[" + TypeString(UnknownType) + "] No soportado";
      assert TypeString(UnknownType) == "unknown";
      assert "[" + "unknown" + "] No soportado" == "[unknown] No soportado";
    }
  }

  /** Effects of `processComplexMessage`: it resolves the group name again and logs
      exactly one line. */
  function ProcessEffects(e: Event, lookup: Option<string>): seq<Effect> {
    LookupEffects(e.info)
    + [Logged(LogLine(e.info, GroupName(e.info, lookup), ComplexContent(e.message)))]
  }

  /** What `handleMessage` logs first: the text when there is one, else the tag of
      the message's kind. */
  function FirstContent(m: Message): string {
    if MessageText(m) != "" then MessageText(m) else "[" + TypeString(GetMessageType(m)) + "]"
  }

  /** Whether `handleMessage` goes on to `processComplexMessage`: no text, and a
      kind other than Unknown. */
  predicate NeedsSummary(m: Message) {
    MessageText(m) == "" && GetMessageType(m) != UnknownType
  }

  /** Effects of `handleMessage` between the group-name resolution and the call of
      the registered handler. */
  function BodyEffects(e: Event, lookup: Option<string>): seq<Effect> {
    [Logged(LogLine(e.info, GroupName(e.info, lookup), FirstContent(e.message)))]
    + (if NeedsSummary(e.message) then ProcessEffects(e, lookup) else [])
  }

  function CallbackEffects(e: Event, handler: Option<HandlerId>): seq<Effect> {
    if handler.Some? then [Callback(handler.value, e)] else []
  }

  /** Effects of `handleMessage` for a client whose registered handler is `handler`:
      nothing for a message of its own; otherwise the group-name resolution, the
      logging, and the handler call, in that order. */
  function HandleEffects(e: Event, lookup: Option<string>, handler: Option<HandlerId>): seq<Effect> {
    if e.info.isFromMe then []
    else LookupEffects(e.info) + BodyEffects(e, lookup) + CallbackEffects(e, handler)
  }

  // ---------------------------------------------------------------------------
  // Views of a trace.

  function Lines(effects: seq<Effect>): (lines: seq<string>)
    ensures |lines| <= |effects|
    decreases |effects|
  {
    if effects == [] then []
    else (if effects[0].Logged? then [effects[0].line] else []) + Lines(effects[1..])
  }

  function Lookups(effects: seq<Effect>): seq<string>
    decreases |effects|
  {
    if effects == [] then []
    else (if effects[0].GroupLookup? then [effects[0].chat] else []) + Lookups(effects[1..])
  }

  function Callbacks(effects: seq<Effect>): seq<Effect>
    decreases |effects|
  {
    if effects == [] then []
    else (if effects[0].Callback? then [effects[0]] else []) + Callbacks(effects[1..])
  }

  lemma {:induction false} ViewsAppend(a: seq<Effect>, b: seq<Effect>)
    ensures Lines(a + b) == Lines(a) + Lines(b)
    ensures Lookups(a + b) == Lookups(a) + Lookups(b)
    ensures Callbacks(a + b) == Callbacks(a) + Callbacks(b)
    decreases |a|
  {
    if a != [] {
      assert (a + b)[1..] == a[1..] + b;
      ViewsAppend(a[1..], b);
    } else {
      assert a + b == b;
    }
  }

  lemma Associate(a: seq<Effect>, b: seq<Effect>, c: seq<Effect>, d: seq<Effect>)
    ensures a + b + c + d == a + (b + c + d)
    ensures a + b + c == a + (b + c)
  {
  }

  lemma ViewsOfOne(x: Effect)
    ensures Lines([x]) == (if x.Logged? then [x.line] else [])
    ensures Lookups([x]) == (if x.GroupLookup? then [x.chat] else [])
    ensures Callbacks([x]) == (if x.Callback? then [x] else [])
  {
    assert [x][1..] == [];
  }

  lemma LookupViews(info: EventInfo)
    ensures Lines(LookupEffects(info)) == [] && Callbacks(LookupEffects(info)) == []
    ensures Lookups(LookupEffects(info)) == if info.isGroup then [info.chat] else []
  {
    if info.isGroup { ViewsOfOne(GroupLookup(info.chat)); }
  }

  lemma ProcessViews(e: Event, lookup: Option<string>)
    ensures Lines(ProcessEffects(e, lookup)) == [LogLine(e.info, GroupName(e.info, lookup), ComplexContent(e.message))]
    ensures Lookups(ProcessEffects(e, lookup)) == Lookups(LookupEffects(e.info))
    ensures Callbacks(ProcessEffects(e, lookup)) == []
  {
    var line := Logged(LogLine(e.info, GroupName(e.info, lookup), ComplexContent(e.message)));
    ViewsAppend(LookupEffects(e.info), [line]);
    ViewsOfOne(line);
    LookupViews(e.info);
  }

  lemma BodyViews(e: Event, lookup: Option<string>)
    ensures var g := GroupName(e.info, lookup);
            Lines(BodyEffects(e, lookup))
            == [LogLine(e.info, g, FirstContent(e.message))]
               + (if NeedsSummary(e.message) then [LogLine(e.info, g, ComplexContent(e.message))] else [])
    ensures Lookups(BodyEffects(e, lookup))
            == if NeedsSummary(e.message) then Lookups(LookupEffects(e.info)) else []
    ensures Callbacks(BodyEffects(e, lookup)) == []
  {
    var first := Logged(LogLine(e.info, GroupName(e.info, lookup), FirstContent(e.message)));
    var rest: seq<Effect> := if NeedsSummary(e.message) then ProcessEffects(e, lookup) else [];
    ViewsAppend([first], rest);
    ViewsOfOne(first);
    if NeedsSummary(e.message) { ProcessViews(e, lookup); }
  }

  lemma CallbackViews(e: Event, handler: Option<HandlerId>)
    ensures Lines(CallbackEffects(e, handler)) == [] && Lookups(CallbackEffects(e, handler)) == []
    ensures Callbacks(CallbackEffects(e, handler)) == CallbackEffects(e, handler)
  {
    if handler.Some? { ViewsOfOne(Callback(handler.value, e)); }
  }

  lemma HandleViews(e: Event, lookup: Option<string>, handler: Option<HandlerId>)
    requires !e.info.isFromMe
    ensures Lines(HandleEffects(e, lookup, handler)) == Lines(BodyEffects(e, lookup))
    ensures Lookups(HandleEffects(e, lookup, handler))
            == Lookups(LookupEffects(e.info)) + Lookups(BodyEffects(e, lookup))
    ensures Callbacks(HandleEffects(e, lookup, handler)) == CallbackEffects(e, handler)
  {
    var pre, body, cb := LookupEffects(e.info), BodyEffects(e, lookup), CallbackEffects(e, handler);
    LookupViews(e.info);
    BodyViews(e, lookup);
    CallbackViews(e, handler);
    ViewsOfStages(pre, body, cb);
  }

  /** Helper: the views of three stages, lookups, then a body that calls no handler,
      then handler calls only. */
  lemma ViewsOfStages(pre: seq<Effect>, body: seq<Effect>, cb: seq<Effect>)
    requires Lines(pre) == [] && Callbacks(pre) == []
    requires Callbacks(body) == []
    requires Lines(cb) == [] && Lookups(cb) == []
    ensures Lines(pre + body + cb) == Lines(body)
    ensures Lookups(pre + body + cb) == Lookups(pre) + Lookups(body)
    ensures Callbacks(pre + body + cb) == Callbacks(cb)
  {
    ViewsAppend(pre + body, cb);
    ViewsAppend(pre, body);
  }

  // ---------------------------------------------------------------------------
  // Properties of handleMessage.

  /** A message sent by this account produces nothing: no lookup, no log line, no
      handler call. */
  lemma SelfMessageSilent(e: Event, lookup: Option<string>, handler: Option<HandlerId>)
    requires e.info.isFromMe
    ensures HandleEffects(e, lookup, handler) == []
  {
  }

  /** The lines `handleMessage` logs: the text line alone when the text is non-empty;
      otherwise the kind tag, followed by the summary line unless the kind is
      Unknown. */
  lemma HandleLines(e: Event, lookup: Option<string>, handler: Option<HandlerId>)
    requires !e.info.isFromMe
    ensures var lines := Lines(HandleEffects(e, lookup, handler));
            var g := GroupName(e.info, lookup);
            var kind := GetMessageType(e.message);
            if MessageText(e.message) != "" then
              lines == [LogLine(e.info, g, MessageText(e.message))]
            else
              && |lines| == (if kind == UnknownType then 1 else 2)
              && lines[0] == LogLine(e.info, g, "[" + TypeString(kind) + "]")
              && (kind != UnknownType ==> lines[1] == LogLine(e.info, g, ComplexContent(e.message)))
  {
    HandleViews(e, lookup, handler);
    BodyViews(e, lookup);
    var m := e.message;
    var g := GroupName(e.info, lookup);
    var lines := Lines(HandleEffects(e, lookup, handler));
    var first := LogLine(e.info, g, FirstContent(m));
    if NeedsSummary(m) {
      assert lines == [first] + [LogLine(e.info, g, ComplexContent(m))];
    } else {
      assert lines == [first] + [];
    }
  }

  /** A conversation that is present but empty: the classifier says Text, yet there
      is no text, so `handleMessage` logs the "[text]" tag and then the summary step's
      "[text] No soportado". */
  lemma EmptyConversationLogged(e: Event, lookup: Option<string>, handler: Option<HandlerId>)
    requires !e.info.isFromMe
    requires e.message.conversation == Some("")
    requires e.message.extendedText.None? || e.message.extendedText.value.text == ""
    ensures var g := GroupName(e.info, lookup);
            Lines(HandleEffects(e, lookup, handler))
            == [LogLine(e.info, g, "[text]"), LogLine(e.info, g, "[text] No soportado")]
  {
    var m := e.message;
    var g := GroupName(e.info, lookup);
    assert GetMessageType(m) == TextType && MessageText(m) == "";
    assert NeedsSummary(m);
    assert FirstContent(m) == "[text]" by {
      assert TypeString(TextType) == "text";
      assert "[" + "text" + "]" == "[text]";
    }
    assert ComplexContent(m) == "[text] No soportado" by {
      TagRouting(m);
    }
    HandleViews(e, lookup, handler);
    BodyViews(e, lookup);
  }

  /** Both lines of the body carry the context prefix. */
  lemma BodyLinesPrefixed(e: Event, lookup: Option<string>)
    ensures forall line <- Lines(BodyEffects(e, lookup)) ::
              Prefixed(e.info, GroupName(e.info, lookup), line)
  {
    BodyViews(e, lookup);
    PairPrefixed(e.info, GroupName(e.info, lookup), FirstContent(e.message), ComplexContent(e.message),
                 NeedsSummary(e.message));
  }

  /** Helper: one log line, or two, of the same message carry its prefix. */
  lemma PairPrefixed(info: EventInfo, groupName: string, first: string, second: string, both: bool)
    ensures forall line <- [LogLine(info, groupName, first)]
                           + (if both then [LogLine(info, groupName, second)] else []) ::
              Prefixed(info, groupName, line)
  {
    LogLineShape(info, groupName, first);
    LogLineShape(info, groupName, second);
  }

  /** Every line `handleMessage` logs carries the context prefix of its message. */
  lemma HandleLinesPrefixed(e: Event, lookup: Option<string>, handler: Option<HandlerId>)
    ensures forall line <- Lines(HandleEffects(e, lookup, handler)) ::
              Prefixed(e.info, GroupName(e.info, lookup), line)
  {
    if !e.info.isFromMe {
      HandleViews(e, lookup, handler);
      BodyLinesPrefixed(e, lookup);
    }
  }

  /** The registered handler is called exactly once per message from someone else,
      as the very last effect; without a registered handler nothing is called. */
  lemma CallbackOnceAfterLogging(e: Event, lookup: Option<string>, handler: Option<HandlerId>)
    ensures var effects := HandleEffects(e, lookup, handler);
            && |Callbacks(effects)| == (if !e.info.isFromMe && handler.Some? then 1 else 0)
            && (!e.info.isFromMe && handler.Some? ==> effects[|effects| - 1] == Callback(handler.value, e))
  {
    if !e.info.isFromMe {
      HandleViews(e, lookup, handler);
    }
  }

  /** Group information is requested only for group chats, and before anything is
      logged: once, or twice when the summary step resolves the name again. */
  lemma LookupsOnlyForGroups(e: Event, lookup: Option<string>, handler: Option<HandlerId>)
    ensures var effects := HandleEffects(e, lookup, handler);
            && (e.info.isFromMe || !e.info.isGroup ==> Lookups(effects) == [])
            && (!e.info.isFromMe && e.info.isGroup ==>
                  && effects[0] == GroupLookup(e.info.chat)
                  && Lookups(effects) == if NeedsSummary(e.message)
                                         then [e.info.chat, e.info.chat] else [e.info.chat])
  {
    if !e.info.isFromMe {
      HandleViews(e, lookup, handler);
      BodyViews(e, lookup);
      LookupViews(e.info);
      if e.info.isGroup {
        GroupStages(e.info.chat, BodyEffects(e, lookup), CallbackEffects(e, handler), NeedsSummary(e.message));
      } else {
        assert Lookups(HandleEffects(e, lookup, handler)) == [] + [];
      }
    }
  }

  /** Helper: a group chat's effects start with its lookup, and the lookups of the
      summary step follow the first. */
  lemma GroupStages(chat: string, body: seq<Effect>, cb: seq<Effect>, twice: bool)
    ensures ([GroupLookup(chat)] + body + cb)[0] == GroupLookup(chat)
    ensures [chat] + (if twice then [chat] else []) == if twice then [chat, chat] else [chat]
  {
  }

  lemma TextLineText(info: EventInfo, groupName: string, expected: string)
    requires info.pushName == "Ana"
    requires if info.isGroup then groupName == UnknownGroup && expected == "WA [GRUPO:Grupo desconocido] Ana: hola"
             else expected == "WA [PRIVADO] Ana: hola"
    ensures LogLine(info, groupName, "hola") == expected
  {
    if info.isGroup {
      assert Prefix(info, groupName) == "WA [GRUPO:Grupo desconocido] ";
      assert "WA [GRUPO:Grupo desconocido] " + "Ana" == "WA [GRUPO:Grupo desconocido] Ana";
      assert "WA [GRUPO:Grupo desconocido] Ana" + ": " + "hola" == expected;
    } else {
      assert Prefix(info, groupName) == "WA [PRIVADO] ";
      assert "WA [PRIVADO] " + "Ana" == "WA [PRIVADO] Ana";
      assert "WA [PRIVADO] Ana" + ": " + "hola" == expected;
    }
  }

  /** A direct text "hola" from "Ana", and the same text in a group whose lookup
      failed. */
  lemma TextScenarios(direct: Event, group: Event)
    requires direct.info.pushName == "Ana" && !direct.info.isGroup && !direct.info.isFromMe
    requires direct.message.conversation == Some("hola")
    requires group.info.pushName == "Ana" && group.info.isGroup && !group.info.isFromMe
    requires group.message.conversation == Some("hola")
    ensures Lines(HandleEffects(direct, None, None)) == ["WA [PRIVADO] Ana: hola"]
    ensures Lines(HandleEffects(group, None, None)) == ["WA [GRUPO:Grupo desconocido] Ana: hola"]
  {
    HandleLines(direct, None, None);
    TextLineText(direct.info, "", "WA [PRIVADO] Ana: hola");
    HandleLines(group, None, None);
    TextLineText(group.info, UnknownGroup, "WA [GRUPO:Grupo desconocido] Ana: hola");
  }

  // ---------------------------------------------------------------------------
  // The client.

  class Client {
    var messageHandler: Option<HandlerId>
    var trace: seq<Effect>

    constructor ()
      ensures messageHandler == None && trace == []
    {
      messageHandler := None;
      trace := [];
    }

    /** `SetMessageHandler`: replaces the registered handler (None unregisters). */
    method SetMessageHandler(handler: Option<HandlerId>)
      modifies this`messageHandler
      ensures messageHandler == handler
    {
      messageHandler := handler;
    }

    /** The group-name resolution at the head of `handleMessage` and of
        `processComplexMessage`; it never fails. */
    method ResolveGroupName(e: Event, lookup: Option<string>) returns (groupName: string)
      modifies this`trace
      ensures groupName == GroupName(e.info, lookup)
      ensures e.info.isGroup && lookup.Some? ==> groupName == lookup.value
      ensures trace == old(trace) + LookupEffects(e.info)
    {
      groupName := "";
      if e.info.isGroup {
        trace := trace + [GroupLookup(e.info.chat)];
        if lookup.Some? {
          groupName := lookup.value;
        } else {
          groupName := UnknownGroup;
        }
      }
    }

    method LogMessage(e: Event, groupName: string, content: string)
      modifies this`trace
      ensures trace == old(trace) + [Logged(LogLine(e.info, groupName, content))]
    {
      var line: string;
      if e.info.isGroup {
        line := "WA [GRUPO:" + groupName + "] " + e.info.pushName + ": " + content;
      } else {
        line := "WA [PRIVADO] " + e.info.pushName + ": " + content;
      }
      trace := trace + [Logged(line)];
    }

    method HandleImageMessage(e: Event, groupName: string)
      modifies this`trace
      ensures trace == old(trace) + if e.message.image.None? then []
                                    else [Logged(LogLine(e.info, groupName, ImageSummary(e.message.image.value)))]
    {
      if e.message.image.None? {
        assert trace == old(trace) + [];
        return;
      }
      var image := e.message.image.value;
      var logText := "[IMAGEN]";
      if image.mimetype != "" {
        logText := logText + (" (" + image.mimetype + ")");
      }
      if image.caption != "" {
        logText := logText + (" - Caption: " + image.caption);
      }
      assert logText == ImageSummary(image);
      LogMessage(e, groupName, logText);
    }

    method HandleAudioMessage(e: Event, groupName: string)
      modifies this`trace
      ensures trace == old(trace) + if e.message.audio.None? then []
                                    else [Logged(LogLine(e.info, groupName, AudioSummary(e.message.audio.value)))]
    {
      if e.message.audio.None? {
        assert trace == old(trace) + [];
        return;
      }
      var audio := e.message.audio.value;
      var logText := "[AUDIO]";
      if audio.mimetype != "" {
        logText := logText + (" (" + audio.mimetype + ")");
      }
      if audio.seconds > 0 {
        logText := logText + (" - " + Digits(audio.seconds) + "s");
      }
      assert logText == AudioSummary(audio);
      LogMessage(e, groupName, logText);
    }

    method HandleVideoMessage(e: Event, groupName: string)
      modifies this`trace
      ensures trace == old(trace) + if e.message.video.None? then []
                                    else [Logged(LogLine(e.info, groupName, VideoSummary(e.message.video.value)))]
    {
      if e.message.video.None? {
        assert trace == old(trace) + [];
        return;
      }
      var video := e.message.video.value;
      var logText := "[VIDEO]";
      if video.mimetype != "" {
        logText := logText + (" (" + video.mimetype + ")");
      }
      if video.seconds > 0 {
        logText := logText + (" - " + Digits(video.seconds) + "s");
      }
      if video.caption != "" {
        logText := logText + (" - Caption: " + video.caption);
      }
      assert logText == VideoSummary(video);
      LogMessage(e, groupName, logText);
    }

    method HandleDocumentMessage(e: Event, groupName: string)
      modifies this`trace
      ensures trace == old(trace) + if e.message.document.None? then []
                                    else [Logged(LogLine(e.info, groupName, DocumentSummary(e.message.document.value)))]
    {
      if e.message.document.None? {
        assert trace == old(trace) + [];
        return;
      }
      var doc := e.message.document.value;
      var logText := "[DOCUMENTO]";
      if doc.fileName != "" {
        logText := logText + (" " + doc.fileName);
      }
      if doc.mimetype != "" {
        logText := logText + (" (" + doc.mimetype + ")");
      }
      if doc.fileLength > 0 {
        logText := logText + (" - " + Digits(doc.fileLength) + " bytes");
      }
      assert logText == DocumentSummary(doc);
      LogMessage(e, groupName, logText);
    }

    method ProcessComplexMessage(e: Event, lookup: Option<string>)
      modifies this`trace
      ensures trace == old(trace) + ProcessEffects(e, lookup)
    {
      var messageType := GetMessageType(e.message);
      var groupName := ResolveGroupName(e, lookup);
      ghost var content := ComplexContent(e.message);
      ghost var resolved := trace;
      if messageType == ImageType {
        assert content == ImageSummary(e.message.image.value);
        HandleImageMessage(e, groupName);
      } else if messageType == AudioType {
        assert content == AudioSummary(e.message.audio.value);
        HandleAudioMessage(e, groupName);
      } else if messageType == VideoType {
        assert content == VideoSummary(e.message.video.value);
        HandleVideoMessage(e, groupName);
      } else if messageType == DocumentType {
        assert content == DocumentSummary(e.message.document.value);
        HandleDocumentMessage(e, groupName);
      } else if messageType == StickerType {
        LogMessage(e, groupName, "[STICKER]");
      } else if messageType == ContactType {
        LogMessage(e, groupName, "[CONTACTO]");
      } else if messageType == LocationType {
        LogMessage(e, groupName, "[UBICACIÓN]");
      } else {
        LogMessage(e, groupName, "[" + TypeString(messageType) + "] No soportado");
      }
      assert trace == resolved + [Logged(LogLine(e.info, groupName, content))];
      Associate(old(trace), LookupEffects(e.info), [Logged(LogLine(e.info, groupName, content))], []);
    }

    method HandleMessage(e: Event, lookup: Option<string>)
      modifies this`trace
      ensures trace == old(trace) + HandleEffects(e, lookup, messageHandler)
    {
      if e.info.isFromMe {
        assert trace == old(trace) + [];
        return;
      }
      var groupName := ResolveGroupName(e, lookup);
      ghost var resolved := trace;
      var text := MessageText(e.message);
      if text != "" {
        LogMessage(e, groupName, text);
        assert trace == resolved + BodyEffects(e, lookup);
      } else {
        var messageType := GetMessageType(e.message);
        assert FirstContent(e.message) == "[" + TypeString(messageType) + "]";
        LogMessage(e, groupName, "[" + TypeString(messageType) + "]");
        ghost var logged := trace;
        if messageType != UnknownType {
          ProcessComplexMessage(e, lookup);
        }
        assert trace == logged + (if NeedsSummary(e.message) then ProcessEffects(e, lookup) else []);
        assert trace == resolved + BodyEffects(e, lookup);
      }
      ghost var body := trace;
      if messageHandler.Some? {
        trace := trace + [Callback(messageHandler.value, e)];
      }
      assert trace == body + CallbackEffects(e, messageHandler);
      Associate(old(trace), LookupEffects(e.info), BodyEffects(e, lookup), CallbackEffects(e, messageHandler));
    }
  }
}

# Lisa WhatsApp core, modelled in Dafny

Lisa is a bot that listens to a WhatsApp account. This project models its core:

- the message model of `pkg/types/whatsapp.go`: message kinds, their labels, the classifier that picks a kind from whichever payload is present, and the normalised records built from an incoming event;
- the message handling of `internal/whatsapp/client.go`: what `handleMessage` logs for an event and in what order, how it resolves group names, the per-kind summaries, and the call to the registered handler;
- the alternative handlers of `internal/whatsapp/handlers.go`, which format and route differently, and its `isProcessableTextFile`;
- the configuration of `internal/config/config.go`: reading settings from the environment with defaults, building the PostgreSQL URI, and validating the required secrets.

Modules:

- `Options` (`options.dfy`): Option and Result.
- `GoStd` (`gostd.dfy`): the parts of Go's standard library whose exact behaviour shows in the output. These are `%d`, `strconv.Atoi` with 64-bit clamping, `strings.Join`, `strings.Contains`, `strings.ToLower` and `filepath.Ext`.
- `Types` (`types.dfy`): `pkg/types/whatsapp.go`. `MessageType` and `MessagePriority` are integer newtypes with named constants, as Go's `iota` types are, so the `default` branches of their `String` methods are reachable.
- `WhatsApp` (`whatsapp_client.dfy`): `client.go`, as a class `Client`.
  - The class has the registered handler field.
  - Its `trace` field is the sequence of effects handling produces. Each effect is a group lookup, a logged line or a handler call.
  - Every method is proved to append exactly the effects a specification function gives. Lemmas state the properties of those functions.
- `Handlers` (`handlers.dfy`): `handlers.go`.
  - Its handlers are methods over the same `WhatsApp.Client` and trace. They log through the same `logMessage`.
  - The two loops of `isProcessableTextFile` are the methods `MatchTextMimeType` and `MatchTextExtension`, which `IsProcessableTextFile` runs in the same order, returning at the first match.
  - `handlers.go` redeclares methods that `client.go` already declares on the same type, so the two files cannot build together. Each is modelled as written, in its own module.
- `Config` (`config.dfy`): `config.go`. `Load` and `Validate` are methods that build their results step by step. Each is proved equal to a specification function.

The code logs Spanish text: `WA [GRUPO:<name>]`, `WA [PRIVADO]`, `Grupo desconocido`, `[IMAGEN]`, `[DOCUMENTO]`, `No soportado`, and the configuration errors. The model uses the same text. A video summary lists the MIME type, then the duration, then the caption (`client.go:231-240`).

## Model

| member | source | states |
|---|---|---|
| Types.TypeString | pkg/types/whatsapp.go:75-96 | each kind from Text to Location has its own label from the table; "unknown" exactly for Unknown and for every value out of range |
| Types.TypeStringInjective | pkg/types/whatsapp.go:75-96 | distinct kinds have distinct labels |
| Types.PriorityString | pkg/types/whatsapp.go:108-121 | "low" exactly for Low, "critical" exactly for Critical, "normal" for Normal and for every value outside the four |
| Types.PriorityOrder | pkg/types/whatsapp.go:99-106 | Low < Normal < High < Critical, and the four labels are distinct |
| Types.GetMessageType | pkg/types/whatsapp.go:151-174 | total; Text exactly when a conversation or extended text is present; every other kind only when its payload is present; Unknown exactly when no payload is present |
| Types.ClassifierIsFirstPresent | pkg/types/whatsapp.go:151-174 | the classifier equals an independent reference: the kind of the first present payload in the order conversation, extended text, image, document, audio, video, sticker, contact, location, else Unknown |
| Types.FirstPresentAt | pkg/types/whatsapp.go:152-170 | the reference returns the kind at the first set flag |
| Types.FirstPresentNone | pkg/types/whatsapp.go:171-172 | the reference returns Unknown when no flag is set |
| Types.ExactlyOnePayload | pkg/types/whatsapp.go:151-174 | a message with exactly one payload is classified as that payload's kind |
| Types.MessageText | pkg/types/whatsapp.go:126-129 | a non-empty conversation wins; otherwise the extended text, when present; the text is empty exactly when neither gives a non-empty string; a non-empty text implies kind Text |
| Types.NewMessageInfoFromEvent | pkg/types/whatsapp.go:125-140 | id, sender name, timestamp and flags are copied; the chat becomes the sender; the text is the message text; recipient and group name stay empty |
| Types.NewWhatsAppMessageFromEvent | pkg/types/whatsapp.go:142-148 | the info is the normalised record, it needs processing, it is stamped with the given time, and every other field has its zero value (so its kind reads as "text") |
| WhatsApp.GroupName | internal/whatsapp/client.go:95-103 | empty for direct chats; the lookup's name for groups; "Grupo desconocido" when the lookup fails |
| WhatsApp.LogLineShape | internal/whatsapp/client.go:271-277 | a line starts with the group prefix exactly for group chats and with the direct prefix exactly for direct chats, and ends with ": " and the content |
| WhatsApp.SummariesOmitAbsentParts | internal/whatsapp/client.go:178-269 | a summary is the bare tag exactly when every optional field is empty or zero |
| WhatsApp.AudioDurationShownIffPositive | internal/whatsapp/client.go:209-215 | the audio summary ends with the seconds suffix exactly when the duration is positive |
| WhatsApp.DocumentSummaryFull | internal/whatsapp/client.go:256-265 | with every field set, the document summary is "[DOCUMENTO] name (mime) - n bytes" |
| WhatsApp.DocumentSummaryExample | internal/whatsapp/client.go:256-265 | a 2048-byte report.pdf is summarised as "[DOCUMENTO] report.pdf (application/pdf) - 2048 bytes" |
| WhatsApp.AudioSummaryExample | internal/whatsapp/client.go:209-215 | a zero-second audio/ogg note is summarised as "[AUDIO] (audio/ogg)", with no duration |
| WhatsApp.VideoSummaryFull | internal/whatsapp/client.go:231-240 | with every field set, the video summary is mime, then duration, then caption |
| WhatsApp.ComplexContent | internal/whatsapp/client.go:158-175 | what processComplexMessage logs is never empty and starts with '[' |
| WhatsApp.MediaRouting | internal/whatsapp/client.go:158-166 | image, audio, video and document messages log their own summaries |
| WhatsApp.TagRouting | internal/whatsapp/client.go:158-175 | sticker, contact and location log "[STICKER]", "[CONTACTO]" and "[UBICACIÓN]"; Text and Unknown fall to the default branch and log "[text] No soportado" and "[unknown] No soportado" |
| WhatsApp.HandleViews | internal/whatsapp/client.go:88-140 | handleMessage logs exactly what its body logs, looks groups up before and in the body, and its handler calls are exactly the registered handler's call |
| WhatsApp.SelfMessageSilent | internal/whatsapp/client.go:90-92 | a message sent by this account produces no effect at all |
| WhatsApp.HandleLines | internal/whatsapp/client.go:105-134 | a message with text logs exactly its text line; one without text logs its "[label]" line, then the complex content unless the kind is Unknown |
| WhatsApp.EmptyConversationLogged | internal/whatsapp/client.go:105-134 | a conversation present but empty, with no extended text or an empty one, logs "[text]" and then "[text] No soportado" |
| WhatsApp.HandleLinesPrefixed | internal/whatsapp/client.go:112-128 | every line handleMessage logs carries the context prefix of its chat |
| WhatsApp.CallbackOnceAfterLogging | internal/whatsapp/client.go:136-139 | the registered handler is called exactly once, as the last effect; without one, nothing is called |
| WhatsApp.LookupsOnlyForGroups | internal/whatsapp/client.go:95-103 | group lookups happen only for group chats, first; there are two when processComplexMessage runs, else one |
| WhatsApp.TextScenarios | internal/whatsapp/client.go:112-117 | "hola" from Ana logs "WA [PRIVADO] Ana: hola" directly, and "WA [GRUPO:Grupo desconocido] Ana: hola" in a group whose lookup fails |
| WhatsApp.Client.constructor | internal/whatsapp/client.go:18-25 | a new client has no registered handler and nothing logged yet |
| WhatsApp.Client.SetMessageHandler | internal/whatsapp/client.go:279-281 | the handler is replaced; nothing else changes |
| WhatsApp.Client.ResolveGroupName | internal/whatsapp/client.go:95-103 | returns the group name, with one lookup appended for group chats |
| WhatsApp.Client.LogMessage | internal/whatsapp/client.go:271-277 | appends exactly the prefixed line |
| WhatsApp.Client.HandleImageMessage | internal/whatsapp/client.go:178-198 | appends the image summary line, or nothing without an image payload |
| WhatsApp.Client.HandleAudioMessage | internal/whatsapp/client.go:200-219 | appends the audio summary line, or nothing without an audio payload |
| WhatsApp.Client.HandleVideoMessage | internal/whatsapp/client.go:221-244 | appends the video summary line, or nothing without a video payload |
| WhatsApp.Client.HandleDocumentMessage | internal/whatsapp/client.go:246-269 | appends the document summary line, or nothing without a document payload |
| WhatsApp.Client.ProcessComplexMessage | internal/whatsapp/client.go:142-176 | appends the group lookup and then exactly the complex content line |
| WhatsApp.Client.HandleMessage | internal/whatsapp/client.go:88-140 | appends exactly the effects the specification gives: nothing for own messages; otherwise the lookup, the body's lines, and the handler call |
| Handlers.VariantContent | internal/whatsapp/handlers.go:45-58 | nothing exactly for a text-kind message with empty text; the text for a text message; otherwise a line starting with '[' |
| Handlers.VariantRouting | internal/whatsapp/handlers.go:45-58 | text as is, the image, audio, video and document lines for those kinds, and "[unknown] No soportado" for Unknown |
| Handlers.VariantViews | internal/whatsapp/handlers.go:29-59 | the variant looks the group up, logs exactly its content line, and calls no handler |
| Handlers.VariantLogsUnlessEmptyText | internal/whatsapp/handlers.go:61-70 | a text message is logged exactly when its text is non-empty; every other kind is logged once |
| Handlers.VariantLinesPrefixed | internal/whatsapp/handlers.go:141-147 | every line the variant logs carries the context prefix |
| Handlers.VariantSticker | internal/whatsapp/handlers.go:56-57 | the variant logs a sticker as "[sticker] No soportado" where client.go logs "[STICKER]" |
| Handlers.VariantContact | internal/whatsapp/handlers.go:56-57 | the variant logs a contact as "[contact] No soportado" where client.go logs "[CONTACTO]" |
| Handlers.VariantLocation | internal/whatsapp/handlers.go:56-57 | the variant logs a location as "[location] No soportado" where client.go logs "[UBICACIÓN]" |
| Handlers.AudioLineShowsDuration | internal/whatsapp/handlers.go:100 | the variant audio line always ends with the duration, zero included |
| Handlers.VideoLineShowsDuration | internal/whatsapp/handlers.go:116-119 | the variant video line always shows " - Duracion: <n>s" after the MIME type, zero included, before any caption |
| Handlers.ZeroSecondAudio | internal/whatsapp/handlers.go:100 | a zero-second audio/ogg note is logged as "[AUDIO] audio/ogg - Duracion: 0s" |
| Handlers.AudioLineDeterminesSeconds | internal/whatsapp/handlers.go:100 | the duration can be read back from the audio line |
| Handlers.DocumentLineDeterminesSize | internal/whatsapp/handlers.go:135 | the size can be read back from the document line |
| Handlers.HandleTextMessage | internal/whatsapp/handlers.go:61-70 | appends the text line exactly when the text is non-empty |
| Handlers.HandleImageMessage | internal/whatsapp/handlers.go:72-89 | appends the variant image line, or nothing without an image payload |
| Handlers.HandleAudioMessage | internal/whatsapp/handlers.go:91-104 | appends the variant audio line, or nothing without an audio payload |
| Handlers.HandleVideoMessage | internal/whatsapp/handlers.go:106-123 | appends the variant video line, or nothing without a video payload |
| Handlers.HandleDocumentMessage | internal/whatsapp/handlers.go:125-139 | appends the variant document line, or nothing without a document payload |
| Handlers.ProcessComplexMessage | internal/whatsapp/handlers.go:29-59 | appends exactly the variant's effects: the lookup, then at most one line |
| Handlers.MatchTextMimeType | internal/whatsapp/handlers.go:163-168 | the first loop finds a match exactly when the MIME type contains one of the text types |
| Handlers.MatchTextExtension | internal/whatsapp/handlers.go:170-176 | the second loop finds a match exactly when the lowered extension is one of the text extensions |
| Handlers.IsProcessableTextFile | internal/whatsapp/handlers.go:150-179 | true exactly when the MIME type contains a text type or the lowered extension is a text extension |
| Handlers.ProcessableIgnoresCase | internal/whatsapp/handlers.go:171 | a file name and its lowered form are judged alike |
| Handlers.TextMimeTypeSuffices | internal/whatsapp/handlers.go:163-168 | a MIME type that starts with a text type, with or without parameters, is accepted whatever the file name |
| Handlers.DirectoryDotIgnored | internal/whatsapp/handlers.go:171-176 | a dot in a directory name is no extension: "dir.txt/readme" without a MIME type is rejected |
| Handlers.UpperCaseExtension | internal/whatsapp/handlers.go:171-176 | "NOTES.MD" is accepted whatever its MIME type |
| GoStd.AtoiFormatInt | internal/config/config.go:68 | every int64 printed in decimal reads back as itself |
| GoStd.AtoiLeadingNonDigit | internal/config/config.go:68 | text whose first character after the sign is not a digit reads as 0 |
| GoStd.ScanInvalidExtends | internal/config/config.go:68 | once unsigned scanning has failed, appending text does not change that |
| GoStd.ScanNonDigitAt | internal/config/config.go:68 | scanning fails at the first non-digit reached before the value overflows |
| GoStd.AtoiNonDigitAt | internal/config/config.go:68 | a non-digit at any position after the sign, reached before overflow, gives 0 |
| GoStd.AtoiTrailingGarbage | internal/config/config.go:68 | "54x" reads as 0, not 54 |
| GoStd.Atoi | internal/config/config.go:68 | strconv.Atoi with its error dropped: the result is always within int64 |
| GoStd.Digits | internal/whatsapp/client.go:214 | %d of a non-negative number: at least one character, all decimal digits, no leading zero |
| GoStd.FormatInt | internal/config/config.go:151-160 | %d of an int: non-empty, with a leading '-' exactly for negative numbers |
| GoStd.Join | internal/config/config.go:125 | strings.Join: empty for no parts, and starts with the first part |
| GoStd.Contains | internal/whatsapp/handlers.go:165 | strings.Contains: a contained string is no longer than the text, and a string the text begins with is contained |
| GoStd.ToLower | internal/whatsapp/handlers.go:171 | strings.ToLower on ASCII: same length, each character lowered in place |
| GoStd.Ext | internal/whatsapp/handlers.go:171 | filepath.Ext: a suffix of the path that starts with its only '.' and has no '/' after it; empty exactly when the final path element has no '.' |
| GoStd.DigitsInjective | internal/whatsapp/client.go:214 | distinct numbers print differently |
| GoStd.ExtToLower | internal/whatsapp/handlers.go:171 | lowering a path's case lowers its extension and nothing else about it |
| GoStd.JoinThree | internal/config/config.go:125 | three names are joined with the separator between each pair |
| Config.GetEnv | internal/config/config.go:143-148 | a set, non-empty value wins; an absent or empty one gives the default; the result is empty only if the default is |
| Config.BuildPostgresURI | internal/config/config.go:150-160 | the URI starts with the scheme and the user |
| Config.ParseBuildPostgresURI | internal/config/config.go:150-160 | the URI reads back as the user, password, host, port, database and mode it was built from, when no component contains its own delimiter |
| Config.MissingExactly | internal/config/config.go:106-118 | each required name is listed exactly when its field is empty; nothing else is listed; the order is DISCORD_TOKEN, POSTGRES_PASSWORD, GEMINI_API_KEY, with no duplicates |
| Config.MissingSpelledOut | internal/config/config.go:106-118 | the checking table yields the same list as the three checks in sequence |
| Config.JiraNeverRequired | internal/config/config.go:120-122 | the Jira settings never change the validation outcome |
| Config.ValidationErrorNamesMissing | internal/config/config.go:124-128 | an error is returned exactly when something is missing, and its message names every missing variable |
| Config.Validate | internal/config/config.go:105-129 | returns the missing-variables error, or none, and reports the Jira warning exactly when the URL, email or token is empty |
| Config.Load | internal/config/config.go:54-103 | returns the configuration assembled from the environment when it validates, else the invalid-configuration error |
| Config.LoadSucceedsIff | internal/config/config.go:98-102 | loading succeeds exactly when DISCORD_TOKEN, POSTGRES_PASSWORD and GEMINI_API_KEY are set and non-empty |
| Config.LoadOutcome | internal/config/config.go:98-102 | success carries the assembled configuration; failure prefixes the validation message with "configuración inválida: " |
| Config.LoadConsistent | internal/config/config.go:76-94 | the stored URI is built from the loaded database settings, and both log levels come from LOG_LEVEL |
| Config.Defaults | internal/config/config.go:63-96 | with nothing set: localhost, lisa_whatsmeow, postgres, disable, INFO, SUPPORT, gemini-pro, 8080 and development |
| Config.DefaultPort | internal/config/config.go:68 | with no POSTGRES_PORT the port is 5432 |
| Config.PortReadBack | internal/config/config.go:68 | a decimal POSTGRES_PORT within int64 is read as written |
| Config.UnparsablePort | internal/config/config.go:68 | a POSTGRES_PORT whose first character after the optional sign is missing or not a digit becomes 0 |
| Config.PortStopsAtNonDigit | internal/config/config.go:68 | a POSTGRES_PORT with a non-digit anywhere after the optional sign, reached before its digits overflow, becomes 0 |
| Config.EmptyEnvUri | internal/config/config.go:68-78 | with nothing set the URI is postgres://postgres:@localhost:5432/lisa_whatsmeow?sslmode=disable |
| Config.EmptyEnvFails | internal/config/config.go:98-128 | with nothing set, loading fails and names DISCORD_TOKEN, POSTGRES_PASSWORD and GEMINI_API_KEY in that order |
| Config.IsDevelopment | internal/config/config.go:131-133 | a development configuration is never a production one |
| Config.IsProduction | internal/config/config.go:135-137 | a production configuration is never a development one |
| Config.EnvironmentExclusive | internal/config/config.go:131-137 | never both development and production; without ENVIRONMENT, development |
| Config.GetServerAddress | internal/config/config.go:139-141 | ":" followed by exactly the port |
| Config.DefaultServerAddress | internal/config/config.go:93 | without PORT the address is ":8080" |

## Left out

- Transport: connecting, disconnecting, the device store, the QR code, receipts and the event-handler registration of `client.go`. These are library calls and a network session.
- `SendTextMessage` is a stub that always fails. `SetMediaHandlers` only prints a line.
- `cmd/bot/main.go` and `internal/whatsapp/qr.go`: startup, signals, timers and terminal output.
- Loading the `.env` file in `Load`. The environment is a map given to `Load`.
- The clock: `NewWhatsAppMessageFromEvent` takes the current time as a parameter.
- The timestamp `log.Printf` puts before each line. Only the line's content is modelled.
- `GroupInfo` and `ContactInfo`: library identifiers with no behaviour.
- Conversion of a chat identifier to text: the chat is a string already.
- An event without a message body: the Go code would dereference nil. Every modelled event has a message, possibly with no payload.
- The media handler type and struct of `handlers.go`: they are never used.
- The handler is recorded by an identifier. Its own effects are not modelled.
- WhatsApp.Client.ResolveGroupName: the group lookup's answer is a parameter, and both lookups within one `handleMessage` get the same answer. The model does not cover a lookup whose answer changes between them.
- WhatsApp.Client.HandleMessage: the Go code prints text lines and "[label]" lines with `log.Printf` directly, not through `logMessage`. Both use the same template, so the model logs them through `LogMessage`.
- GoStd.Ext: '/' is the only path separator, as on Unix. On Windows Go's `filepath.Ext` also stops at '\\', which the model does not.
- GoStd.ToLower: lowers ASCII letters only. Go lowers all Unicode letters. The only non-ASCII letters that lower to ASCII are U+0130 (to 'i') and U+212A (to 'k'). Neither occurs in the text extensions, so `isProcessableTextFile` is unaffected.
- Config.Validate: the Jira warning is printed in Go. The model returns it as a flag.
- Config.BuildPostgresURI: the components are not escaped, as in the code. The URI reads back only when no component contains the delimiter that ends it.

# Virtual-clone speech and chat pipeline, in Dafny

This project models the logic in a portfolio "virtual clone": a chat page whose replies are
spoken by a 3D talking head that lip-syncs to synthesised audio. Most of the app is glue to
the speech and language vendors. The model covers the five places where that glue computes
something exactly:

- **`/api/azure-stt`** (`azure_stt.dfy`, module `AzureStt`):
  - `createWavHeader` fills a zero-filled 44-byte `array<byte>` in place. It writes the
    canonical RIFF/WAVE header for 16-bit mono PCM at 44.1 kHz (the `fmt ` chunk of type
    WAVE_FORMAT_PCM from the Microsoft/IBM *Multimedia Programming Interface and Data
    Specifications 1.0*), with little-endian fields.
  - An independent header reader proves the layout in both directions.
  - The route either passes WAV bytes through or puts the header in front of them.
  - It maps the recognizer's `RecognitionStatus` to a transcript or an error.
- **`/api/elevenlabs-tts`** (`elevenlabs_tts.dfy`, module `ElevenLabsTts`):
  - The per-character timing loop groups characters into words. Its result equals a
    reference definition: one word per maximal run of non-space characters.
  - Hence no word is empty or contains a space, and the words concatenate to the text
    without its spaces.
  - The second loop emits one Azure-style viseme id per character.
- **The avatar component** (`talking_head.dfy`, module `TalkingHead`):
  - The Azure-to-Oculus viseme table yields three parallel tracks. The durations telescope.
  - Word times and durations are extracted from Azure ticks, and the `onWord` schedule is built.
  - The `speak` guard is a `class Avatar` with the two flags `isInitialized` and `isPlaying`.
- **The chat component** (`chat_ui.dfy`, module `ChatUi`):
  - `appendToken`, the spacing rule for building a sentence word by word.
  - The history window of `handleSend`: the last three user messages, then the last three bot
    messages.
  - Language-prefix detection and the three-character strip.
  - The `setMessages` updater behind `onWord`.
- **The phrase-to-link rewriter** (`link_mappings.dfy`, module `LinkMappings`):
  - The eight-entry phrase table.
  - Each global, case-insensitive regular-expression replace is an explicit scanner. It cuts the
    text into pieces: a kept character, or a matched occurrence. The rewrite itself is a
    `for` loop over the table that reassigns `result`.
  - The scanner's conditions are those of the regular expression: the word boundaries, the
    `@`-phrase lookbehind, and the "not already inside an anchor" lookahead. They are proved
    equivalent where that is not evident.
- `js_text.dfy` (module `JsText`) holds the JavaScript string behaviour the others rely on:
  `trim` over the ECMAScript white-space and line-terminator set, `slice` with a clamped
  bound, and ASCII case mapping.

Vendor calls, `fetch`, the clock and audio decoding are parameters: the recognizer's reply,
the vendor's reply, whether the audio decodes, and the key set of the voices table.

## Model

| member | source | states |
|---|---|---|
| JsText.Trim | src/components/ChatUI.js:28-29 | `trim` yields "" exactly for all-white-space input; otherwise it is the slice after the leading white space, neither starting nor ending with white space, and everything dropped is white space |
| JsText.SliceTo | src/components/ChatUI.js:47-48 | `slice(0, n)` is the prefix of length min(n, \|s\|) |
| JsText.SliceFrom | src/components/ChatUI.js:71 | `slice(n)` is what follows that prefix: prefix and rest make up the string |
| AzureStt.U32RoundTrip | src/app/api/azure-stt/route.js:18 | decoding the four little-endian bytes of a uint32 gives the value back |
| AzureStt.U16RoundTrip | src/app/api/azure-stt/route.js:24-25 | the same for the two bytes of a uint16 |
| AzureStt.U32Canonical | src/app/api/azure-stt/route.js:18 | any four bytes are the little-endian encoding of the value they decode to |
| AzureStt.PcmInfo | src/app/api/azure-stt/route.js:7-12 | the announced format satisfies byteRate = rate·channels·bits/8, blockAlign = channels·bits/8, RIFF size = data size + 36 |
| AzureStt.FmtChunkBytes | src/app/api/azure-stt/route.js:22-29 | the `fmt ` chunk written is, byte for byte, "fmt ", 16, 1, 1, 44100, 88200, 2, 16 in little-endian |
| AzureStt.WavHeaderLayout | src/app/api/azure-stt/route.js:16-33 | "RIFF" at 0, "WAVE" at 8, "fmt " at 12, "data" at 36; bytes 4..7 decode to 36 + dataLength and bytes 40..43 to dataLength |
| AzureStt.WavHeaderRoundTrip | src/app/api/azure-stt/route.js:6-36 | reading the header back recovers every field, the data length among them |
| AzureStt.ParsedPcmHeaderIsCanonical | src/app/api/azure-stt/route.js:6-36 | bytes that read back as the PCM format with data size n: n fits the uint32 field, and the first 44 bytes are exactly the header written for n |
| AzureStt.RiffPart | src/app/api/azure-stt/route.js:16-19 | bytes 0..11 with the RIFF and WAVE tags and RIFF size 36 + n are the RIFF chunk for n |
| AzureStt.FmtPart | src/app/api/azure-stt/route.js:21-29 | bytes 12..35 whose fields decode to the PCM format are the `fmt ` chunk |
| AzureStt.DataPart | src/app/api/azure-stt/route.js:31-33 | bytes 36..43 with the data tag and size n are the data chunk header for n |
| AzureStt.WriteBytes | src/app/api/azure-stt/route.js:17-33 | one `write`/`writeUInt*LE`: the bytes land at the offset, the bytes before are kept and the bytes after are untouched |
| AzureStt.WriteRiffChunk | src/app/api/azure-stt/route.js:16-19 | after the first three writes, bytes 0..11 are the RIFF chunk and bytes 12..43 are as they were |
| AzureStt.WriteFmtChunk | src/app/api/azure-stt/route.js:21-29 | the next eight writes put the `fmt ` chunk after what bytes 0..11 held, and leave bytes 36..43 as they were |
| AzureStt.WriteDataChunkHeader | src/app/api/azure-stt/route.js:31-33 | the last two writes complete the buffer with the data chunk header |
| AzureStt.CreateWavHeader | src/app/api/azure-stt/route.js:6-36 | the filled buffer is the canonical 44-byte header for the data length, and reading it back gives the PCM format with that length |
| AzureStt.PrepareAudio | src/app/api/azure-stt/route.js:45-74 | missing key, then missing audio, are errors before any conversion; WAV input passes through unchanged; any other input becomes header ++ audio (length 44 + n, audio as suffix, parses as PCM of n bytes), or a range error when 36 + n exceeds uint32 |
| AzureStt.Classify | src/app/api/azure-stt/route.js:88-106 | a transcript exactly for status Success with non-blank text, and then that text; Success with blank or missing text, NoMatch, and any other status are the three errors; the last error carries the status text when it is non-empty, and "Unknown error" when the status is missing or empty |
| AzureStt.Post | src/app/api/azure-stt/route.js:38-111 | configuration and conversion errors come first; otherwise the answer is the classification of the recognizer's reply |
| ElevenLabsTts.WordsAreProper | src/app/api/elevenlabs-tts/route.js:59-83 | no word of the reference definition is empty or contains a space |
| ElevenLabsTts.WordsJoinToCharacters | src/app/api/elevenlabs-tts/route.js:59-83 | the words, joined without separators, are the characters with every space removed |
| ElevenLabsTts.BlankHasNoWords | src/app/api/elevenlabs-tts/route.js:59-69 | an all-space text has no words |
| ElevenLabsTts.WordEndsAtSpace | src/app/api/elevenlabs-tts/route.js:59-69 | a run that started at ws and reaches a space (or the end) at i is the first word from ws, followed by the words after i |
| ElevenLabsTts.SkipSpace | src/app/api/elevenlabs-tts/route.js:55-59 | a space with no pending word leaves the loop state consistent |
| ElevenLabsTts.EndWord | src/app/api/elevenlabs-tts/route.js:59-69 | a space after a pending word pushes exactly the next word of the reference list, with its first character's start and summed durations in ticks |
| ElevenLabsTts.StartWord | src/app/api/elevenlabs-tts/route.js:55-57 | a non-space with no pending word starts one at its own start time |
| ElevenLabsTts.ExtendWord | src/app/api/elevenlabs-tts/route.js:70-73 | a non-space extends the pending word and adds its duration |
| ElevenLabsTts.AlignmentToWords | src/app/api/elevenlabs-tts/route.js:43-83 | the loop's words are the maximal runs of non-space characters in order, each with its first character's start ×1000×10000 and the sum of its characters' durations ×10000; none is empty or holds a space; they join to the text without spaces |
| ElevenLabsTts.VisemeIdOf | src/app/api/elevenlabs-tts/route.js:86-102 | the table value of the lower-cased character, 0 when it is absent; always in 0..14 |
| ElevenLabsTts.VisemeIdCaseInsensitive | src/app/api/elevenlabs-tts/route.js:98 | an upper-case letter gets the viseme of its lower-case form |
| ElevenLabsTts.AlignmentToVisemes | src/app/api/elevenlabs-tts/route.js:97-105 | exactly one viseme per character, in order, with the character's id and start time ×1000×10000 |
| ElevenLabsTts.ChooseAlignment | src/app/api/elevenlabs-tts/route.js:39 | the normalized alignment when present, else the raw one |
| ElevenLabsTts.ProcessAlignment | src/app/api/elevenlabs-tts/route.js:39-106 | no alignment gives empty words and visemes; otherwise both loops run over the chosen alignment, which alone needs a time per character |
| ElevenLabsTts.Post | src/app/api/elevenlabs-tts/route.js:5-118 | missing key and vendor failure are errors; otherwise the audio, the words of the chosen alignment, and per character its viseme id at its start time in ticks |
| TalkingHead.OculusName | src/components/TalkingHeadDemo.js:126-131 | ids 0..21 map per the table, any other id to "sil"; the result is always one of the 15 Oculus names |
| TalkingHead.ConvertAzureVisemesToOculus | src/components/TalkingHeadDemo.js:125-139 | three tracks as long as the input; names from the table; times[i] = offset[i]/10000; each viseme lasts until the next starts; the last lasts 100 ms |
| TalkingHead.DurationsTelescope | src/components/TalkingHeadDemo.js:133-137 | the first n−1 durations add up to (offset[n−1] − offset[0])/10000 |
| TalkingHead.TrackLength | src/components/TalkingHeadDemo.js:132-137 | all durations add up to the last start minus the first start plus 100 ms |
| TalkingHead.ExtractWords | src/components/TalkingHeadDemo.js:30-32 | words, wtimes and wdurations are parallel to the events, with ticks divided by 10000 |
| TalkingHead.WordSchedule | src/components/TalkingHeadDemo.js:45-51 | the i-th callback is `onWord(words[i], i)` at wtimes[i] ms |
| TalkingHead.PlanSpeech | src/components/TalkingHeadDemo.js:22-51 | a plan exactly when the reply carries audio that decodes; it holds the audio, the viseme and word tracks, and one callback per word when `onWord` is set |
| TalkingHead.Avatar.constructor | src/components/TalkingHeadDemo.js:7-8 | both flags start false |
| TalkingHead.Avatar.InitAvatar | src/components/TalkingHeadDemo.js:112-117 | a successful load sets `isInitialized`; a failed one leaves it as it was |
| TalkingHead.Avatar.BeginSpeak | src/components/TalkingHeadDemo.js:13-14 | starts exactly when initialized and idle, and then sets `isPlaying`; otherwise nothing changes |
| TalkingHead.Avatar.FinishSpeak | src/components/TalkingHeadDemo.js:54-56 | the avatar is idle again |
| TalkingHead.Avatar.Speak | src/components/TalkingHeadDemo.js:12-58 | a no-op unless initialized and idle; otherwise the `try` block's plan, and idle afterwards whether it succeeded or failed |
| TalkingHead.OverlappingSpeak | src/components/TalkingHeadDemo.js:13-14 | an example run: a second `speak` during the first does nothing; after the first finishes a new one starts |
| ChatUi.AppendToken | src/components/ChatUI.js:8-20 | the existing text is a prefix and the token a suffix; between them exactly one space when the token is not punctuation, the text does not end in "@" and is not empty, otherwise nothing |
| ChatUi.PlainWordsJoinWithSpaces | src/components/ChatUI.js:8-20 | plain words appended one by one give the words joined with single spaces |
| ChatUi.AppendAllGrows | src/components/ChatUI.js:8-20 | the text built from the first k tokens is a prefix of the text built from all of them |
| ChatUi.WithRole | src/components/ChatUI.js:36-37 | the filter keeps exactly the messages with that role |
| ChatUi.WithRoleSingle | src/components/ChatUI.js:36-37 | one message is kept exactly when it has the role |
| ChatUi.WithRoleAppend | src/components/ChatUI.js:36-37 | filtering a concatenation concatenates the filtered parts, so order and repetitions are kept |
| ChatUi.LastN | src/components/ChatUI.js:36-37 | `slice(-n)` is the suffix of length min(n, \|s\|) |
| ChatUi.ContextWindow | src/components/ChatUI.js:35-38 | the last min(3, users) user messages in order, then the last min(3, bots) bot messages in order |
| ChatUi.ContextFromTranscript | src/components/ChatUI.js:35-38 | every message of the window is from the transcript; user messages first, then bot messages |
| ChatUi.LanguageCode | src/components/ChatUI.js:47-49 | the first two characters exactly when they are a voices key (or "en"), otherwise "en" |
| ChatUi.HandleSend | src/components/ChatUI.js:27-50 | blank input does nothing; otherwise the trimmed text is appended as a user message, and the request carries it, the window of the messages before this send, and its language |
| ChatUi.HandleReply | src/components/ChatUI.js:62-80 | a missing or empty response becomes the fallback; an empty building bot message is appended; display and speech drop the first three characters; the display is linked; the language comes from the prefix |
| ChatUi.OnWord | src/components/ChatUI.js:130-143 | only a still-building last message changes: it gets the linked `appendToken` result and keeps building unless this was the last word; length and earlier messages unchanged; otherwise the list is returned as it is |
| ChatUi.OnWordKeepsBuilding | src/components/TalkingHeadDemo.js:48 | called without `info`, as the avatar does, the message keeps building |
| ChatUi.OnWordWithoutPhrases | src/components/ChatUI.js:134-139 | when the extended text holds no table phrase, the new text is exactly the `appendToken` result |
| ChatUi.OnWordsBuildSentence | src/components/ChatUI.js:130-143 | replaying a reply's words on the empty building message, with no phrase in any prefix, leaves the tokens joined by `appendToken` |
| LinkMappings.Anchor | src/utils/linkMappings.js:30 | the replacement puts the entry's url right after `<a href="` and ends with the table's spelling of the phrase and `</a>` |
| LinkMappings.MatchAt | src/utils/linkMappings.js:24-26 | a match of the regular expression lies inside the text and is an occurrence of the phrase in some case |
| LinkMappings.AnchorAheadIff | src/utils/linkMappings.js:23-26 | the scanner's lookahead holds exactly when a run of non-"<" characters from the match end is followed by "</a>", as `(?![^<]*</a>)` demands |
| LinkMappings.NextPiece | src/utils/linkMappings.js:24-31 | at each position, a link exactly when the regular expression matches there; the piece covers the text it replaces |
| LinkMappings.PiecesCoverText | src/utils/linkMappings.js:28-31 | the pieces read back give the text they were cut from: nothing is lost or reordered |
| LinkMappings.PiecesFaithful | src/utils/linkMappings.js:28-31 | the pieces lie end to end; each link is a match; no match starts at a kept character, which is copied as it is |
| LinkMappings.NoMatchKeepsText | src/utils/linkMappings.js:28-31 | with no match from i on, the rest of the text comes out unchanged |
| LinkMappings.ReplaceWithoutPhrase | src/utils/linkMappings.js:24-31 | a text without the phrase in any case is left alone by the scan |
| LinkMappings.ReplaceAll | src/utils/linkMappings.js:24-31 | a text without the phrase in any case is left alone by its replace |
| LinkMappings.RenderAppend | src/utils/linkMappings.js:28-31 | the output of consecutive pieces is the concatenation of their outputs |
| LinkMappings.SourceAppend | src/utils/linkMappings.js:28-31 | the text covered by consecutive pieces is the concatenation of the texts they cover |
| LinkMappings.PiecesSuffix | src/utils/linkMappings.js:28-31 | the pieces from the k-th on are the scan resumed where the k-th starts: the search resumes after each match |
| LinkMappings.TextBeforePiece | src/utils/linkMappings.js:28-31 | the pieces before the k-th cover exactly the text before its position |
| LinkMappings.SourceBeforeSuffix | src/utils/linkMappings.js:28-31 | when the pieces cover the text and those from k on cover the text from a position, those before k cover the text before it |
| LinkMappings.LinkSplitsPieces | src/utils/linkMappings.js:28-31 | a link piece is a match, and the scan continues right after the matched phrase |
| LinkMappings.RenderAroundLink | src/utils/linkMappings.js:28-31 | a link piece renders as the anchor between the outputs of the pieces around it |
| LinkMappings.LinkReplacesMatch | src/utils/linkMappings.js:24-31 | every link the replace makes outputs the anchor with the table's spelling in place of its match, whatever case the text used, between the pieces' output before it and the output of the scan resumed right after the match |
| LinkMappings.ConvertPhrasesToLinks | src/utils/linkMappings.js:13-35 | `result` after the loop is the text with each table entry's replace applied in table order |
| LinkMappings.ApplyEntries | src/utils/linkMappings.js:18-32 | after the first n entries, a text with none of their phrases, in any case, is unchanged |
| LinkMappings.PhrasesToLinks | src/utils/linkMappings.js:13-35 | a text with none of the phrases, in any case, is returned unchanged |
| LinkMappings.AttributesHaveNoMarkup | src/utils/linkMappings.js:30 | the fixed parts of the anchor template hold no "<" after the opening one |
| LinkMappings.ClosingTagAhead | src/utils/linkMappings.js:25-26 | a "</a>" reached without passing a "<" is seen by the lookahead |
| LinkMappings.ClosedTagGuards | src/utils/linkMappings.js:25-26 | inside "<" + inner + "</a>" with no "<" in inner, the lookahead holds at every position |
| LinkMappings.AnchorShape | src/utils/linkMappings.js:30 | an anchor is "<", text free of "<", then "</a>", when the url and phrase have no "<" |
| LinkMappings.AnchorGuardsItsInside | src/utils/linkMappings.js:23-30 | within an emitted anchor the lookahead holds, so no later pass can end a match there: links are never nested |
| LinkMappings.LowerCaseOccurrenceIsLinked | src/utils/linkMappings.js:26-30 | an example: "linkedin" in lower case is linked with the table's spelling "LinkedIn" |

## Left out

- Network calls, `fetch`, `NextResponse`, environment variables and console logging. The key, the request fields and the vendor replies are parameters.
- The exact wording of the thrown error messages. The errors are datatype constructors that carry the same data.
- `Buffer.from(audioData)`: the audio arrives as bytes. Non-byte array elements are not modelled.
- The elevenlabs route's request body, voice default and HTTP status codes. Only the timing data and the audio field of the reply are modelled.
- Alignment arrays shorter than `characters`. JavaScript would read `undefined` and produce NaN times, so the `WellFormed` precondition demands at least one time per character.
- IEEE floating point throughout: seconds, milliseconds and ticks are exact reals, so JavaScript rounding is not modelled.
- Unicode case mapping. `toLowerCase` is modelled on ASCII letters only (`AsciiLower`). For the ASCII phrases of the table this is exactly what a non-unicode `/i` regular expression does.
- The JavaScript regular-expression engine, escaping included. The per-phrase regular expression is specified directly as the scanner's conditions; the phrases hold no characters that the escaping changes in meaning.
- The `image` fields of the link table, which the rewriter does not read.
- AnchorGuardsItsInside: stated for any entry whose url and phrase hold no "<". That the eight table entries meet this is not proved.
- `atob`, `Uint8Array`, `AudioContext.decodeAudioData` and the TalkingHead library's `speakAudio`. Whether decoding succeeds is the `decodes` parameter, and the plan is what `speakAudio` would receive.
- An `{ error: "" }` reply. An empty error string is falsy, so the source goes on to decode the missing audio, and that throws too; the model treats any error reply as failing.
- `setTimeout` timing and the interleaving of asynchronous work. `Avatar.Speak` runs its `try` block as one step, and `WordSchedule` lists the callbacks with their delays.
- React's snapshot semantics of `isPlaying`/`isInitialized`: two calls within one render can both see `isPlaying` false. `Avatar` assumes each call sees the latest flags.
- The avatar's initialisation: the TalkingHead constructor, its monkey-patch and `showAvatar`. It is reduced to its outcome, `InitAvatar(loaded)`.
- The `voices` table itself, and the voice picked by `voices[langCode] || voices["en"]`. Only its key set enters the model, as a parameter.
- HandleReply, LanguageCode: JavaScript strings count UTF-16 code units and a Dafny `string` counts characters, so `slice(3)` and `slice(0, 2)` differ for text that begins with a character outside the Basic Multilingual Plane. For example, `slice(3)` of "😀 Hi" is "Hi" in JavaScript but "i" in the model. Its `slice(0, 2)` is the emoji alone in JavaScript but the emoji and the space in the model. The model treats each character as one unit.
- HandleSend: the `setMessages(prev => …)` updaters are modelled with `prev` equal to the messages the handler closed over.
- The payload's role/content mapping of the context messages. The window's messages themselves are modelled.
- Rendering: DOMPurify, `dangerouslySetInnerHTML`, the link-preview overlays, and the input and recording controls.
- The other routes (chat, azure-tts) and the persona text. They are vendor calls and string literals with nothing to compute.

# Polly (GroqDictate): a Dafny model of the dictation core

Polly is a macOS menu-bar app for push-to-talk dictation. Holding the `fn` key starts
a recording. Releasing it stops the recording. The audio is uploaded to Groq's
speech-to-text endpoint, and the returned text is pasted into the frontmost
application, unless it looks like a hallucination of the speech model.

This project models that core in Dafny:

- `key_monitor.dfy` (module `KeyMonitor`): the global and local `flagsChanged`
  monitors. Each turns an event of key code 63 into an "FnKeyDown" or "FnKeyUp"
  notification, depending on whether the `.function` flag is held. The local monitor
  also swallows the event.
- `text.dfy` (module `Text`): Foundation's `trimmingCharacters(in: .whitespacesAndNewlines)`
  and `lowercased()`. The whitespace set is Foundation's. Lowercasing covers ASCII only.
- `hallucination.dfy` (module `HallucinationFilter`): `isHallucination`. The text is
  trimmed and lowercased, then compared with eleven known phrases. Empty text is also a
  hallucination.
- `session.dfy` (module `Session`): the session controller of `PollyApp`.
  - The pure reaction functions give, for one event, the next state and the ordered
    side effects: overlay, recorder, upload, paste. `Run` folds them over a trace of
    events.
  - The class `PollyApp` performs the same reactions by updating its fields in place.
    It keeps a ghost log of the effects.
  - Properties proved over every trace:
    - an invariant holds in every reachable state;
    - there are never more pastes than uploads;
    - the overlay and the recorder are switched strictly on, off, on, and so on;
    - `transcription` is always the last pasted text;
    - no pasted text is a hallucination.
- `utf8.dfy` (module `Utf8`): `String.data(using: .utf8)`, with a decoder and the
  round trip `Decode(Encode(s)) == Some(s)`.
- `multipart.dfy` (module `Multipart`): the multipart/form-data body of RFC 7578 and the
  framing of section 5.1.1 of RFC 2046. It holds a parser that splits a body at its
  delimiters. The round trip says that parsing a body recovers every part, in order,
  provided no part's headers hold a blank line and no part's content holds the delimiter.
- `groq_api.dfy` (module `GroqApi`): `GroqAPI.transcribe` and `GroqAPI.testAuthentication`.
  - They are written as the client writes them: append by append, then the status
    checks.
  - They are proved equal to specification functions.
  - A receiver that reads the boundary from the `Content-Type` header splits the body
    back into exactly the fields written, when the model, the language and the file name
    hold no carriage return and the recording does not hold the delimiter.
  - Both calls present the key, unchanged, as a Bearer token (section 2.1 of RFC 6750).
- `wrappers.dfy` (module `Wrappers`): `Option` and `Result`.

Several things the app gets from its environment are parameters of the model:

- the clock;
- whether the recorder produced an audio file;
- the audio file's bytes;
- the UUID used as the boundary;
- the network transport;
- the JSON decoder.

Two facts about the code shape the model:

- `testAuthentication` throws when the request cannot be sent (GroqAPI.swift:77), rather than returning false. The model returns `Failure(Transport)` there, distinct from `Success(false)`.
- The key monitors post on every `flagsChanged` event of key code 63, with no debounce (GroqDictate/Main.swift:137-158). Repeated events are absorbed only by the `isRecording` guards of the two receivers.

## Model

| member | source | states |
|---|---|---|
| KeyMonitor.Classify | GroqDictate/Main.swift:137-145 | only key code 63 posts; it posts "down" exactly when the `.function` flag is held and "up" exactly when it is not |
| KeyMonitor.GlobalMonitor | GroqDictate/Main.swift:137-145 | the global monitor posts what `Classify` gives; its contract is that of `Classify` and `PressThenReleasePostsDownThenUp` |
| KeyMonitor.LocalMonitor | GroqDictate/Main.swift:148-158 | the local monitor posts what the global one posts, swallows every `fn` event, and passes every other event on unchanged |
| KeyMonitor.PressThenReleasePostsDownThenUp | GroqDictate/Main.swift:137-158 | pressing then releasing `fn` posts "down" then "up" in either monitor, whatever other modifiers are held |
| Text.IsWhitespace | GroqDictate/Main.swift:113 | the character set `.whitespacesAndNewlines`: the Unicode white space and line separators, tab to carriage return included; no ensures of its own |
| Text.IsBlank | GroqDictate/Main.swift:68 | `trimmingCharacters(in: .whitespacesAndNewlines).isEmpty`, used for the API key and, at GroqAPI.swift:26, the language; `BlankIffAllWhitespace` states that it holds exactly when every character is whitespace |
| Text.Trim | GroqDictate/Main.swift:113 | `trimmingCharacters(in: .whitespacesAndNewlines)`; its contract is carried by `TrimmedEnds`, `TrimSplit` and `TrimPadded` (trims exactly the whitespace at both ends) |
| Text.TrimStartIsSuffix | GroqDictate/Main.swift:113 | trimming at the start keeps the suffix that starts at the first non-whitespace character, and drops only whitespace |
| Text.TrimEndIsPrefix | GroqDictate/Main.swift:113 | trimming at the end keeps the prefix that ends at the last non-whitespace character, and drops only whitespace |
| Text.TrimmedEnds | GroqDictate/Main.swift:113 | the trimmed text is no longer than the text and neither starts nor ends with whitespace |
| Text.TrimSplit | GroqDictate/Main.swift:113 | every text is its trimmed form between a whitespace-only prefix and a whitespace-only suffix |
| Text.TrimPadded | GroqDictate/Main.swift:113 | text without whitespace at its ends, padded with whitespace on either side, trims back to itself |
| Text.TrimIdempotent | GroqDictate/Main.swift:113 | trimming twice is trimming once |
| Text.BlankIffAllWhitespace | GroqDictate/Main.swift:68 | the trimmed text is empty exactly when the text is whitespace only, in both directions |
| Text.Lowercased | GroqDictate/Main.swift:113 | `lowercased()` for A-Z; its contract is carried by `LowercasedHasNoCapitals`, `LowercasedAppend` and `LowercasedKeepsWhitespace` |
| Text.LowercasedHasNoCapitals | GroqDictate/Main.swift:113 | lowercasing keeps the length and leaves no capital letter |
| Text.LowercasedAppend | GroqDictate/Main.swift:113 | lowercasing works character by character: it distributes over concatenation |
| Text.LowercasedIdempotent | GroqDictate/Main.swift:113 | lowercasing lowercased text changes nothing |
| Text.LowercasedKeepsWhitespace | GroqDictate/Main.swift:113 | lowercasing neither creates nor removes whitespace at the ends |
| Text.TrimLowercasedCommute | GroqDictate/Main.swift:113 | trimming then lowercasing equals lowercasing then trimming |
| HallucinationFilter.Normalize | GroqDictate/Main.swift:113 | the text compared with the list; its contract is carried by `NormalizedForm` and `NormalizeIdempotent` |
| HallucinationFilter.NormalizedForm | GroqDictate/Main.swift:113 | the compared text is no longer than the input, has no whitespace at its ends and holds no capital letter |
| HallucinationFilter.IsHallucination | GroqDictate/Main.swift:112-123 | `isHallucination`; its contract is carried by `IsHallucinationIff` (both directions) and `HallucinationOfNormalized` |
| HallucinationFilter.IsHallucinationIff | GroqDictate/Main.swift:112-123 | a text is a hallucination exactly when it is whitespace only or its trimmed, lowercased form is one of the eleven phrases |
| HallucinationFilter.NormalizeIdempotent | GroqDictate/Main.swift:113 | normalizing normalized text changes nothing |
| HallucinationFilter.HallucinationOfNormalized | GroqDictate/Main.swift:112-123 | the verdict depends only on the trimmed, lowercased text |
| HallucinationFilter.KnownPhrasesAreTrimmed | GroqDictate/Main.swift:114-121 | every listed phrase is non-empty and has no whitespace at its ends, so each one can match |
| HallucinationFilter.PaddedPhraseIsHallucination | GroqDictate/Main.swift:112-123 | any capitalisation of a listed phrase, with any whitespace padding, is a hallucination |
| HallucinationFilter.BlankIsHallucination | GroqDictate/Main.swift:122 | whitespace-only text, including empty text, is a hallucination |
| HallucinationFilter.ThanksForWatchingIsFiltered | GroqDictate/Main.swift:117 | "  Thanks for watching!  " is filtered out |
| HallucinationFilter.YouWithPeriodIsKept | GroqDictate/Main.swift:120-122 | "you." is not filtered: the match is exact and "you" is listed without a period |
| HallucinationFilter.HelloWorldIsKept | GroqDictate/Main.swift:112-123 | ordinary speech is kept |
| Session.Launch | GroqDictate/Main.swift:9-17 | the state at launch: idle, no start time, empty transcription, the stored settings, no tasks; `LaunchSatisfiesInv` states that it satisfies the invariant |
| Session.Elapsed | GroqDictate/Main.swift:84 | the hold's duration, `now` minus the start time, or zero when no start time is set; `Stop` compares it with 500 ms |
| Session.Start | GroqDictate/Main.swift:67-76 | with a blank API key nothing changes and nothing happens; otherwise recording starts now, then the overlay is shown and the recorder started, and nothing else changes |
| Session.Stop | GroqDictate/Main.swift:78-110 | idle: no effect. Recording: it always stops, hides the overlay and stops the recorder. It launches a transcription task, with a fresh id and the current settings, exactly when the hold lasted at least 500 ms and the audio file exists |
| Session.KeyDown | GroqDictate/Main.swift:48-50 | "FnKeyDown" acts only while idle; it starts a recording exactly when idle and the key is not blank |
| Session.KeyUp | GroqDictate/Main.swift:51-53 | "FnKeyUp" acts only while recording, and afterwards the app is never recording |
| Session.Finish | GroqDictate/Main.swift:93-107 | a completion removes its task. It pastes exactly when the task was pending, succeeded and is not a hallucination, and then pastes the text unchanged and records it as the transcription |
| Session.Edit | GroqDictate/Main.swift:9-11 | the stored settings change and nothing else; `StepPreservesInv` and `KeyClearedWhileRecordingStillUploads` state what that means for a session |
| Session.Step | GroqDictate/Main.swift:48-53 | one notification or completion, dispatched to its receiver; its contract is carried by `StepShape`, `StepPreservesInv`, `StepPastesBoundedByUploads` and `StepPastesAreClean` |
| Session.Run | GroqDictate/Main.swift:48-53 | a trace of events in order, effects concatenated; its contract is carried by `RunPreservesInv`, `RunPastesBoundedByUploads`, `RunAlternates`, `TranscriptionIsLastPaste` and `RunPastesAreClean` |
| Session.StepShape | GroqDictate/Main.swift:48-110 | every reaction is one of five shapes: nothing, start, stop, stop and upload, paste. Only a paste changes the transcription |
| Session.LaunchSatisfiesInv | GroqDictate/Main.swift:15-17 | the launch state satisfies the invariant |
| Session.StepPreservesInv | GroqDictate/Main.swift:48-110 | every event keeps the invariant: while recording there is a start time, and every pending task id is below the next id |
| Session.RunPreservesInv | GroqDictate/Main.swift:48-110 | every trace keeps the invariant |
| Session.StopPastesBoundedByUploads | GroqDictate/Main.swift:78-110 | a release issues at most one upload; when it issues one, its task id is not pending yet; so it adds at most one pending task per upload and pastes nothing |
| Session.FinishPastesBoundedByUploads | GroqDictate/Main.swift:93-103 | a completion pastes at most once, and only by retiring a pending task |
| Session.StepPastesBoundedByUploads | GroqDictate/Main.swift:48-110 | for one event, pastes plus pending tasks after are at most uploads plus pending tasks before |
| Session.RunPastesBoundedByUploads | GroqDictate/Main.swift:48-110 | the same bound holds over any trace |
| Session.PastesNeverExceedUploads | GroqDictate/Main.swift:90-103 | from launch, no trace pastes more often than it uploads |
| Session.TogglesAppend | GroqDictate/Main.swift:74-82 | the on/off switches of a device in two effect sequences are the switches of each, in order |
| Session.ShapedAlternates | GroqDictate/Main.swift:72-82 | one reaction switches the overlay and the recorder exactly once when `isRecording` changes and not at all otherwise, in the direction `isRecording` moves |
| Session.RunAlternates | GroqDictate/Main.swift:48-82 | over any trace, the overlay is shown and hidden strictly in turn, and so is the recorder. Each ends in the state `isRecording` gives |
| Session.ShapedLastPaste | GroqDictate/Main.swift:100-103 | after one reaction, `transcription` is the last text pasted, or is unchanged |
| Session.TranscriptionIsLastPaste | GroqDictate/Main.swift:100-103 | after any trace, `transcription` is the last text pasted, or its earlier value when nothing was pasted |
| Session.StepPastesAreClean | GroqDictate/Main.swift:95-102 | no reaction pastes a hallucination |
| Session.RunPastesAreClean | GroqDictate/Main.swift:95-102 | no trace pastes a hallucination |
| Session.RepeatedKeyDownIsAbsorbed | GroqDictate/Main.swift:48-50 | a repeated "FnKeyDown" changes nothing, and at most one of two issues any effect |
| Session.StopEffects | GroqDictate/Main.swift:78-90 | the effects of a handled release: hide, stop, then the upload when the hold and the file allow it |
| Session.PressAndRelease | GroqDictate/Main.swift:48-93 | press then release from launch: show, start, hide, stop, then upload task 0 with the launch settings exactly when the hold lasted 500 ms and the file exists |
| Session.BlankKeyDoesNothing | GroqDictate/Main.swift:67-71 | with a blank key, press and release change nothing and issue nothing |
| Session.DefaultsIgnoreFn | GroqDictate/Main.swift:9-11 | with the stored defaults the key is blank, so a press and release change nothing and issue nothing |
| Session.PressDuringUploadRecords | GroqDictate/Main.swift:48-50 | while a transcription is outstanding, a new press starts a new recording and keeps the outstanding task |
| Session.KeyClearedWhileRecordingStillUploads | GroqDictate/Main.swift:67-93 | the key is checked only at the press: clearing it during the hold still uploads, with the blank key |
| Session.PollyApp.constructor | GroqDictate/Main.swift:9-17 | the app starts idle, with no start time, an empty transcription, the stored settings and no tasks |
| Session.PollyApp.StartRecording | GroqDictate/Main.swift:67-76 | updates the fields and the effect log exactly as `Start` says; the invariant `Valid` is kept |
| Session.PollyApp.StopRecording | GroqDictate/Main.swift:78-90 | updates the fields and the effect log exactly as `Stop` says; the invariant `Valid` is kept |
| Session.PollyApp.OnFnKeyDown | GroqDictate/Main.swift:48-50 | updates the fields and the effect log exactly as `KeyDown` says; the invariant `Valid` is kept |
| Session.PollyApp.OnFnKeyUp | GroqDictate/Main.swift:51-53 | updates the fields and the effect log exactly as `KeyUp` says; the invariant `Valid` is kept |
| Session.PollyApp.OnTranscriptionFinished | GroqDictate/Main.swift:95-107 | updates the fields and the effect log exactly as `Finish` says; the invariant `Valid` is kept |
| Session.PollyApp.Transcribe | GroqDictate/Main.swift:91-108 | the task uploads with the settings it was launched with, then completes as `Finish` says for the upload's outcome; the invariant `Valid` is kept |
| Session.PollyApp.EditSettings | GroqDictate/Main.swift:9-11 | the settings change and nothing else does; the invariant `Valid` is kept |
| Session.PollyApp.Handle | GroqDictate/Main.swift:48-110 | any event is handled as `Step` says, and the invariant `Valid` is kept |
| Utf8.EncodeScalar | GroqAPI.swift:21 | one scalar takes one to four bytes; ASCII takes exactly one byte, equal to its code; other scalars take bytes of at least 0x80 only |
| Utf8.Encode | GroqAPI.swift:21 | encoded text is at least as long as the text |
| Utf8.EncodeScalarFrames | GroqAPI.swift:21 | one scalar's encoding is a well-formed sequence that decodes back to that scalar |
| Utf8.EncodeAppend | GroqAPI.swift:21-23 | encoding distributes over concatenation, so successive appends encode the concatenated text |
| Utf8.Decode | GroqAPI.swift:21-23 | partner, not in the source: a UTF-8 decoder that rejects truncated, overlong and surrogate forms as section 3 of RFC 3629 requires; `DecodeEncode` states that it inverts `Encode` |
| Utf8.MalformedIsRejected | GroqAPI.swift:21-23 | partner, not in the source: the overlong `C0 80`, a lone continuation byte and an encoded surrogate all fail to decode |
| Utf8.DecodeEncode | GroqAPI.swift:23 | decoding the encoding gives back the text |
| Utf8.EncodeWithoutCarriageReturn | GroqAPI.swift:23 | text without a carriage return encodes to bytes without the byte 13 |
| Multipart.Frame | GroqAPI.swift:21-23 | one part in the body: dash-boundary, CRLF, headers, blank line, content, CRLF; its contract is carried by `FrameStartsWithDashBoundary` and `SplitFramedPart` |
| Multipart.Body | GroqAPI.swift:18-48 | every part's frame in order, then the close-delimiter; its contract is carried by `BodyStartsWithDashBoundary`, `BodyEndsWithCloseDelimiter` and `ParseBody` |
| Multipart.FrameStartsWithDashBoundary | GroqAPI.swift:21 | every part starts with "--" and the boundary |
| Multipart.BodyStartsWithDashBoundary | GroqAPI.swift:18-48 | every body starts with "--" and the boundary |
| Multipart.BodyEndsWithCloseDelimiter | GroqAPI.swift:48 | every body ends with "--", the boundary, "--" and CRLF |
| Multipart.FindFrom | GroqAPI.swift:18-48 | partner, not in the source: the receiver's search. It returns the first position of the pattern at or after the start, or reports that there is none |
| Multipart.Parse | GroqAPI.swift:18-48 | partner, not in the source: the receiver's split of a body at its delimiters; `ParseBody` states that it recovers the parts the body was built from |
| Multipart.SplitFramedPart | GroqAPI.swift:21-23 | one framed part reads back as its headers and content, and reading stops at the next dash-boundary |
| Multipart.ParseFrame | GroqAPI.swift:18-48 | a frame followed by a body parses as that frame's part followed by the body's parts |
| Multipart.ParseBody | GroqAPI.swift:18-48 | round trip: a body parses back into exactly its parts, in order, when no part holds a blank line in its headers or the delimiter in its content |
| Multipart.NoCarriageReturnNoEarlyMatch | GroqAPI.swift:23 | bytes without CR cannot contain a delimiter or a blank line |
| Multipart.TwoLinesNoHeaderEnd | GroqAPI.swift:38-39 | two header lines without CR, joined by one CRLF, hold no blank line |
| GroqApi.HeaderText | GroqAPI.swift:22 | a part's header lines; `FieldHeaderBytes` and `FileHeaderBytes` state that the client's appends write them followed by the blank line |
| GroqApi.TranscriptionBody | GroqAPI.swift:18-48 | the upload body; `TranscriptionBodyParses` states that it splits back into exactly its fields |
| GroqApi.BearerCredentials | GroqAPI.swift:13 | "Bearer " and the key; `BearerToken` and `RequestsCarryCredentials` state that the key is recovered unchanged |
| GroqApi.MultipartContentType | GroqAPI.swift:16 | the media type naming the boundary; `BoundaryParameterOfContentType` states that the boundary is recovered from it |
| GroqApi.TranscriptionRequest | GroqAPI.swift:11-16 | the POST with its two headers; `RequestsCarryCredentials` and `UploadReadsBack` carry its contract |
| GroqApi.AuthenticationRequest | GroqAPI.swift:73-75 | the GET with the Bearer header; `RequestsCarryCredentials` carries its contract |
| GroqApi.TranscriptionOutcome | GroqAPI.swift:33-65 | an unreadable file gives `FileUnreadable`, otherwise the judgement of the upload's response; `Transcribe` is proved equal to it |
| GroqApi.LastPathComponent | GroqAPI.swift:34 | the file name has no '/', is a suffix of the path, and is preceded by '/' whenever it is shorter than the path |
| GroqApi.TranscriptionParts | GroqAPI.swift:20-46 | the fields are the model; then the language, as given, exactly when it is not blank; then the file as audio/m4a; then response_format=json |
| GroqApi.TranscriptionResult | GroqAPI.swift:50-65 | text exactly for HTTP 200 with a decodable body. A transport failure, a non-HTTP or non-200 response, or an undecodable body each give their own error |
| GroqApi.AuthenticationResult | GroqAPI.swift:77-83 | an error exactly when the transport fails; otherwise true exactly for HTTP status 200 |
| GroqApi.Transcribe | GroqAPI.swift:6-66 | an unreadable file gives `FileUnreadable`. Otherwise the request carries the Bearer key and boundary, and the body is the form of the four fields (three with a blank language). The result is the judgement of the response |
| GroqApi.AppendField | GroqAPI.swift:21-23 | the three appends of a text field add exactly that field's frame |
| GroqApi.AppendFile | GroqAPI.swift:37-41 | the five appends of the recording add exactly the file part's frame, with the bytes unchanged |
| GroqApi.JudgeTranscription | GroqAPI.swift:52-65 | the checks on the response, in the client's order, give `TranscriptionResult` |
| GroqApi.TestAuthentication | GroqAPI.swift:68-84 | the GET to the models endpoint with the Bearer key is judged as `AuthenticationResult` says |
| GroqApi.FieldBytes | GroqAPI.swift:21-23 | the boundary line, disposition line and value line of a field are that field's frame |
| GroqApi.FileBytes | GroqAPI.swift:37-41 | the boundary line, two header lines, file bytes and CRLF are the file part's frame |
| GroqApi.FieldHeaderBytes | GroqAPI.swift:22 | a field's disposition line, with its blank line, is its header text followed by CRLF CRLF |
| GroqApi.FileHeaderBytes | GroqAPI.swift:38-39 | the file's two header lines, with the blank line, are its header text followed by CRLF CRLF |
| GroqApi.CloseBytes | GroqAPI.swift:48 | the last append writes the close-delimiter |
| GroqApi.BoundaryParameter | GroqAPI.swift:16 | partner, not in the source: the receiver's reading of the Content-Type value. A boundary read from a Content-Type value gives back that value when put into the header form |
| GroqApi.BoundaryParameterOfContentType | GroqAPI.swift:15-16 | the boundary read back from the Content-Type header is the one the body was framed with |
| GroqApi.FieldFramable | GroqAPI.swift:21-29 | a text field whose name and value hold no carriage return can be framed by any boundary |
| GroqApi.FileFramable | GroqAPI.swift:37-41 | the file part can be framed when its names and type hold no carriage return and its bytes hold no delimiter |
| GroqApi.TranscriptionBodyParses | GroqAPI.swift:18-48 | the upload body parses back into exactly its fields, in order, when the model, the language and the file name hold no carriage return and the recording does not hold the delimiter |
| GroqApi.UploadReadsBack | GroqAPI.swift:13-48 | a receiver using the boundary from the request's Content-Type header recovers every field of the body, when the model, the language and the file name hold no carriage return and the recording does not hold the delimiter |
| GroqApi.BearerToken | GroqAPI.swift:13 | partner, not in the source: the server's reading of the Authorization value. A token read from an Authorization value gives back that value when put into Bearer form |
| GroqApi.RequestsCarryCredentials | GroqAPI.swift:11-16 | the upload (POST) and the check (GET) both carry the API key, unchanged, as a Bearer token |

## Left out

- The menu-bar UI, the settings window, `openSettings`, the launch-at-login switch and the accessibility prompt are left out. None of them affects a session.
- `OverlayManager`, `AudioRecorder` and `PasteManager` are left out. Each is an effect in the model: `ShowOverlay`/`HideOverlay`, `StartRecorder`/`StopRecorder`, `Paste`. Their internals are AppKit and AVFoundation calls. `AudioRecorder.swift` and `GroqDictate/OverlayManager.swift` are not part of this model.
- Session.Stop: the clock is a number of milliseconds, not a `Date`. `timeIntervalSince` with a 0.5-second threshold becomes a difference of at least 500 ms, so floating-point rounding of the interval is not modelled.
- Session.Stop: `getAudioFileURL()` is the boolean `audioFileExists`. The file is at a fixed path, so a file left over from an earlier recording would also count as existing. The model does not know which recording the file holds.
- Session: the transcription task is asynchronous. The model gives each launched task an id (a device of the model, not something the app holds), and its completion is a separate event. Any interleaving of completions with key events can be expressed as a trace, but `DispatchQueue.main.async` and thread scheduling are not modelled.
- Session: the settings are read when the release launches the task. The model uses the settings of that moment for the upload, while the app reads them inside the task just after. An edit in between is not distinguished.
- Session: the `print` messages for a missing key, a short recording, a hallucination and an error are left out, because they change no state.
- Text.LowercasedHasNoCapitals: `lowercased()` is modelled for the ASCII letters A-Z only, not for the full Unicode case mapping.
- The whitespace set is Foundation's `whitespacesAndNewlines`, taken as the Unicode Z* categories plus U+0009 to U+000D and U+0085. Unicode normalisation and grapheme clusters are not modelled: strings are sequences of scalars.
- GroqApi.Transcribe, GroqApi.TestAuthentication: the `URL(string:)` guards (GroqAPI.swift:7-9 and 69-71) are left out. Both endpoints are fixed valid literals, so neither guard can fail.
- GroqApi.Transcribe: the network, `URLSession`, `JSONDecoder`, `Data(contentsOf:)` and `UUID()` are parameters. The JSON decoding of `{"text": …}` is the function `decodeText`, and the file read is `fileContents`.
- GroqApi.Transcribe: printing the error body of a non-200 response is left out.
- GroqApi.LastPathComponent: `URL.lastPathComponent` is modelled as the text after the last '/'. The URL-specific cases, a trailing slash and percent-escapes, are not.
- GroqApi.UploadReadsBack, GroqApi.TranscriptionBodyParses: the conditions for a body to parse back are sufficient, not necessary. No carriage return in the text fields and no delimiter in the recording.
- GroqApi.TestAuthentication: the response body is not read, as in the source.

# Voice cloning TTS app: a verified model

The app records a short voice sample in the browser. It sends the sample
and a text to an F5-TTS model hosted on a Hugging Face Gradio Space, and
plays back the cloned voice. This project models its core in Dafny:

- `tts_route.dfy` (`TtsRoute`) covers the `POST /api/tts` handler, which
  does the following:
  - checks the configuration and the parameters;
  - submits the job to `/call/predict`;
  - falls back over three alternate endpoints after a 404;
  - maps failed statuses to messages;
  - polls the event stream up to 30 times;
  - reads a synchronous `data[0]` result as a data URI, a URL or inline
    audio.
- `tts_test_route.dfy` (`TtsTestRoute`) and `test_blob_route.dfy`
  (`TestBlobRoute`) cover the two diagnostic routes. They share
  `gradio_space.dfy` (`GradioSpace`): a default Space URL, an optional
  token, and the `/gradio_api/call/predict` endpoints.
- `tts_api.dfy` (`TtsApi`) is the browser-side `generateVoice` client, its
  error funnel, and its WAV conversion.
- `wav.dfy` (`Wav`) is the 16-bit PCM WAV writer that both converters
  share. It writes into an `array<byte>` and is proved equal to a byte-level
  specification. The specification's header fields and interleaved samples
  are read back by lemmas.
- `audio_converter.dfy` (`AudioConverter`) covers stereo capping, the
  target rate, and the choice of recorder format.
- `audio_upload.dfy` (`AudioUpload`) covers the tmpfiles.org then file.io
  upload fallback.
- `use_recorder.dfy` (`UseRecorder`), `record_button.dfy` (`RecordButton`),
  `voice_cloner.dfy` (`VoiceCloner`) and `audio_player.dfy` (`AudioPlayer`)
  cover the recorder hook and the three components. Each is a class whose
  methods update its fields the way the hook's and components' state
  setters do.

Support modules:

- `wrappers.dfy` holds `Option` and `Result`.
- `js_text.dfy` holds the JavaScript string operations used (`trim`,
  `includes`, `replace`, `split`, number formatting, `padStart`).
- `json.dfy` holds JSON values with JavaScript truthiness and property
  reads.
- `bytes.dfy` holds blobs and the char-code copy into a `Uint8Array`.
- `http.dfy` is the I/O boundary. Every `fetch` is answered by a script of
  outcomes, consumed in order. Once the script is used up, a fetch throws
  `TypeError: fetch failed`. Each handler returns the calls it issued, so
  their number, order, targets and payloads can be stated.
- `JSON.parse`, `atob` and the base64 encoding of a downloaded body are
  treated as given functions, the fields of a `Platform` parameter.

Each loop of the source is a method with its invariants. Each is proved
equal to a tail-recursive specification function (`AltFrom`, `ScanFrom`,
`PollFrom`, `UploadFrom`). The lemmas state what those functions guarantee.

## Model

| member | source | states |
|---|---|---|
| GradioSpace.SpaceUrl | src/app/api/tts-test/route.ts:6 | the configured Space URL when it is set and non-empty, the project's own Space otherwise |
| GradioSpace.Authorization | src/app/api/tts-test/route.ts:29 | an `Authorization: Bearer` header is sent exactly when a token is set |
| Bytes.CharCodes | src/utils/tts-api.ts:82-89 | one byte per character, each the char code reduced to 8 bits; for the binary string `atob` returns, the bytes read back as that string |
| TtsRoute.DataLines | src/app/api/tts/route.ts:220 | a line is kept exactly when it is a line of the body that starts with `data:` after trimming |
| TtsRoute.DataLinesAppend | src/app/api/tts/route.ts:220 | the filter keeps order and multiplicity: filtering a concatenation is joining the filtered parts, so the kept lines are the body's data lines in their own order |
| TtsRoute.TryAlternates | src/app/api/tts/route.ts:94-141 | the alternate-endpoint loop equals `AltFrom`: the endpoints are tried in order, and the first ok reply with a string `data[0]` answers |
| TtsRoute.ScanLines | src/app/api/tts/route.ts:222-243 | the line scan equals `ScanFrom`: the first `process_completed` line with an `http` audio URL is downloaded and answered |
| TtsRoute.PollOnce | src/app/api/tts/route.ts:198-250 | one poll attempt equals `PollAttempt`: a thrown or non-ok poll never ends the loop |
| TtsRoute.PollEvents | src/app/api/tts/route.ts:194-256 | the poll loop equals `PollFrom`: 30 attempts, then the 408 timeout |
| TtsRoute.HandleAccepted | src/app/api/tts/route.ts:190-297 | an accepted body is polled when it has a truthy `event_id`; otherwise its string `data[0]` is classified; otherwise the 500 format error |
| TtsRoute.SubmitJob | src/app/api/tts/route.ts:75-308 | the submission and everything after it equals `Submit`, including the 503 for a thrown submission |
| TtsRoute.Post | src/app/api/tts/route.ts:8-327 | equals `PostSpec`; an incomplete configuration answers 500 with no request; missing parameters answer 400 with no request; any request begins with the POST to `/call/predict` |
| TtsRoute.AltFromExtends | src/app/api/tts/route.ts:100-141 | the alternate loop only appends to the calls already made |
| TtsRoute.ScanFromExtends | src/app/api/tts/route.ts:222-243 | the line scan only appends calls |
| TtsRoute.PollAttemptExtends | src/app/api/tts/route.ts:198-250 | a poll attempt only appends calls |
| TtsRoute.PollFromExtends | src/app/api/tts/route.ts:197-251 | the poll loop only appends calls |
| TtsRoute.AcceptedExtends | src/app/api/tts/route.ts:190-297 | handling an accepted body only appends calls |
| TtsRoute.SubmitStartsWithPrimary | src/app/api/tts/route.ts:75-82 | whatever follows, the first call is the POST to `/call/predict` with the payload and the token |
| TtsRoute.AltFromReplies | src/app/api/tts/route.ts:112-131 | every reply the alternate loop produces has status 200 |
| TtsRoute.RejectedSubmission | src/app/api/tts/route.ts:89-173 | a non-2xx submission is answered with its own status and the table's message, unless it was a 404 and an alternate produced audio; no other status tries the alternates |
| TtsRoute.AllAlternatesFail | src/app/api/tts/route.ts:91-173 | a 404 after which all alternates fail issues exactly the primary POST and the three alternate POSTs, in order, and reports the 404 |
| TtsRoute.AltFromFirstOk | src/app/api/tts/route.ts:100-131 | from any alternate on, when the ones before `m` fail and `m` answers ok with a string `data[0]`, the loop stops at `m`: its calls are exactly the POSTs up to `m` (and the download of a remote URL), and the reply is `m`'s audio, read as a `data:` URI, a URL or raw text |
| TtsRoute.AlternateAnswers | src/app/api/tts/route.ts:91-131 | after a 404, the first alternate that answers ok with a string `data[0]` answers the request: the calls are the primary POST and the alternate POSTs up to it, in order, and the reply is its audio |
| TtsRoute.SyncResultUnusable | src/app/api/tts/route.ts:259-291 | a synchronous result without a truthy `event_id` and without a string first `data` element fails with 500, the result as details, and no further call |
| TtsRoute.SyncResultClassified | src/app/api/tts/route.ts:259-285 | a synchronous string result is a `data:` URI (the text after its first comma), else an `http` URL (downloaded, 500 when the download throws), else raw audio text; only the download makes a call |
| TtsRoute.UnparseableSubmission | src/app/api/tts/route.ts:176-185 | a 2xx body that is not JSON gives 500 after the one call |
| TtsRoute.ScanFromOnlyDownloads | src/app/api/tts/route.ts:229-237 | the line scan issues no authorised request (downloads only) and answers only with 200 |
| TtsRoute.PollAttemptCount | src/app/api/tts/route.ts:201-206 | each poll attempt issues exactly one poll request |
| TtsRoute.PollBudget | src/app/api/tts/route.ts:195-256 | at most 30 poll requests; the loop ends with 200 or 408, and 408 only after every attempt was spent |
| TtsRoute.AllPollsFail | src/app/api/tts/route.ts:208-212 | when every remaining poll fails, the loop times out after exactly its remaining polls and nothing else |
| TtsRoute.ScanWithoutUrls | src/app/api/tts/route.ts:222-243 | a scan in which no line carries an audio URL finds nothing and issues no request |
| TtsRoute.ScanFoundFromUrl | src/app/api/tts/route.ts:226-237 | audio found by a scan came from a line that carries an audio URL |
| TtsRoute.EventIdShadowsData | src/app/api/tts/route.ts:190-260 | a truthy `event_id` wins over a `data` array in the same body; the reply is 200 or the 408 timeout |
| TtsRoute.DataUriRoundTrip | src/app/api/tts/route.ts:62-269 | the reference audio's `data:audio/wav;base64,<b64>` URI, read back as a synchronous result, yields the same base64 text |
| TtsTestRoute.ScanLines | src/app/api/tts-test/route.ts:86-102 | equals `ScanFrom`: the first `data: ` line whose trimmed content is neither empty nor `null` and parses |
| TtsTestRoute.Inspect | src/app/api/tts-test/route.ts:68-103 | equals `Attempt`: a non-ok poll continues; an error marker fails with 500; a complete body with a parsed line succeeds |
| TtsTestRoute.NonOkPollContinues | src/app/api/tts-test/route.ts:66-69 | a non-ok poll answer gives no reply: the next attempt follows with that poll logged |
| TtsTestRoute.PollEvents | src/app/api/tts-test/route.ts:55-111 | the poll loop equals `PollFrom` |
| TtsTestRoute.ReadSubmission | src/app/api/tts-test/route.ts:33-50 | equals `Submission`, about which `NoPollWithoutEventId` is proved |
| TtsTestRoute.NoPollWithoutEventId | src/app/api/tts-test/route.ts:33-50 | a submission that ends the handler ends it before any poll: a non-ok answer with its own status and status text, a missing or falsy `event_id` with 500 and the parsed body |
| TtsTestRoute.HandleGet | src/app/api/tts-test/route.ts:4-120 | equals `GetSpec`; between 1 and 31 calls, the first being the submission; a timeout comes only after all 30 polls |
| TtsTestRoute.SpecCalls | src/app/api/tts-test/route.ts:25-111 | the handler makes the submission first, then at most 30 polls, and times out only after all 30 |
| TtsTestRoute.AttemptReplies | src/app/api/tts-test/route.ts:77-96 | an attempt that ends the loop answers 200 or 500, never the timeout |
| TtsTestRoute.PollCalls | src/app/api/tts-test/route.ts:58-106 | the poll loop issues only GETs to the event URL, at most its remaining attempts |
| TtsTestRoute.PollTimeout | src/app/api/tts-test/route.ts:58-111 | the timeout comes only after all remaining attempts, each a poll request |
| TtsTestRoute.ThrownPollEndsHandler | src/app/api/tts-test/route.ts:61-119 | a poll that throws ends the handler with the catch-all 500, whatever attempts remain |
| TtsTestRoute.ErrorMarkerWins | src/app/api/tts-test/route.ts:77-85 | `event: error` wins over `event: complete` in the same body |
| TtsTestRoute.DataLineContent | src/app/api/tts-test/route.ts:88-90 | a `data: ` line yields its trimmed rest, unless that is empty or `null` |
| TtsTestRoute.ScanNoneIff | src/app/api/tts-test/route.ts:87-102 | the scan finds nothing exactly when no line yields a result |
| TtsTestRoute.ScanFindsFirst | src/app/api/tts-test/route.ts:87-102 | what the scan finds is the result of some line, and no earlier line yields one |
| TestBlobRoute.RunLength | src/app/api/test-blob/route.ts:88 | the greedy `[^"\n]+`: a maximal run of class characters |
| TestBlobRoute.CaptureAt | src/app/api/test-blob/route.ts:88 | the capture after `data: ` and an optional quote is non-empty, consists of class characters, and is maximal; there is none exactly when no class character follows |
| TestBlobRoute.HandleGet | src/app/api/test-blob/route.ts:5-113 | equals `GetSpec`: the HEAD request first and the submission second; an unreachable file gives 400 after the HEAD alone; a rejected submission gives its own status after two calls; a 2xx reply needs all three calls, the third being the one poll of the event URL for the submitted `event_id` |
| TestBlobRoute.EarlyReplies | src/app/api/test-blob/route.ts:15-78 | the first failing check ends the handler: 400 after the HEAD alone, the submission's own status after two calls, 500 without a truthy `event_id` after two calls; a third call is only ever the single poll of the event URL |
| TestBlobRoute.FirstCaptureLeftmost | src/app/api/test-blob/route.ts:88-89 | the match result is the capture at the leftmost matching index; there is none exactly when no index matches |
| TestBlobRoute.QuotedMessage | src/app/api/test-blob/route.ts:88-89 | `data: "m"` yields `m` without its quotes |
| TestBlobRoute.ErrorMarkerFirst | src/app/api/test-blob/route.ts:83-96 | the status is `error` exactly when the body holds `event: error`, and then the message is the capture or the default |
| TestBlobRoute.ReportSuccess | src/app/api/test-blob/route.ts:98-105 | `success` is false exactly when the data holds the error marker; `eventData` is its first 500 characters |
| Wav.U16RoundTrip | src/utils/tts-api.ts:157-162 | a 16-bit little-endian field reads back as its value modulo 2^16 |
| Wav.U32RoundTrip | src/utils/tts-api.ts:153-164 | a 32-bit little-endian field reads back as its value modulo 2^32 |
| Wav.I16RoundTrip | src/utils/tts-api.ts:176 | a signed 16-bit sample reads back as itself |
| Wav.Clamp | src/utils/tts-api.ts:175 | the sample clamped to [-1, 1], unchanged inside it |
| Wav.Truncate | src/utils/tts-api.ts:176 | `setInt16`'s conversion truncates toward zero |
| Wav.Quantize | src/utils/tts-api.ts:175-176 | samples map into [-32767, 32767], saturating at ±1, keeping the sign |
| Wav.PutHeader | src/utils/tts-api.ts:152-164 | the first 44 bytes of the array become the header and every byte from 44 on is unchanged |
| Wav.EncodeWav | src/utils/tts-api.ts:142-181 | the array holds exactly the byte-level specification `WavFile`: header then interleaved samples |
| Wav.HeaderFields | src/utils/tts-api.ts:152-164 | the header reads back as RIFF, size, WAVE, `fmt `, 16, PCM 1, channels, rate, byte rate, block align, 16 bits, `data`, data length, with the setters' wrap-around |
| Wav.WavHeader | src/utils/tts-api.ts:142-164 | an encoded file is 44 + data bytes long, and its header states its channels, rate and data length |
| Wav.WavSample | src/utils/tts-api.ts:172-179 | the sample of channel `c` in frame `i` is at 44 + 2(i·channels + c) and reads back as its quantized value |
| Wav.OnlyLeadingChannelsRead | src/utils/audio-converter.ts:65-73 | buffers that agree on the channels written encode identically |
| TtsApi.Attempt | src/utils/tts-api.ts:54-89 | equals `TryBody`: a failed status, an empty audio, a JSON error or an `atob` error |
| TtsApi.GenerateVoice | src/utils/tts-api.ts:19-103 | equals `GenerateSpec`; at most one call, none exactly when the checks fail; that call is the POST with the trimmed text; a blob is always `audio/wav` |
| TtsApi.ValidationOrder | src/utils/tts-api.ts:23-33 | the checks run in the order configuration, text, recording, each with its own message |
| TtsApi.FailedStatus | src/utils/tts-api.ts:54-73 | a failed response is reported with its status and the table's message |
| TtsApi.NetworkFailureMessage | src/utils/tts-api.ts:96-98 | a fetch that fails on the network is reported with the network message |
| TtsApi.CatchMessages | src/utils/tts-api.ts:91-102 | errors the function throws itself pass through; every other error becomes the network or the generic message |
| TtsApi.SuccessBlob | src/utils/tts-api.ts:75-89 | a success comes only from an ok reply whose JSON body has a truthy `audio` that `atob` decodes; the blob is `audio/wav` with one byte per character of exactly that decoded text, reading back as the text |
| TtsApi.EmptyAudioReply | src/utils/tts-api.ts:75-79 | an ok reply whose `audio` is missing or falsy fails with the empty-audio message and no status |
| TtsApi.AudioBufferToWav | src/utils/tts-api.ts:132-182 | every channel at the buffer's own rate |
| TtsApi.ConvertAudioToWav | src/utils/tts-api.ts:106-129 | a read failure and a decode failure each give their own message; otherwise the encoded buffer as `audio/wav` |
| AudioConverter.StereoCap | src/utils/audio-converter.ts:33 | at most two channels, and all of them when there are fewer |
| AudioConverter.TargetRate | src/utils/audio-converter.ts:32 | the requested rate when given and non-zero, else the buffer's |
| AudioConverter.AudioBufferToWav | src/utils/audio-converter.ts:31-76 | the WAV of the first two channels at the target rate |
| AudioConverter.ConvertToWav | src/utils/audio-converter.ts:9-26 | a decoding error passes through; otherwise an `audio/wav` blob of the buffer at the requested rate, 44100 by default |
| AudioConverter.ConvertedHeader | src/utils/audio-converter.ts:32-62 | the header declares 1 or 2 channels and the target rate, and the file length matches the data |
| AudioConverter.DefaultRate | src/utils/audio-converter.ts:9 | without a rate, 44100 Hz is declared whatever the buffer's rate |
| AudioConverter.ExtraChannelsIgnored | src/utils/audio-converter.ts:33-73 | channels past the second never affect the file |
| AudioConverter.GetBestSupportedFormat | src/utils/audio-converter.ts:88-105 | the first supported format of the list, or `audio/webm` when none is |
| AudioUpload.DecodedBlob | src/utils/audio-upload.ts:10-20 | fails exactly when `atob` does; otherwise one byte per decoded character, with the given type |
| AudioUpload.Base64ToBlob | src/utils/audio-upload.ts:10-20 | the decoded blob, typed `audio/wav` by default; the bytes read back as the decoded string |
| AudioUpload.Upload | src/utils/audio-upload.ts:26-75 | one service's upload equals `UploadSpec`, whose reading of the reply `OkReplyLink` and `TmpFilesUrl` state |
| AudioUpload.OkReplyLink | src/utils/audio-upload.ts:26-75 | a 2xx body that is not JSON rejects with the parse error and a `null` one with a `TypeError`; file.io resolves with `data.link`, even when it is absent |
| AudioUpload.TmpFilesUrl | src/utils/audio-upload.ts:63-70 | tmpfiles.org resolves with the direct link of a string `data.data.url`; a missing or `null` `data.data` or `url` rejects with the property-read `TypeError` (`'url'`, `'replace'`), and any other `url` because `replace` is not a function |
| AudioUpload.UploadAudio | src/utils/audio-upload.ts:80-98 | the fallback loop equals `UploadFrom` |
| AudioUpload.DirectLinkOfPage | src/utils/audio-upload.ts:69 | `https://tmpfiles.org/<rest>` becomes `https://tmpfiles.org/dl/<rest>` |
| AudioUpload.UploadSpecCalls | src/utils/audio-upload.ts:26-75 | an upload issues nothing, or only the POST of the decoded blob to its service; undecodable base64 fails before any request |
| AudioUpload.FallbackOrder | src/utils/audio-upload.ts:80-98 | tmpfiles.org's success wins without contacting file.io; otherwise file.io's success; otherwise the all-failed error |
| AudioUpload.UploadAudioCalls | src/utils/audio-upload.ts:80-98 | at most two calls, tmpfiles.org first; rejection only with the all-failed error |
| AudioUpload.UndecodableAudio | src/utils/audio-upload.ts:11 | base64 that `atob` rejects fails both services before any request |
| UseRecorder.StartErrorMessage | src/hooks/useRecorder.ts:102-118 | one message per error name, the default for all others |
| UseRecorder.ConcatSize | src/hooks/useRecorder.ts:55-57 | the recorded blob's size is the sum of the chunk sizes |
| UseRecorder.RecordedType | src/hooks/useRecorder.ts:55-57 | the first chunk's type, else `audio/webm`; never empty |
| UseRecorder.Recorder.GetRecordingStatus | src/hooks/useRecorder.ts:148-153 | error, then recording, then completed, then idle, each exactly in its case |
| UseRecorder.Recorder.StartRecording | src/hooks/useRecorder.ts:19-120 | started: recording from zero with a new active recorder, a new stream, no chunks and the timer running; any failure shows the mapped error and leaves the timer and start time alone; a denied microphone touches no ref, a throwing `MediaRecorder` constructor keeps the new stream and the cleared chunks, a throwing `start()` also keeps the new inactive recorder |
| UseRecorder.Recorder.Tick | src/hooks/useRecorder.ts:88-93 | the duration is the whole seconds since the start; everything else, refs and timer included, is unchanged |
| UseRecorder.Recorder.OnDataAvailable | src/hooks/useRecorder.ts:48-52 | only non-empty chunks are kept, in order; nothing else changes |
| UseRecorder.Recorder.OnStop | src/hooks/useRecorder.ts:54-71 | the chunks become the recorded blob; recording ends and the stream is released; the recorder, the timer and the start time are unchanged |
| UseRecorder.Recorder.OnError | src/hooks/useRecorder.ts:73-81 | the error is shown and recording ends; every ref and the timer are unchanged |
| UseRecorder.Recorder.StopRecording | src/hooks/useRecorder.ts:122-131 | only a recorder that is recording is stopped, and its timer with it; the state, stream, chunks, start time and mime type are unchanged |
| UseRecorder.Recorder.ClearRecording | src/hooks/useRecorder.ts:133-146 | back to the initial state, status idle, timer stopped; the recorder, its state and mime type, the stream, the chunks and the start time are untouched, so a running recorder keeps running |
| UseRecorder.RecordSession | src/hooks/useRecorder.ts:19-131 | a granted start, one chunk, ticks 1.5 s and 2.5 s later, a stop and the `stop` event: two seconds shown, the kept chunks as the recorded blob, timer stopped, stream released, status completed |
| UseRecorder.DataUrlPayload | src/hooks/useRecorder.ts:156-168 | a `data:<type>;base64,<payload>` URL yields its payload |
| UseRecorder.NoCommaNoPayload | src/hooks/useRecorder.ts:162 | a string without a comma yields `undefined` |
| VoiceCloner.Title | src/components/VoiceCloner.tsx:188 | the first 20 characters, marked with `...` when cut; the default title for no text |
| VoiceCloner.SentTextIsTrimmed | src/components/VoiceCloner.tsx:52-65 | trimming in the page changes nothing that `generateVoice` sends |
| VoiceCloner.RequestVoice | src/components/VoiceCloner.tsx:60-67 | at most one request, and the one sent is the API POST carrying the data URL's text after its first comma and the trimmed text; a recording with no payload sends nothing and fails |
| VoiceCloner.Cloner.HandleTextChange | src/components/VoiceCloner.tsx:28-31 | the new text, and the error cleared |
| VoiceCloner.Cloner.HandleStartRecording | src/components/VoiceCloner.tsx:33-42 | an earlier recording is cleared; recording starts, or the start error is shown; audio and error cleared |
| VoiceCloner.Cloner.HandleGenerateVoice | src/components/VoiceCloner.tsx:44-81 | no recording and then blank text are reported without a request; otherwise the generated audio is shown, or the earlier audio is kept with the error's message |
| VoiceCloner.Cloner.Settle | src/components/VoiceCloner.tsx:69-80 | the audio is kept, or its message shown; generating is over |
| VoiceCloner.Cloner.CanGenerate | src/components/VoiceCloner.tsx:84 | the generate button is enabled with a recording, non-blank text and no generation under way; `HandleGenerateVoice` makes a request only then |
| VoiceCloner.EnabledNotIdle | src/components/VoiceCloner.tsx:84 | an enabled generate button implies the recorder is not idle |
| RecordButton.Button.constructor | src/components/RecordButton.tsx:16-24 | maximum duration 15 s and not processing by default |
| RecordButton.Button.SyncStatus | src/components/RecordButton.tsx:30-34 | each flag mirrors exactly one status |
| RecordButton.Button.AutoStop | src/components/RecordButton.tsx:37-41 | stop exactly when recording and the limit is reached |
| RecordButton.Button.HandleClick | src/components/RecordButton.tsx:43-49 | stop while recording, start otherwise; nothing while disabled |
| RecordButton.LabelsDiffer | src/components/RecordButton.tsx:58-63 | different statuses get different labels |
| RecordButton.AppearanceAfterStatus | src/components/RecordButton.tsx:30-63 | once the flags follow a status, the status's label, and each of the four colours (recording, done, idle, error) exactly in its own status |
| RecordButton.ClickAfterStatus | src/components/RecordButton.tsx:30-49 | a click stops exactly a recording and starts one in every other status |
| RecordButton.AutoStopAfterStatus | src/components/RecordButton.tsx:21-41 | auto-stop exactly when recording for 15 s or more |
| AudioPlayer.ClockParts | src/components/AudioPlayer.tsx:114-119 | minutes and seconds below 60 that add up to the whole seconds |
| AudioPlayer.FormatTimeRoundTrip | src/components/AudioPlayer.tsx:114-119 | the label of a non-negative time reads back as its whole seconds |
| AudioPlayer.ClockRoundTrip | src/components/AudioPlayer.tsx:114-119 | an `m:ss` label reads back as its total seconds |
| AudioPlayer.UnknownTimeLabel | src/components/AudioPlayer.tsx:114-119 | before metadata is known the label is `0:00` |
| AudioPlayer.SanitizeShape | src/components/AudioPlayer.tsx:108 | the replacement keeps the JavaScript length and leaves only kept characters and `_`; a fully kept title is unchanged |
| AudioPlayer.CleanUnchanged | src/components/AudioPlayer.tsx:108 | a clean name is left unchanged |
| AudioPlayer.SanitizeIdempotent | src/components/AudioPlayer.tsx:108 | sanitising twice is sanitising once |
| AudioPlayer.FileName | src/components/AudioPlayer.tsx:108 | the sanitised title followed by `.wav` |
| AudioPlayer.AstralCharacter | src/components/AudioPlayer.tsx:108 | a character above U+FFFF becomes two underscores |
| AudioPlayer.Player.constructor | src/components/AudioPlayer.tsx:11-19 | no URL, paused at 0 of 0; the default title |
| AudioPlayer.Player.SetTitle | src/components/AudioPlayer.tsx:11-14 | a render with a new `title` prop replaces the title (the default one when the prop is absent) and leaves the blob, URL and playback state as they were |
| AudioPlayer.Player.SetBlob | src/components/AudioPlayer.tsx:24-38 | the previous URL is revoked; a blob gets a new URL; no blob resets the player; the title is unchanged |
| AudioPlayer.Player.OnLoadedMetadata | src/components/AudioPlayer.tsx:45-47 | the duration is the element's; nothing else changes |
| AudioPlayer.Player.OnTimeUpdate | src/components/AudioPlayer.tsx:49-51 | the position is the element's; nothing else changes |
| AudioPlayer.Player.OnEnded | src/components/AudioPlayer.tsx:53-56 | playback stops at `0:00`; nothing else changes |
| AudioPlayer.Player.OnError | src/components/AudioPlayer.tsx:58-61 | playback stops; nothing else changes |
| AudioPlayer.Player.TogglePlay | src/components/AudioPlayer.tsx:76-92 | a playing player pauses; a paused one plays when `play()` resolves; nothing without the element; only `isPlaying` changes |
| AudioPlayer.Player.HandleSeek | src/components/AudioPlayer.tsx:94-101 | the element and the shown position both move to the new time; nothing else changes |
| AudioPlayer.Player.DownloadAudio | src/components/AudioPlayer.tsx:103-112 | a link to the object URL under the sanitised name, only when there is audio |
| AudioPlayer.ReplaceBlob | src/components/AudioPlayer.tsx:24-38 | a replaced blob's URL is revoked, and the new one is in use |
| AudioPlayer.DownloadAfterPlayback | src/components/AudioPlayer.tsx:49-51 | a `timeupdate` leaves the download alone: the blob's URL under the default title's file name |

## Left out

- Fractional JSON numbers: `JNum` holds an integer. The only number the handlers compute is `Math.floor(length * 0.75)`, modelled with integers.
- Strings are sequences of code points, so JavaScript `length` and indexing of characters above U+FFFF are not modelled. The exception is the file-name sanitiser, where such a character yields two underscores.
- Timers: the one-second `setTimeout` waits between polls and the recorder's `setInterval` scheduling. Polls happen back to back, and `Tick` takes the clock reading as a parameter.
- Concurrency: interleaving of awaited promises, React state batching and stale closures. Each handler runs to completion before the next starts.
- Browser media APIs: `getUserMedia`, `new MediaRecorder(...)` and `recorder.start()` are answered by the `StartOutcome` parameter. Failures of `FileReader` and `decodeAudioData`, and closing the `AudioContext`, are reduced to the outcomes they produce. The microphone tracks themselves are not modelled: `hasStream` records only whether the hook holds a stream.
- UseRecorder.Recorder.OnError: the browser's own move of a failed recorder to `inactive`, and the `stop` event it fires next, are not part of this handler; that event is `OnStop`.
- UseRecorder.Recorder.StartRecording: an earlier timer that a second successful start overwrites without clearing is not modelled; `timerRunning` is one flag.
- `JSON.stringify` output, the `Content-Type` header and console logging. Calls record the method, URL, `Authorization` header and body as values.
- Wav.Quantize: does not model IEEE-754 rounding of `sample * 0x7FFF`. The product is exact, and `NaN` samples are not modelled.
- Infinite media durations, and `parseFloat` of the seek input: the new time is a parameter.
- `JSON.parse`, its SyntaxError message, `atob`, the base64 encoding of downloaded bodies, `URL.createObjectURL` and `MediaRecorder.isTypeSupported` (the `isSupported` parameter) are parameters of the model.
- The message of a network `TypeError` differs between runtimes. The model uses Node's `fetch failed`.
- Engine wording of other `TypeError`s: reading a property of `undefined` or `null`, and calling a non-function, use V8's messages (`Cannot read properties of undefined (reading 'url')`, `data.data.url.replace is not a function`); other engines word them differently.
- Rendering: the progress bar, CSS classes other than the button colour, and disabled-state styling.
- TtsRoute.Post: `TtsRequest` holds the two fields as optional strings, so a request whose `text` or `referenceAudioBase64` is a truthy non-string JSON value is not modelled. The route answers `{"text": 5}` with 503 and the `TypeError` message of `text.trim`, and interpolates a non-string `referenceAudioBase64` as its string form. A missing or empty field is modelled.
- The upload-gist, upload-audio, debug and `audio/[id]` routes are not part of this model.

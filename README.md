# golte core, modelled in Dafny

golte bridges a GSM modem to a Discord voice channel. A caller dials the modem
and types a password on the keypad. A voice prompt read from an embedded,
predecoded MP3 cache confirms each digit. Audio flows both ways through ffmpeg
as 16-bit little-endian PCM.

This project models the deterministic core of that system and proves its
properties. One Dafny module stands for each core Go file:

- `Call` (`call.dfy`): the AT call-control layer.
  - The `+CLCC` parser, field layout from section 7.18 of 3GPP TS 27.007.
  - The command strings: dial and answer from section 6.3 of ITU-T V.250, hang-up and hold from section 7.13 of 3GPP TS 27.007, and mute.
  - The mute-status replies.
  - The worker's start and stop flags, and its diff between two polls.
- `Modem` (`modem.dfy`): the incoming-call and DTMF handlers, the password state machine, and SMS routing.
- `Ffmpg` (`ffmpg.dfy`): the sample codec, and the frame provider that cuts ffmpeg's output into frames of 960 samples per channel.
- `Receiver` (`receiver.dfy`): the process that encodes PCM and writes it to ffmpeg, with its set of active users.
- `PcmStreamer` (`pcm_streamer.dfy`): the streamer that turns a FIFO of PCM packets into stereo frames, with its close and reopen lifecycle.
- `Playback` (`playback.dfy`): the playback bus, which holds the mixer contents, the prompt queue and the pause switch.
- `Sources` (`sources.dfy`): prompt lookup, which yields the sample window `[3000, len - 7000)` of a cached buffer.
- `Assets` (`assets.dfy`): the once-loaded prompt cache, with keys of the form `audio/<name>`.
- `Generate` (`generate.dfy`): `toASCII`, which derives prompt file names from spoken sentences.
- `CmdConfig` (`cmd_config.dfy`): the token and URL display masks.
- `Config` (`config.dfy`): configuration validation and the text of its errors.

Shared modules:

- `Wrappers`: `Option`, `Result` and an order-keeping filter.
- `GoStrings`: the Go `strings` and `strconv` functions the core calls.
- `Beep`: the audio library's formats, buffers and streamers, as opaque tokens.

Representation choices:

- Strings are sequences of characters. Where Go measures or slices bytes (tokens, URLs), one character stands for one byte. SMS routing measures the UTF-8 length explicitly.
- Objects whose fields the Go code updates are classes, and their methods are proved against specification functions:
  - `ProvidePCMFrame` against `DecodeLE`;
  - `Stream` against `FillFrames`;
  - `LoadAllAudio` against `Loaded`;
  - `GetCallStatus` against `ListedCalls`.
- I/O becomes parameters:
  - the AT transport's reply;
  - the bytes ffmpeg will write;
  - how many bytes a pipe accepts;
  - the directory listing and each file's decode result;
  - the speaker's start-up error.

The prompt paths the modem queues are `PromptPath(name)`, which is `audio/<name>.mp3`. The names are the ones `toASCII` gives for the generator's sentences and digits:

- `Generate.WelcomePromptName` covers the greeting.
- `Generate.CorrectPromptName` covers the confirmation.
- `Generate.DigitPromptName` covers the digits.

`Playback.Stop` and `Playback.Close` empty the whole mixer, prompt queue included. After either of them, prompts that `AddPredecoded` queues are held in the queue but no longer mixed. The model keeps this behaviour as written.

## Model

| member | source | states |
|---|---|---|
| Call.InfoLine | call/call.go:104-107 | the line `cmd: body` is recognised as answering `cmd`, and its payload after the prefix is `body` |
| Call.CodeName | call/call.go:122-160 | the result is a name of the table or `UNKNOWN`, never an error; the one-digit text of a code inside the table names that code's entry; text that is no code of the table is `UNKNOWN` |
| Call.CodeNameOfItoa | call/call.go:122-160 | CodeName of the decimal text of any code is the table's entry for that code, and `UNKNOWN` past the table |
| Call.ClccFields | call/call.go:106-107 | splitting the text after the `+CLCC` prefix on commas yields at least one field |
| Call.ParseClccFields | call/call.go:109-172 | fewer than five fields is `invalid CLCC response format`; a first field that is not a 64-bit integer is an `invalid call index: ` error; on success the index is the value of the trimmed first field; direction, status and mode are the trimmed second, third and fourth fields read through their code tables, so each is a name of its table or `UNKNOWN`; the number is the sixth field with surrounding white space and quotes removed, and the type is the trimmed seventh field; each is empty when its field is absent |
| Call.ParseFieldsIgnored | call/call.go:114-171 | the multiparty field, and any field past the seventh, never change what a row parses as |
| Call.ParseCallStatus | call/call.go:104-111 | a line with fewer than four commas after the `+CLCC` prefix fails with `invalid CLCC response format` |
| Call.ParseFormatted | call/call.go:104-173 | parsing the `+CLCC` line a modem sends for any row, with a number free of quotes and commas, gives back that row with its codes read through the tables |
| Call.ParseIncomingExample | call/call.go:162-170 | `+CLCC: 1,1,4,0,0,"+15551234567",129` parses to index 1, MT, INCOMING, VOICE, `+15551234567`, `129` |
| Call.ClccCall | call/call.go:91-95 | a response line contributes a call exactly when it has the `+CLCC` prefix and parses; the call is its parse |
| Call.ListedCallsSpec | call/call.go:89-99 | ListedCalls: a call is listed exactly when it is the parse of some `+CLCC` line of the response; listing a concatenation lists each part in order; there are never more calls than lines |
| Call.GetCallStatus | call/call.go:83-100 | a transport error yields no calls and that error; otherwise the result is the listed calls of the response, in response order |
| Call.DialCommand | call/call.go:47-51 | the dial command is `D`, then the number unchanged and unchecked, then `;` |
| Call.HangUpSpecificCommand | call/call.go:69-79 | an index of zero or below gives `+CHUP`; a positive index gives `+CHLD=1` followed by exactly the index's decimal text, which parses back to the index |
| Call.MuteCommand | call/call.go:177-186 | `+CMUT=` followed by `1` when muting and `0` otherwise |
| Call.VMuteCommand | call/call.go:209-218 | `+VMUTE=` followed by `1` when muting and `0` otherwise |
| Call.FirstInfoIndex | call/call.go:196-197 | the position found carries the command's prefix, and no line before it does; it is the reply's length when no line does |
| Call.FirstInfoFlag | call/call.go:196-204 | the first line carrying the command's prefix decides, and it means on exactly when its trimmed value is `1`; a reply without such a line gives the not-found error |
| Call.InfoFlagStatus | call/call.go:190-237 | `GetMuteStatus` and `GetVMuteStatus`: a transport error is passed through; otherwise the first `+CMUT:` (or `+VMUTE:`) line decides as `FirstInfoFlag` states, and its absence gives `no mute status found in response` (or `no voice mute status found in response`) |
| Call.InfoFlagLine | call/call.go:197-200 | a one-character reply value reads as on exactly when it is `1` |
| Call.MuteReadBack | call/call.go:177-237 | a reply that echoes the value a mute command set reads back as that setting, for both `+CMUT` and `+VMUTE` |
| Call.LastRow | call/call.go:293-296 | the position found holds a row with the index, and no later row does; -1 when no row does |
| Call.IndexMap | call/call.go:293-296 | the map of a poll has exactly the indices of its calls, each keyed by its own index; the value under an index is the poll's last row with that index |
| Call.StaysIncomingFiresOnce | call/call.go:299-309 | a call that stays INCOMING across two successful polls fires at the first only if it was absent or not INCOMING before, and never at the second |
| Call.CurrentCalls | call/call.go:293-296 | the loop builds exactly the poll's index map |
| Call.NewlyIncoming | call/call.go:299-309 | the callback receives exactly the calls that are INCOMING and were absent or in another status in the previous poll, each once |
| Call.CallManager.constructor | call/call.go:28-33 | a new manager has no worker running |
| Call.CallManager.StartWorker | call/call.go:241-255 | fails and changes nothing when a worker already runs or there is no callback; otherwise the worker runs with an empty snapshot |
| Call.CallManager.StopWorker | call/call.go:258-263 | cancels and clears the running flag only when a worker runs; otherwise nothing changes |
| Call.CallManager.WorkerTick | call/call.go:285-311 | a failed poll reports nothing and changes nothing; a successful one reports exactly the newly incoming calls, each once, and becomes the new snapshot |
| Call.CallManager.IsWorkerRunning | call/call.go:266-268 | reports the running flag |
| GoStrings.TrimSpace | call/call.go:117 | the result has no white space at either end, is never longer, and is the input when that has none at either end |
| GoStrings.TrimSpaceSlice | call/call.go:117 | TrimSpace keeps the middle: the result is a contiguous slice of the input, and everything dropped before and after it is white space |
| GoStrings.TrimChar | call/call.go:164 | the result neither starts nor ends with the character, is never longer, and a string without the character is unchanged |
| GoStrings.TrimCharSlice | call/call.go:164 | TrimChar keeps the middle: the result is a contiguous slice of the input, and everything dropped before and after it is the character |
| GoStrings.Split | call/call.go:107 | there is always at least one piece, and no piece contains the separator |
| GoStrings.SplitJoin | call/call.go:107 | joining the pieces with the separator gives the input back |
| GoStrings.JoinSplit | call/call.go:107 | splitting a join of separator-free pieces gives the pieces back |
| GoStrings.SplitCount | call/call.go:107-109 | there is one more piece than there are separators |
| GoStrings.Atoi | call/call.go:117 | succeeds exactly on text that is an optional `+` or `-` followed by at least one digit whose signed decimal value is within 64 bits, and then gives that value |
| GoStrings.ItoaAtoi | call/call.go:76 | formatting a 64-bit integer in decimal and parsing it back gives the integer |
| Modem.PromptPath | machine/modem.go:99 | a prompt path is `audio/`, the name, then `.mp3` |
| Modem.NewState | machine/modem.go:34-36 | a fresh state has an empty password |
| Modem.DtmfStep | machine/modem.go:94-105 | `#` clears the password and queues nothing; any other key appends itself and queues its own prompt first; a second prompt is queued exactly when the new password equals `52226636`, and it is the confirmation |
| Modem.DtmfRunPassword | machine/modem.go:94-100 | DtmfRun: after any key presses the password is what was typed since the last `#`, or the old password followed by everything typed when there was no `#` |
| Modem.ConfirmedAtMostOnce | machine/modem.go:100-105 | DtmfRun: between resets the confirmation is queued at most once, and never once the password is already eight characters long |
| Modem.PasswordCompletion | machine/modem.go:99-105 | typing 6,6,3,6 after `5222` completes the password and queues the confirmation last |
| Modem.CorrectPasswordExample | machine/modem.go:91-106 | typing 5,2,2,2,6,6,3,6 from a fresh state gives `52226636`, eight digit prompts and then one confirmation |
| Modem.ResetExample | machine/modem.go:91-106 | typing 1,2,3,# from a fresh state gives an empty password, three digit prompts and no confirmation |
| Modem.Utf8Length | machine/modem.go:117-120 | a string's UTF-8 length is between one and four bytes per character |
| Modem.SmsRouteThreshold | machine/modem.go:120-125 | SmsRoute: an ASCII message goes long exactly beyond 160 characters; any message longer than 160 characters goes long; 81 two-byte characters already go long |
| Modem.ModemManager.constructor | machine/modem.go:39-46 | a new manager has no keypad state, no prompts and no notifications |
| Modem.ModemManager.OnIncomingCall | machine/modem.go:81-89 | notifies the owner with the incoming-call message, answers once, resets the password and queues the greeting |
| Modem.ModemManager.OnDtmf | machine/modem.go:91-106 | the new state and the prompts queued are those of one DTMF step from the old password; notifications and answers are unchanged |
| Ffmpg.DecodeSample | ffmpg/ffmpg.go:100 | the sample is the little-endian unsigned value of the two bytes, minus 2^16 when that value is 2^15 or more |
| Ffmpg.DecodeEncodeSample | ffmpg/receiver.go:117-119 | decoding the two bytes written for a sample gives the sample back |
| Ffmpg.EncodeDecodeSample | ffmpg/ffmpg.go:99-101 | encoding a decoded sample gives back the two bytes it came from |
| Ffmpg.DecodeLE | ffmpg/ffmpg.go:97-101 | a byte stream decodes to half as many samples; a trailing odd byte is ignored |
| Ffmpg.EncodeLE | ffmpg/receiver.go:116-119 | samples encode to exactly two bytes each |
| Ffmpg.DecodeLEAt | ffmpg/ffmpg.go:99-101 | sample `i` is decoded from bytes `2i` and `2i+1` |
| Ffmpg.EncodeLEAt | ffmpg/receiver.go:117-119 | byte `2i` is the low byte and byte `2i+1` the high byte of sample `i` taken modulo 2^16 |
| Ffmpg.DecodeEncode | ffmpg/ffmpg.go:99-101 | decoding the receiver's encoding of any samples gives them back |
| Ffmpg.EncodeDecode | ffmpg/receiver.go:116-119 | encoding the decode of an even-length byte stream gives the bytes back |
| Ffmpg.DecodeAppend | ffmpg/ffmpg.go:83-103 | decoding an even-length prefix followed by more bytes is the prefix's decode followed by the rest's |
| Ffmpg.DecodeFrame | ffmpg/ffmpg.go:97-101 | the loop fills a fresh array with exactly the decode of the frame's bytes |
| Ffmpg.AdvanceFrame | ffmpg/ffmpg.go:85-88 | reading one more full frame extends the decode of the consumed bytes by that frame's decode |
| Ffmpg.AudioProvider.constructor | ffmpg/ffmpg.go:63-71 | nothing has been read, and the whole output is pending |
| Ffmpg.AudioProvider.ProvidePCMFrame | ffmpg/ffmpg.go:83-104 | on a closed or empty pipe: end of stream, `done` is fired, and nothing is consumed. With fewer bytes than a frame: the wrapped read error, and the pipe is drained. Otherwise: exactly 960 × channels × 2 bytes are consumed and decode to exactly 960 × channels samples. In every case the samples delivered so far stay the decode of the framed prefix |
| Ffmpg.AudioProvider.Close | ffmpg/ffmpg.go:106-109 | closes the pipe and fires `done`; nothing read is undone |
| Receiver.ALSAReceiver.constructor | ffmpg/receiver.go:38-55 | no users, standard input open, nothing written |
| Receiver.ALSAReceiver.ReceivePCMFrame | ffmpg/receiver.go:103-127 | the user is recorded even on failure. Without standard input: `ffmpeg stdin is not available`, and nothing is written. Otherwise the pipe receives the little-endian encoding of the frame: all of it, or on a short write the accepted prefix and the wrapped write error |
| Receiver.ALSAReceiver.CleanupUser | ffmpg/receiver.go:129-133 | removes only that user |
| Receiver.ALSAReceiver.Close | ffmpg/receiver.go:135-153 | empties the user set, drops standard input, cancels, and signals `done`, which may happen only once |
| Receiver.ALSAReceiver.ProcessExited | ffmpg/receiver.go:84-98 | the process ending cancels the context; an error exit also drops standard input |
| Receiver.WrittenFramesDecode | ffmpg/receiver.go:116-122 | the bytes of successive frames decode back to those frames' samples in order |
| PcmStreamer.PacketFeed.constructor | playback/pcm_streamer.go:21 | the channel holds the given packets in order |
| PcmStreamer.FillFrames | playback/pcm_streamer.go:63-83 | keeps the cursor and even packets; when not starved it yields exactly the frames wanted; starvation leaves fewer frames, an empty queue and a used-up packet |
| PcmStreamer.FillFramesStream | playback/pcm_streamer.go:63-85 | frame `k` is samples `2k` and `2k+1` of everything remaining; the leftover carries over to the next call; the queue runs dry exactly when fewer than twice the wanted samples remain |
| PcmStreamer.StreamsInOrderStep | playback/pcm_streamer.go:75-82 | taking one frame from the current packet keeps the frames in stream order |
| PcmStreamer.CopyFrames | playback/pcm_streamer.go:63-83 | the loop writes exactly the frames `FillFrames` describes and leaves the cursor and queue it describes |
| PcmStreamer.PCMStreamer.constructor | playback/pcm_streamer.go:29-35 | open, empty buffer at index 0, and a silence packet of 960 × 2 zero samples |
| PcmStreamer.PCMStreamer.Stream | playback/pcm_streamer.go:53-86 | a closed streamer returns (0, false) and touches nothing. Otherwise it writes the frames `FillFrames` gives and returns (len, true) when filled. A close signalled while waiting returns (0, false) even after frames were written |
| PcmStreamer.PCMStreamer.Close | playback/pcm_streamer.go:41-51 | the first call succeeds and later ones give `already closed`; the streamer stays closed |
| PcmStreamer.PCMStreamer.Reopen | playback/pcm_streamer.go:94-100 | a fresh open streamer on the same packet queue and silence packet, with an empty buffer |
| PcmStreamer.PCMStreamer.Share | playback/pcm_streamer.go:95-99 | the streamer `Reopen` builds: open and empty, with the given queue and silence |
| PcmStreamer.PCMStreamer.GetStreamerFormat | playback/pcm_streamer.go:89-91 | 48000 Hz and 2 channels |
| PcmStreamer.StreamFillsAll | playback/pcm_streamer.go:63-85 | with at least twice the wanted samples remaining, every frame is filled |
| Playback.Conformed | playback/playback.go:53-62 | a stream is resampled, with quality 4 to the bus rate, exactly when its rate differs |
| Playback.Playback.constructor | playback/playback.go:20-30 | open, playing, no streamers, and the mixer holds exactly the prompt queue |
| Playback.Playback.AddStream | playback/playback.go:39-65 | fails on a closed bus or a failing source and changes nothing; otherwise appends the conformed stream once to both `streamers` and the mixer |
| Playback.Playback.AddPredecoded | playback/playback.go:68-79 | ignores `closed` and leaves `streamers` and the mixer alone. A missing prompt gives the not-found error. A found one is appended to the prompt queue, always through a resampler |
| Playback.Playback.Pause | playback/playback.go:104-113 | pauses only an open bus |
| Playback.Playback.Resume | playback/playback.go:116-125 | resumes only an open bus |
| Playback.Playback.Stop | playback/playback.go:128-138 | on an open bus, empties the mixer (prompt queue included) and `streamers`; on a closed bus nothing changes |
| Playback.Playback.Close | playback/playback.go:141-160 | never fails; the first call closes and empties the bus, and later calls change nothing |
| Playback.Playback.IsPlaying | playback/playback.go:163-176 | playing exactly when open and not paused |
| Playback.NewPlayback | playback/playback.go:13-36 | a speaker error gives only the wrapped error; otherwise a fresh open bus mixing only the prompt queue |
| Sources.PredecodedGetStreamer | playback/sources.go:13-27 | an unknown path gives `predecoded audio not found: <path>`; a known one gives the cached format and plays exactly samples `[3000, len - 7000)` of the cached buffer |
| Assets.KeyOf | assets/assets.go:57 | an entry's key is `audio/` followed by exactly its name |
| Assets.EntryOf | assets/assets.go:86-90 | a stored entry holds the decoded buffer with that buffer's format |
| Assets.LoadedKeys | assets/assets.go:53-63 | Loaded: after loading, a key is present exactly when some non-directory entry has it and its load succeeded |
| Assets.LoadedEntries | assets/assets.go:76-90 | Loaded: a loaded entry holds the buffer its file decoded to, and that buffer's format |
| Assets.PredecodedCache.constructor | assets/assets.go:36-38 | the cache starts empty |
| Assets.PredecodedCache.PreloadFile | assets/assets.go:69-94 | a decoded file is stored under its path; an open or decode failure leaves the cache alone and gives the matching message |
| Assets.PredecodedCache.LoadAllAudio | assets/assets.go:45-66 | a listing failure is fatal and loads nothing; otherwise the cache ends up holding exactly the loaded entries, with failed files skipped |
| Assets.PredecodedCache.GetAudio | assets/assets.go:97-103 | finds an entry exactly when the key is present, returns the stored entry, and reads without changing anything |
| Assets.AssetsPackage.constructor | assets/assets.go:28-31 | no cache instance yet |
| Assets.AssetsPackage.GetPredecodedCache | assets/assets.go:34-42 | loads on the first call only; every later call returns the same instance |
| Generate.FilterKept | tools/generate.go:52-60 | the filter keeps only ASCII letters, digits and white space, and never lengthens the text |
| Generate.FilterKeptMembers | tools/generate.go:52-60 | a character survives exactly when it is in the text and is an ASCII letter, digit or white space |
| Generate.FilterKeptAppend | tools/generate.go:52-60 | filtering works piece by piece and keeps order |
| Generate.DroppedTail | tools/generate.go:52-60 | kept text followed by dropped characters filters to the kept text |
| Generate.LowerChar | tools/generate.go:62 | upper-case ASCII letters map to lower case, and every other character is unchanged |
| Generate.Lower | tools/generate.go:62 | lower-casing maps every character on its own |
| Generate.Underscored | tools/generate.go:66 | the length is kept; each space becomes exactly one `_` and runs are not collapsed; other characters are unchanged |
| Generate.ToAsciiName | tools/generate.go:62-73 | ToAscii: every name produced is non-empty, has no ' ' and no upper-case letter, and no white space at either end |
| Generate.ToAsciiEmpty | tools/generate.go:68-71 | ToAscii: the result is the empty-name error exactly when the text holds no kept character other than white space |
| Generate.ToAsciiOf | tools/generate.go:52-73 | ToAscii: text whose filtered, lower-cased form has no white space at either end is named by that form, underscored |
| Generate.TwoRunName | tools/generate.go:52-73 | two runs of kept text, each followed by dropped characters, are named after the runs lower-cased, underscored and joined |
| Generate.WelcomePromptName | tools/generate.go:19 | "Bonjour, veuillez entrez votre mot de passe." names the greeting the modem queues on every call |
| Generate.CorrectPromptName | tools/generate.go:20 | "Mot de passe correct." names the confirmation the modem queues |
| Generate.DigitPromptName | tools/generate.go:22-24 | each digit names itself, which is the prompt the modem queues for that digit |
| CmdConfig.MaskToken | cmd/config.go:88-94 | ends in `***`; what precedes it is a prefix of the token, empty up to 8 bytes and 8 bytes long otherwise |
| CmdConfig.MaskUrl | cmd/config.go:96-102 | ends in `***`; what precedes it is a prefix of the URL, empty up to 20 bytes and 20 bytes long otherwise |
| CmdConfig.MaskTokenSame | cmd/config.go:88-94 | two tokens mask alike exactly when both are short, or both are long with the same first 8 bytes |
| CmdConfig.MaskUrlSame | cmd/config.go:96-102 | two URLs mask alike exactly when both are short, or both are long with the same first 20 bytes |
| Config.Validate | config/config.go:80-88 | accepts exactly the configurations with a token and a webhook URL. A missing token is reported first, with field `discord.token`. Otherwise a missing URL is reported with field `discord.webhook_url` |
| Config.ValidateDiscordOnly | config/config.go:80-88 | validation ignores the modem and logging sections |
| Config.Error | config/config.go:96-98 | the text is the field, then `: `, then the message |
| Config.ErrorColon | config/config.go:96-98 | when the field has no colon, the first colon of the text ends the field |
| Config.ErrorInjective | config/config.go:96-98 | for fields without a colon, two errors have the same text exactly when they are equal |
| Config.ValidationTable | main_test.go:16-52 | the valid configuration passes; a missing token fails on `discord.token`; a missing webhook URL fails on `discord.webhook_url` |

## Left out

- Everything that talks to the outside world is not modelled, only the values it hands the core:
  - the serial line and the AT library;
  - ffmpeg processes (`New`, `Wait`, `createFFmpegProcess`);
  - the speaker;
  - the embedded file system and MP3 decoding;
  - Discord;
  - viper (`LoadConfig`) and logging.
- Timers and goroutines are not modelled: the worker's ticker, `time.Sleep` before the greeting, and the monitoring goroutine, whose exit is the event `ProcessExited`. Locks are not modelled either; every method runs atomically.
- Floating point is not modelled: the division of samples by 32767, `fadeLevel`, `lastFrame`, the volume effect on prompts (`effects.Volume`, base 2, volume -0.5), resampling arithmetic and mixing. Streamers are tokens that record how they were built.
- `Playback.SetVolume` is not modelled: it works on a floating-point volume. It re-adds `streamers` with a volume and so drops the prompt queue from the mixer.
- The Queue type behind `AddPredecoded` is not part of this model. The prompt queue is the sequence of streamers added to it.
- `toASCII`'s Unicode decomposition and removal of combining marks is not modelled. `Generate.ToAscii` takes the text after that step. Unicode letter and digit classes matter only up to code point 127, since the filter drops everything above it.
- Call.NewlyIncoming: Go visits a map in an unspecified order, so the contract fixes which calls are reported and that each is reported once, but not their order.
- Call.CallManager.StopWorker: the worker's deferred reset of the running flag on exit is folded into `StopWorker`.
- PcmStreamer.PCMStreamer.Stream: when a packet and the close signal are both ready, Go's `select` may take either. The model takes the packet. The close signal is the parameter `closedWhileWaiting`, and the `Waiting` result stands for a call still blocked on the channel.
- Ffmpg.AudioProvider.ProvidePCMFrame: read errors other than end of file and a closed pipe are not modelled. The reader's internal buffer is not modelled either, so after `Close` the pipe yields nothing.
- Receiver.ALSAReceiver.ReceivePCMFrame: how many bytes a write accepts, and the text of the write error, are parameters.
- Modem.ModemManager.OnDtmf: a key other than `#` requires the state that an incoming call creates. Before the first call the Go handler dereferences a nil state.
- PcmStreamer.PCMStreamer.Stream: requires `EvenPackets`, that every queued packet has an even number of samples. On an odd-length packet Go's inner loop reads `s.pcm[s.pcmIdx+1]` past the end and panics (playback/pcm_streamer.go:75-81). The queue is filled by `OpusPCMReceiver.ReceivePCMFrame` (ffmpeg/opus_receiver.go:34-36), which forwards the packets of the voice library's stereo decoder unchanged, and those hold interleaved left and right samples.
- Receiver.ALSAReceiver.Close: requires that it was not closed before. A second call closes the `done` channel twice, which panics in Go.
- Sources.PredecodedGetStreamer: requires a cached buffer of at least 10000 samples. A shorter buffer makes the slice `[3000, len - 7000)` panic in the audio library.
- Assets.AssetsPackage.GetPredecodedCache: a listing failure ends the process in Go. Here it is the `fatal` result.
- The modem's welcome base name is written as the concatenation of its three runs. The value is the same as the single literal in the Go code.
- `Initialize` is not modelled: it opens the serial line and initialises the modem library. The handlers it registers through `StartListening`, `SetDTMFHandler` and `EnableDTMFDetection` are the methods `OnIncomingCall` and `OnDtmf`. Those three registration calls are not defined in call/call.go, so the call-side event plumbing is not part of this model.
- `SendSMS` is modelled only as the choice between a long and a short message. Sending belongs to the modem library.

# Voice studio: PCM decoding, WAV encoding and the playback controller

This project models the one component of the script-to-speech web app that
holds real logic: `components/VoiceStudio.tsx`. It has two parts.

- **A PCM-to-WAV codec.**
  - `decodeAudioData` reads raw 16-bit little-endian PCM into an
    `AudioBuffer` of normalised samples (module `Pcm`, file `pcm.dfy`).
  - `bufferToWav`, with its `setUint16` and `setUint32` helpers, writes
    such a buffer as a RIFF/WAVE file with WAVE_FORMAT_PCM data (module
    `Wav`, file `wav.dfy`). The file layout follows the "fmt " chunk
    definition of the Microsoft/IBM *Multimedia Programming Interface and
    Data Specifications 1.0*.
- **The playback and generation controller.** This covers `stopAudio`,
  `playBuffer`, `togglePlayback` and `handleGenerateAudio`, plus the
  `scriptContent` effect and `source.onended` (module `VoiceStudio`, file
  `controller.dfy`).

`results.dfy` holds the `Option` and `Result` types. `null` becomes `None`,
and a thrown exception becomes `Err`.

The imperative code stays imperative.
- `Pcm.DecodeAudioData` fills each channel's array with the two nested
  loops of the source.
- `Wav.BufferToWav` allocates a zero-filled `array<Byte>` and writes it
  through the moving cursors `pos` and `offset`:
  - the header goes through `SetUint16` and `SetUint32`;
  - then the `while` loop interleaves the samples.
- Each of these methods is proved against a specification function:
  `Pcm.Decode` for the decoder, `Wav.WavFile` for the encoder as written
  and `Wav.IntendedWavFile` for the corrected one (see Findings).
- The controller is the class `VoiceStudio.Studio`.
  - Its fields are the component's React state and refs. In addition, it
    keeps a log of the source nodes created and the ids of those stopped.
  - Each handler is a method whose new state is stated as a pure function
    of the old state: `Stopped`, `Played`, `Generated`, `Toggled`, and so
    on.
  - The properties are proved about those functions. The chief one is the
    invariant `StudioState.Valid`: at most one source node is ever live,
    and it is the one `sourceNodeRef` holds.

Samples are exact `real`s.
- A value `n / 32768` is exact in IEEE doubles.
- Its products by 32767 and 32768 need fewer than 53 bits, so they are
  exact too.

Where the component's documentation and its code disagree, the model
follows the code:
- Empty PCM is not decoded to a zero-frame buffer.
  - `createBuffer` throws for zero frames.
  - So `Decode` returns `Err(BufferRejected)` (`EmptyPcmRejected`), and
    generation reports the error message.
- Decoding and then encoding is not the identity. It shifts every value in
  `-16384 <= n < 0` and every positive value by one toward zero
  (`Requantized`).
- `togglePlayback` regenerates only when a download URL exists and there is
  no buffer. It does not regenerate merely because there is no buffer.
  - In every state the controller reaches, a URL implies a buffer.
  - So that branch is dead (`ToggleNeverRegenerates`).
- Object URLs are never revoked. The model keeps each new URL and revokes
  nothing.
- PCM of odd byte length is not decoded with its partial sample dropped.
  - `new Int16Array` throws a RangeError for it.
  - So `Decode` returns `Err(OddByteLength)`, and generation reports the
    error message.
- The encoder does not scale every negative sample by 32768. It does so
  only when `0.5 + sample < 0`, that is below -0.5. Samples in
  `-0.5 <= sample < 0` are scaled by 32767 (`EncodeSample`,
  `DecodeEncodeSample`).

## Model

| member | source | states |
|---|---|---|
| Pcm.Int16Samples | components/VoiceStudio.tsx:17 | The `Int16Array` view of an even-length byte buffer has half as many elements, and each is a signed 16-bit value. |
| Pcm.Int16SamplesAt | components/VoiceStudio.tsx:17 | Element k of the `Int16Array` view is the int16 read little-endian from bytes 2k and 2k + 1. |
| Pcm.ReadInt16Le | components/VoiceStudio.tsx:17 | An element read from two bytes is an int16 congruent, modulo 2^16, to low byte + 256 * high byte. |
| Pcm.Deinterleave | components/VoiceStudio.tsx:18-25 | One channel of interleaved samples holds one sample per whole frame (`length / numChannels`). |
| Pcm.DeinterleaveAt | components/VoiceStudio.tsx:25 | Element i of channel c is interleaved sample `i * numChannels + c`, and that index is in bounds. |
| Pcm.Normalized | components/VoiceStudio.tsx:25 | Every normalised sample times 32768 is the original int16. |
| Pcm.Decode | components/VoiceStudio.tsx:11-29 | Decoding succeeds exactly when the byte length is even, there is at least one channel and `createBuffer` accepts the frame count and rate (`CreateBufferAccepts`: at least one channel, at least one frame, a rate in [3000, 768000]). An odd length is the `Int16Array` error. A result has one channel array per channel, each `bytes / 2 / numChannels` frames long, at the given rate. |
| Pcm.EmptyPcmRejected | components/VoiceStudio.tsx:17-19 | Empty PCM does not decode to a zero-frame buffer: `createBuffer` rejects the zero length, whatever the rate and channel count. |
| Pcm.DecodeSampleAt | components/VoiceStudio.tsx:17-27 | Sample i of channel c is the int16 at byte offset `2 * (i * numChannels + c)`, over 32768. |
| Pcm.DecodedInRange | components/VoiceStudio.tsx:25 | Every decoded sample lies in [-1, 1). |
| Pcm.DecodeAudioData | components/VoiceStudio.tsx:11-29 | The nested loops fill the channel arrays with exactly the buffer that `Decode` describes, errors included. |
| Wav.Uint16Le | components/VoiceStudio.tsx:76 | `setUint16` writes two bytes; their values are given by `Uint16RoundTrip`. |
| Wav.Uint32Le | components/VoiceStudio.tsx:81 | `setUint32` writes four bytes; their values are given by `Uint32RoundTrip`. |
| Wav.Int16Le | components/VoiceStudio.tsx:68 | `setInt16` writes two bytes for an int16; their values are given by `Int16RoundTrip`. |
| Wav.Uint16RoundTrip | components/VoiceStudio.tsx:75-78 | The bytes `setUint16` writes read back, little-endian, as the value modulo 2^16. |
| Wav.Uint32RoundTrip | components/VoiceStudio.tsx:80-83 | The bytes `setUint32` writes read back, little-endian, as the value modulo 2^32. |
| Wav.Int16RoundTrip | components/VoiceStudio.tsx:68 | The bytes `setInt16` writes for an int16 read back with `getInt16` as that int16. |
| Wav.Clamp | components/VoiceStudio.tsx:66 | The clamped sample lies in [-1, 1]. It is the sample itself inside that range and the nearer bound outside it. |
| Wav.Trunc | components/VoiceStudio.tsx:67 | `x \| 0` rounds toward zero: the result is within one of x, on zero's side. |
| Wav.EncodeSample | components/VoiceStudio.tsx:66-67 | Every encoded sample is an int16. Samples at or below -1 give -32768, and samples at or above 1 give 32767. |
| Wav.DecodeEncodeSample | components/VoiceStudio.tsx:66-67 | Decoding an int16 n and encoding it again gives n when n is 0 or below -16384, n + 1 when -16384 <= n < 0, and n - 1 when n > 0. |
| Wav.RiffChunkHead | components/VoiceStudio.tsx:44-46 | The RIFF chunk head is 12 bytes; its fields are given by `RiffChunkHeadFields`. |
| Wav.FmtFormat | components/VoiceStudio.tsx:48-51 | The first half of the "fmt " chunk is 12 bytes: tag, chunk size, format tag, channel count. |
| Wav.FmtRates | components/VoiceStudio.tsx:52-55 | The second half of the "fmt " chunk is 12 bytes: sample rate, byte rate, block alignment, bits per sample. |
| Wav.FmtChunk | components/VoiceStudio.tsx:48-55 | The "fmt " chunk is 24 bytes; its fields are given by `FmtChunkFields`. |
| Wav.DataChunkHead | components/VoiceStudio.tsx:57-58 | The data chunk head is 8 bytes; its fields are given by `DataChunkHeadFields`. |
| Wav.TagBytes | components/VoiceStudio.tsx:44-57 | The four tag constants written with `setUint32` are the ASCII bytes of "RIFF", "WAVE", "fmt " and "data". |
| Wav.Header | components/VoiceStudio.tsx:43-58 | The header written before the data is 44 bytes long; its fields are stated by `WavLayout` and the field lemmas. |
| Wav.FirstFrame | components/VoiceStudio.tsx:64 | The data loop, entered with frame index `start`, writes from frame `start` on, or from none once `start` reaches the frame count: the result is the smaller of `start` and the frame count. |
| Wav.Skipped | components/VoiceStudio.tsx:41-64 | The data loop skips the first 44 frames, because the header leaves the cursor at 44, or every frame when there are fewer than 44. |
| Wav.FrameBytes | components/VoiceStudio.tsx:65-69 | The encoding of the first k channels of a frame is 2k bytes long. |
| Wav.FramesBytes | components/VoiceStudio.tsx:64-72 | The encoding of frames lo to hi - 1 is `2 * numChannels * (hi - lo)` bytes long. |
| Wav.WavFile | components/VoiceStudio.tsx:32-86 | The file is `frames * numChannels * 2 + 44` bytes long. |
| Wav.RiffChunkHeadFields | components/VoiceStudio.tsx:44-46 | The RIFF chunk head spells "RIFF", holds the file length less 8 as a 32-bit field, then spells "WAVE". |
| Wav.FmtChunkFields | components/VoiceStudio.tsx:48-55 | Read back at their offsets, the "fmt " chunk holds: the tag, chunk size 16, format 1, the channel count, the sample rate, the byte rate `sampleRate * 2 * numChannels`, the block alignment `numChannels * 2` and 16 bits per sample, each reduced to its field width. |
| Wav.DataChunkHeadFields | components/VoiceStudio.tsx:57-58 | The data chunk head spells "data" and holds the data length as a 32-bit field. |
| Wav.WavLayout | components/VoiceStudio.tsx:34-58 | The file is the RIFF head for its own length, then the "fmt " chunk for the buffer's channel count and rate, then a "data" head whose length field is `frames * numChannels * 2`. That is `length - pos - 4` evaluated at pos 40. |
| Wav.FrameBytesAt | components/VoiceStudio.tsx:65-68 | Within a frame's encoding, bytes 2c and 2c + 1 are the little-endian int16 encoding of channel c. |
| Wav.FramesSplit | components/VoiceStudio.tsx:64-72 | Encoding a run of frames is encoding its first part and then the rest. |
| Wav.FramesBytesAt | components/VoiceStudio.tsx:65-69 | Within a run of encoded frames, sample c of frame f sits after the earlier frames and after the first c channels of frame f, as its little-endian int16 encoding. |
| Wav.WavSampleAt | components/VoiceStudio.tsx:41-72 | For j below frames - 44, the int16 at data byte `2 * (j * numChannels + c)` is the encoding of frame j + 44 of channel c. |
| Wav.WavDataAt | components/VoiceStudio.tsx:58-72 | The data region of the file starts with the encoded frames from the skipped count on, byte for byte. |
| Wav.WavZeroTail | components/VoiceStudio.tsx:64-72 | Every data byte after the written frames is zero. For at most 44 frames, that is the whole data region. |
| Wav.DecodedWavSampleAt | components/VoiceStudio.tsx:11-72 | Consider PCM decoded and written out. For j below frames - 44, the file's int16 at data position `j * numChannels + c` is the requantized int16 that the input held at frame j + 44. |
| Wav.TwoSampleDecode | components/VoiceStudio.tsx:11-29 | The mono PCM bytes `00 40 00 C0` at 24000 Hz decode to one channel holding 0.5 and -0.5. |
| Wav.TwoSampleScenario | components/VoiceStudio.tsx:41-64 | The mono PCM 16384, -16384 decodes to a two-frame buffer. Its 48-byte file has four zero data bytes, where starting the data loop at frame 0 stores 16383 and -16383. |
| Wav.IntendedWavSampleAt | components/VoiceStudio.tsx:64-72 | With the data loop starting at frame 0, the int16 at data position `j * numChannels + c` is the encoding of frame j, for every frame. |
| Wav.IntendedWavFile | components/VoiceStudio.tsx:60-72 | The corrected file, with the data loop starting at frame 0, has the same length `frames * numChannels * 2 + 44` as the file written. |
| Wav.SetUint16 | components/VoiceStudio.tsx:75-78 | The two bytes of the value mod 2^16 are written low byte first at the cursor, and the cursor advances by 2. Nothing else changes. |
| Wav.SetUint32 | components/VoiceStudio.tsx:80-83 | The four bytes of the value mod 2^32 are written low byte first at the cursor, and the cursor advances by 4. Nothing else changes. |
| Wav.WriteRiffChunkHead | components/VoiceStudio.tsx:44-46 | The three writes append `RiffChunkHead` for the file length at the cursor and advance it by 12; later bytes are untouched. |
| Wav.WriteFmtFormat | components/VoiceStudio.tsx:48-51 | The four writes append the "fmt " tag, chunk size, format tag and channel count at the cursor and advance it by 12; later bytes are untouched. |
| Wav.WriteFmtRates | components/VoiceStudio.tsx:52-55 | The four writes append the sample rate, byte rate, block alignment and bits per sample at the cursor and advance it by 12; later bytes are untouched. |
| Wav.WriteFmtChunk | components/VoiceStudio.tsx:48-55 | The eight writes append `FmtChunk` for the channel count and rate at the cursor and advance it by 24; later bytes are untouched. |
| Wav.WriteDataChunkHead | components/VoiceStudio.tsx:57-58 | The two writes append the "data" tag and the length `length - pos - 4`, taken after the tag is written, and advance the cursor by 8; later bytes are untouched. |
| Wav.WriteHeader | components/VoiceStudio.tsx:43-58 | The thirteen header writes fill the first 44 bytes with `Header` and leave the cursor at 44. The rest of the buffer is untouched. |
| Wav.WriteFrame | components/VoiceStudio.tsx:65-70 | One pass of the inner loop writes the encoded samples of one frame, channel by channel, at `44 + offset`. The offset advances by `2 * numChannels`. Nothing else changes. |
| Wav.ChannelData | components/VoiceStudio.tsx:61-62 | The loop collects the sample arrays of every channel, in channel order: exactly the buffer's channel data. |
| Wav.WriteData | components/VoiceStudio.tsx:60-72 | With the frame index starting at `start`, the data loop stores frames `start`, `start + 1`, ... from the start of the data region and leaves the remaining bytes zero. |
| Wav.BufferToWav | components/VoiceStudio.tsx:32-86 | The bytes of the returned buffer are exactly `WavFile` of the input buffer, the file as the code writes it. |
| Wav.CorrectedBufferToWav | components/VoiceStudio.tsx:32-86 | With the frame index reset to 0 before the data loop, the bytes of the returned buffer are exactly `IntendedWavFile` of the input buffer. |
| VoiceStudio.TrimStart | components/VoiceStudio.tsx:108 | `trim` drops exactly the leading whitespace: the result is a suffix, and what is dropped is all whitespace. A non-empty result starts with a non-whitespace character. |
| VoiceStudio.TrimEnd | components/VoiceStudio.tsx:108 | `trim` drops exactly the trailing whitespace: the result is a prefix, and what is dropped is all whitespace. A non-empty result ends with a non-whitespace character. |
| VoiceStudio.BlankIffAllWhitespace | components/VoiceStudio.tsx:108 | `!textToRead.trim()` (`IsBlank`) holds exactly when every character of the text is whitespace. |
| VoiceStudio.Initial | components/VoiceStudio.tsx:89-98 | The mounted component satisfies the invariant and plays nothing. |
| VoiceStudio.AtMostOneLive | components/VoiceStudio.tsx:151-176 | Under the invariant, the only live source node is the one `sourceNodeRef` holds, and there is none when it is null. |
| VoiceStudio.Stopped | components/VoiceStudio.tsx:168-176 | After `stopAudio` there is no current source and nothing plays. The invariant is kept, with no node live, and the download link still matches the buffer. |
| VoiceStudio.StoppedEffect | components/VoiceStudio.tsx:168-176 | `stopAudio` stops the current node exactly when there is one, that node was not stopped before, and no other state changes. |
| VoiceStudio.StopIdempotent | components/VoiceStudio.tsx:168-176 | Stopping twice is stopping once. With no source and nothing playing, stopping changes nothing. |
| VoiceStudio.Played | components/VoiceStudio.tsx:151-166 | Without an audio context `playBuffer` changes nothing. Otherwise it plays the given buffer at `config.speed` through a current node. The invariant is kept. |
| VoiceStudio.PlayedEffect | components/VoiceStudio.tsx:151-166 | With a context, exactly one new node is created, and every earlier node has been stopped. The new node is the only live one. The rest of the state is unchanged. |
| VoiceStudio.PlayedKeepsDownload | components/VoiceStudio.tsx:151-166 | Playing keeps the download link in step with the buffer. |
| VoiceStudio.Ended | components/VoiceStudio.tsx:165 | `onended` clears `isPlaying` and nothing else, and it keeps the invariant. |
| VoiceStudio.Delivered | components/VoiceStudio.tsx:114-145 | A failed speech call sets the error message and nothing else. Audio creates the context. PCM that does not decode sets the error message and nothing else. |
| VoiceStudio.Stored | components/VoiceStudio.tsx:133-138 | After storing a buffer, the buffer ref holds it and the download link is set and holds `WavFile` of exactly that buffer: the file `bufferToWav` writes, shifted frames and zero tail included. Every other field is kept. |
| VoiceStudio.Generated | components/VoiceStudio.tsx:107-149 | Blank text changes nothing. Otherwise loading has ended whatever the speech call answered. |
| VoiceStudio.GeneratedValid | components/VoiceStudio.tsx:107-149 | Generation keeps the invariant, whatever the speech call answered. |
| VoiceStudio.GeneratedFailure | components/VoiceStudio.tsx:107-148 | A failed call or an undecodable payload gives three things. First, it sets the error message. Second, it keeps the previous buffer and download link. Third, it leaves playback stopped and loading ended. |
| VoiceStudio.GeneratedSuccess | components/VoiceStudio.tsx:107-149 | A decoded payload leads to four things. The buffer is stored, and the link is set to its WAV file as `bufferToWav` writes it. The error is cleared, and loading is ended. A new node, created after every other, plays the buffer at the configured speed and is the only live one. |
| VoiceStudio.GeneratedKeepsDownload | components/VoiceStudio.tsx:107-149 | Every outcome of a generation keeps the download link in step with the buffer. |
| VoiceStudio.Toggled | components/VoiceStudio.tsx:178-188 | `togglePlayback` stops when playing. Otherwise it replays the stored buffer. Without a buffer, it regenerates when a download URL exists and does nothing if not. |
| VoiceStudio.ToggledValid | components/VoiceStudio.tsx:178-188 | Toggling keeps the invariant. |
| VoiceStudio.ToggleFlips | components/VoiceStudio.tsx:178-188 | Toggling a playing session stops it. Toggling an idle session with a buffer plays that buffer. |
| VoiceStudio.ToggleNeverRegenerates | components/VoiceStudio.tsx:182-186 | While the link matches the buffer, toggling never takes the regenerate branch, and the link keeps matching. |
| VoiceStudio.ScriptLoaded | components/VoiceStudio.tsx:100-105 | A non-empty script sets the text to its first min(500, length) characters followed by "...", and nothing else changes. An empty script changes nothing. The invariant and the link-buffer match are kept. |
| VoiceStudio.Studio.constructor | components/VoiceStudio.tsx:89-98 | The component starts in `Initial`. |
| VoiceStudio.Studio.StopAudio | components/VoiceStudio.tsx:168-176 | The new state is `Stopped` of the old. |
| VoiceStudio.Studio.PlayBuffer | components/VoiceStudio.tsx:151-166 | The new state is `Played` of the old. |
| VoiceStudio.Studio.SourceEnded | components/VoiceStudio.tsx:165 | The new state is `Ended` of the old. |
| VoiceStudio.Studio.HandleGenerateAudio | components/VoiceStudio.tsx:107-149 | The new state is `Generated` of the old and the speech call's answer. |
| VoiceStudio.Studio.Deliver | components/VoiceStudio.tsx:114-145 | The `try` block, decoding with `DecodeAudioData` and encoding with `BufferToWav`, gives the new state `Delivered` of the old. |
| VoiceStudio.Studio.TogglePlayback | components/VoiceStudio.tsx:178-188 | The new state is `Toggled` of the old. |
| VoiceStudio.Studio.LoadScript | components/VoiceStudio.tsx:100-105 | The new state is `ScriptLoaded` of the old. |

## Left out

- JSX rendering and styling (components/VoiceStudio.tsx:190-274), `App.tsx`, `components/InputSection.tsx` and `components/ResultView.tsx` are not modelled. They are UI with no logic to verify.
- `services/geminiService.ts` is not modelled. Its remote SDK call appears only as a `SpeechResponse` parameter: the decoded bytes, or a failure.
- `types.ts` holds declarations only. Only `VoiceConfig` and the speaker are modelled.
- `window.atob` (components/VoiceStudio.tsx:124-129) is not modelled. The PCM bytes are the input.
- Browser objects are modelled by what the component relies on:
  - the `AudioContext` is a flag, and creating it cannot fail;
  - a source node is a creation index with its buffer and rate;
  - a `Blob` URL is the file's bytes; a fresh URL for equal bytes is not told apart from the old one, and no URL is revoked because the code revokes none.
- Actual sound output and the audible effect of `playbackRate` are not modelled.
- `source.onended` firing asynchronously is not modelled. `SourceEnded` is one more sequential step. The model does not capture a late event from a stopped node, interleaved with a newer play, clearing `isPlaying` while that newer node plays.
- React's batching of state updates and the `await` between the speech call and its continuation are not modelled. Each handler runs to completion.
- `console.error` (components/VoiceStudio.tsx:144) is not modelled.
- Floating point is not modelled. Samples are exact reals, and no NaN or infinite sample is considered. The `|0` conversion is modelled only for values within 32 bits, which is all that `EncodeSample` produces.
- Pcm.Decode: `createBuffer` limits are taken as at least one channel, at least one frame, and a rate in [3000, 768000]. The model does not capture the implementation's channel-count ceiling (at least 32) or a length too large to allocate.
- Pcm.Decode: a frame count `samples / numChannels` with a remainder is modelled as its whole part. That is the length `createBuffer` receives. The final partial frame's out-of-range write is dropped, as typed arrays drop it. Only mono decoding is ever used.
- Pcm.ReadInt16Le: the `Int16Array` view assumes a little-endian host, as the code does.
- VoiceStudio.ScriptLoaded: `slice` counts UTF-16 code units. The model counts Dafny characters, which differ only for characters outside the Basic Multilingual Plane. The model also runs the effect once per script value and leaves out re-renders.
- VoiceStudio.Studio.Deliver: `setAudioUrl` and `playBuffer` see the buffer as one value, so the model does not capture aliasing between `audioBufferRef.current` and the node's buffer.

## Findings

| source | as written | input that shows it | evidently intended | confidence | as-written member | corrected member |
|---|---|---|---|---|---|---|
| components/VoiceStudio.tsx:41-64 | The data loop uses `pos` as its frame index, and the header writes left `pos` at 44. So the file stores frames 44 onwards from the start of the data region, and the last min(44, frames) frames' worth of bytes stay zero. | The mono PCM bytes `00 40 00 C0` (16384, -16384) decode to the frames 0.5 and -0.5. The 48-byte file's four data bytes are all zero. | Reset the frame index to 0 before the data loop, so that data position `j * numChannels + c` holds frame j of channel c: bytes `FF 3F 01 C0` (16383, -16383) here. | not executed | Wav.TwoSampleScenario | Wav.IntendedWavSampleAt |

`Wav.WavFile` and `Wav.BufferToWav` are the encoder as written.
`Wav.IntendedWavFile` and `Wav.CorrectedBufferToWav` are the corrected
encoder, and `Wav.IntendedWavSampleAt` proves that it carries every frame.
The controller's download link uses the encoder as written, since that is the
file the component offers.

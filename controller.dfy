/** The playback and generation controller of the voice studio component
    (`stopAudio`, `playBuffer`, `togglePlayback`, `handleGenerateAudio` in
    components/VoiceStudio.tsx): the React state and refs of the component as
    the fields of a class, each handler as a method, and beside them pure
    functions on a snapshot of that state which specify the methods and about
    which the properties are proved. */
module VoiceStudio {
  import opened Results
  import opened Pcm
  import opened Wav

  datatype Speaker = Male | Female

  /** `VoiceConfig`: the chosen voice and the playback rate multiplier. */
  datatype VoiceConfig = VoiceConfig(speaker: Speaker, speed: real)

  /** An `AudioBufferSourceNode` made by `createBufferSource`: `id` stands
      for its object identity (the number of nodes created before it), and
      the node plays `buffer` at `playbackRate`. */
  datatype SourceNode = SourceNode(id: nat, buffer: AudioBuffer, playbackRate: real)

  /** What the remote speech call gives back: the PCM bytes obtained from
      the base64 payload, or a thrown error (a transport error or a
      response without audio data). */
  datatype SpeechResponse = Audio(pcm: seq<Byte>) | SpeechFailed

  /** The rate the audio context is created with and the PCM is decoded at. */
  const SampleRate: int := 24000

  const GenerateErrorMessage: string := "Không thể tạo giọng nói. Vui lòng thử lại."

  /** `scriptContent.slice(0, 500) + "..."`: the prefix shown for reading. */
  const SnippetLength: nat := 500

  // ---------------------------------------------------------------------
  // Trimming, as `String.prototype.trim` does it
  // ---------------------------------------------------------------------

  /** The ECMAScript WhiteSpace and LineTerminator code points. */
  predicate IsWhitespace(ch: char) {
    ch == '\U{0009}' || ch == '\U{000A}' || ch == '\U{000B}' || ch == '\U{000C}' || ch == '\U{000D}'
    || ch == '\U{0020}' || ch == '\U{00A0}' || ch == '\U{1680}'
    || ('\U{2000}' <= ch <= '\U{200A}')
    || ch == '\U{2028}' || ch == '\U{2029}' || ch == '\U{202F}' || ch == '\U{205F}'
    || ch == '\U{3000}' || ch == '\U{FEFF}'
  }

  /** s without its leading whitespace. */
  function TrimStart(s: string): (r: string)
    ensures |r| <= |s| && r == s[|s| - |r|..]
    ensures forall i :: 0 <= i < |s| - |r| ==> IsWhitespace(s[i])
    ensures r == [] || !IsWhitespace(r[0])
    decreases |s|
  {
    if |s| > 0 && IsWhitespace(s[0]) then TrimStart(s[1..]) else s
  }

  /** s without its trailing whitespace. */
  function TrimEnd(s: string): (r: string)
    ensures |r| <= |s| && r == s[..|r|]
    ensures forall i :: |r| <= i < |s| ==> IsWhitespace(s[i])
    ensures r == [] || !IsWhitespace(r[|r| - 1])
    decreases |s|
  {
    if |s| > 0 && IsWhitespace(s[|s| - 1]) then TrimEnd(s[..|s| - 1]) else s
  }

  function Trim(s: string): string {
    TrimEnd(TrimStart(s))
  }

  /** `!text.trim()`: the text is empty once trimmed. */
  predicate IsBlank(s: string) {
    Trim(s) == []
  }

  /** A text is blank exactly when every one of its characters is whitespace. */
  lemma BlankIffAllWhitespace(s: string)
    ensures IsBlank(s) <==> forall i :: 0 <= i < |s| ==> IsWhitespace(s[i])
  {
    var t := TrimStart(s);
    if t != [] {
      assert !IsWhitespace(t[0]);
      assert s[|s| - |t|] == t[0];
    }
  }

  // ---------------------------------------------------------------------
  // The controller's state and its transitions, as values
  // ---------------------------------------------------------------------

  /** All that the handlers read and write: the React state (`textToRead`,
      `config`, `audioUrl`, `isLoading`, `isPlaying`, `error`) and refs
      (whether `audioContextRef` holds a context, `sourceNodeRef`,
      `audioBufferRef`). `audioUrl` is represented by the bytes of the blob
      it refers to. `started` lists every source node created, in order, and
      `stopped` holds the ids of those whose `stop()` has been called. */
  datatype StudioState = StudioState(
    textToRead: string,
    config: VoiceConfig,
    audioUrl: Option<seq<Byte>>,
    isLoading: bool,
    isPlaying: bool,
    error: Option<string>,
    hasContext: bool,
    sourceNode: Option<SourceNode>,
    audioBuffer: Option<AudioBuffer>,
    started: seq<SourceNode>,
    stopped: set<nat>)
  {
    /** The nodes created and not yet stopped. */
    function Live(): set<nat> {
      set id: nat | id < |started| && id !in stopped
    }

    /** What every reachable state satisfies: node ids are creation
        indices; every node but the newest has been stopped; the newest is
        live exactly when `sourceNodeRef` holds it; nothing plays without a
        node; nodes and buffers only exist once the context does. */
    predicate Valid() {
      && (forall i :: 0 <= i < |started| ==> started[i].id == i)
      && (forall id :: id in stopped ==> id < |started|)
      && (forall i :: 0 <= i < |started| - 1 ==> i in stopped)
      && (sourceNode.Some? ==> |started| > 0 && sourceNode.value == started[|started| - 1])
      && (sourceNode.Some? <==> |started| > 0 && |started| - 1 !in stopped)
      && (sourceNode.Some? ==> hasContext)
      && (isPlaying ==> sourceNode.Some?)
      && (audioBuffer.Some? ==> hasContext && audioBuffer.value.WellFormed())
    }

    /** The download link serves the file encoded from the current buffer. */
    predicate DownloadMatchesBuffer() {
      audioUrl.Some? ==>
        audioBuffer.Some? && audioBuffer.value.WellFormed() && audioUrl.value == WavFile(audioBuffer.value)
    }
  }

  /** The state a freshly mounted component starts in. */
  function Initial(): (s: StudioState)
    ensures s.Valid() && s.DownloadMatchesBuffer()
    ensures s.Live() == {} && !s.isPlaying && !s.isLoading
  {
    var s := StudioState("", VoiceConfig(Female, 1.0), None, false, false, None, false, None, None, [], {});
    assert s.Live() == {};
    s
  }

  /** With the invariant, the live node is the one `sourceNodeRef` holds,
      and there is none when it is null: never two sources at once. */
  lemma AtMostOneLive(s: StudioState)
    requires s.Valid()
    ensures s.sourceNode.Some? ==> s.Live() == {s.sourceNode.value.id}
    ensures s.sourceNode.None? ==> s.Live() == {}
  {
    if s.sourceNode.Some? {
      var last := |s.started| - 1;
      assert s.sourceNode.value.id == last;
      forall id: nat | id < last ensures id in s.stopped {
      }
      assert last in s.Live();
    } else {
      forall id: nat | id < |s.started| ensures id in s.stopped {
      }
    }
  }

  /** `stopAudio`: the current node, if any, is stopped and dropped, and
      playback is marked as not playing. */
  function Stopped(s: StudioState): (r: StudioState)
    ensures r.sourceNode.None? && !r.isPlaying
    ensures s.Valid() ==> r.Valid() && r.Live() == {}
    ensures s.DownloadMatchesBuffer() ==> r.DownloadMatchesBuffer()
  {
    var r := s.(
      sourceNode := None,
      isPlaying := false,
      stopped := if s.sourceNode.Some? then s.stopped + {s.sourceNode.value.id} else s.stopped);
    if s.Valid() then AtMostOneLive(r); r else r
  }

  /** Stopping changes only the playback session: the node is stopped
      exactly when there was one, and nothing else moves. */
  lemma StoppedEffect(s: StudioState)
    requires s.Valid()
    ensures var r := Stopped(s);
      && r.started == s.started
      && (s.sourceNode.Some? ==> r.stopped == s.stopped + {s.sourceNode.value.id} && s.sourceNode.value.id !in s.stopped)
      && (s.sourceNode.None? ==> r.stopped == s.stopped)
      && r.(sourceNode := s.sourceNode, isPlaying := s.isPlaying, stopped := s.stopped) == s
  {
  }

  /** `stopAudio` is safe without a node and idempotent. */
  lemma StopIdempotent(s: StudioState)
    ensures Stopped(Stopped(s)) == Stopped(s)
    ensures s.sourceNode.None? && !s.isPlaying ==> Stopped(s) == s
  {
  }

  /** `playBuffer`: without an audio context nothing happens; otherwise the
      old node is stopped and a new one, created after every other, plays
      the buffer at the configured speed. */
  function Played(s: StudioState, buffer: AudioBuffer): (r: StudioState)
    ensures !s.hasContext ==> r == s
    ensures s.hasContext ==>
      r.isPlaying && r.sourceNode.Some? &&
      r.sourceNode.value.buffer == buffer && r.sourceNode.value.playbackRate == s.config.speed
    ensures s.Valid() ==> r.Valid()
  {
    if !s.hasContext then s
    else
      var t := Stopped(s);
      var node := SourceNode(|t.started|, buffer, t.config.speed);
      t.(started := t.started + [node], sourceNode := Some(node), isPlaying := true)
  }

  /** Playing with a context stops every node created before and leaves the
      new node the only live one; the session's other state is kept. */
  lemma PlayedEffect(s: StudioState, buffer: AudioBuffer)
    requires s.Valid() && s.hasContext
    ensures var r := Played(s, buffer);
      && r.started == s.started + [r.sourceNode.value]
      && r.sourceNode.value.id == |s.started|
      && (forall id: nat :: id < |s.started| ==> id in r.stopped)
      && r.Live() == {|s.started|}
      && r.(sourceNode := s.sourceNode, isPlaying := s.isPlaying, started := s.started, stopped := s.stopped) == s
  {
    var r := Played(s, buffer);
    var t := Stopped(s);
    assert t.Live() == {};
    forall id: nat | id < |s.started| ensures id in r.stopped {
      assert id !in t.Live();
    }
    AtMostOneLive(r);
  }

  /** Playing keeps the download link in step with the buffer. */
  lemma PlayedKeepsDownload(s: StudioState, buffer: AudioBuffer)
    requires s.DownloadMatchesBuffer()
    ensures Played(s, buffer).DownloadMatchesBuffer()
  {
  }

  /** `source.onended`: the current node finished, or a stopped one reports
      its end; either way `isPlaying` becomes false and nothing else moves. */
  function Ended(s: StudioState): (r: StudioState)
    ensures !r.isPlaying && r.(isPlaying := s.isPlaying) == s
    ensures s.Valid() ==> r.Valid()
    ensures s.DownloadMatchesBuffer() ==> r.DownloadMatchesBuffer()
  {
    s.(isPlaying := false)
  }

  /** The `try` block of `handleGenerateAudio`, run once loading has begun
      and playback has stopped: a failed speech call sets the error; a
      successful one creates the context if needed and decodes the PCM as
      mono 24000 Hz, where a decoding error sets the error message, and a
      decoded buffer is stored, encoded for the download link and played. */
  function Delivered(t: StudioState, response: SpeechResponse): (r: StudioState)
    ensures response.SpeechFailed? ==> r == t.(error := Some(GenerateErrorMessage))
    ensures response.Audio? ==> r.hasContext
    ensures response.Audio? && Decode(response.pcm, SampleRate, 1).Err? ==>
      r == t.(hasContext := true, error := Some(GenerateErrorMessage))
  {
    match response
    case SpeechFailed => t.(error := Some(GenerateErrorMessage))
    case Audio(pcm) =>
      var withContext := t.(hasContext := true);
      match Decode(pcm, SampleRate, 1)
      case Err(_) => withContext.(error := Some(GenerateErrorMessage))
      case Ok(b) => Played(Stored(withContext, b), b)
  }

  /** `audioBufferRef.current = audioBuffer` and `setAudioUrl` for the blob
      `bufferToWav` makes of it, as the encoder is written. */
  function Stored(t: StudioState, b: AudioBuffer): (r: StudioState)
    requires b.WellFormed()
    ensures r.audioBuffer == Some(b) && r.audioUrl.Some? && r.DownloadMatchesBuffer()
    ensures r.(audioBuffer := t.audioBuffer, audioUrl := t.audioUrl) == t
  {
    t.(audioBuffer := Some(b), audioUrl := Some(WavFile(b)))
  }

  /** `handleGenerateAudio`, given what the speech call answers. Blank text
      returns at once. Otherwise loading starts, the error is cleared and
      playback stops before the speech call; loading ends on every path. */
  function Generated(s: StudioState, response: SpeechResponse): (r: StudioState)
    ensures IsBlank(s.textToRead) ==> r == s
    ensures !IsBlank(s.textToRead) ==> !r.isLoading
  {
    if IsBlank(s.textToRead) then s
    else Delivered(Stopped(s.(isLoading := true, error := None)), response).(isLoading := false)
  }

  lemma DeliveredValid(t: StudioState, response: SpeechResponse)
    requires t.Valid()
    ensures Delivered(t, response).Valid()
  {
    var e := Some(GenerateErrorMessage);
    match response
    case SpeechFailed =>
      ErrorKeepsValid(t, e);
    case Audio(pcm) =>
      var withContext := t.(hasContext := true);
      ContextKeepsValid(t);
      match Decode(pcm, SampleRate, 1)
      case Err(_) =>
        ErrorKeepsValid(withContext, e);
      case Ok(b) =>
        StoredKeepsValid(withContext, b);
  }

  /** The invariant does not mention the loading flag, the error or the
      download link, and a context once there never hurts it. */
  lemma LoadingKeepsValid(s: StudioState)
    requires s.Valid()
    ensures s.(isLoading := false).Valid()
  {
  }

  lemma ErrorKeepsValid(s: StudioState, e: Option<string>)
    requires s.Valid()
    ensures s.(error := e).Valid()
  {
  }

  lemma ContextKeepsValid(s: StudioState)
    requires s.Valid()
    ensures s.(hasContext := true).Valid()
  {
  }

  lemma StoredKeepsValid(s: StudioState, b: AudioBuffer)
    requires s.Valid() && s.hasContext && b.WellFormed()
    ensures Stored(s, b).Valid()
  {
  }

  /** Generation keeps the invariant, whatever the speech call answers. */
  lemma GeneratedValid(s: StudioState, response: SpeechResponse)
    requires s.Valid()
    ensures Generated(s, response).Valid()
  {
    if !IsBlank(s.textToRead) {
      var t := Stopped(s.(isLoading := true, error := None));
      DeliveredValid(t, response);
      LoadingKeepsValid(Delivered(t, response));
    }
  }

  /** A failed generation — no audio, or PCM that does not decode — reports
      the message and keeps the previous buffer and download link; playback
      is stopped. */
  lemma GeneratedFailure(s: StudioState, response: SpeechResponse)
    requires !IsBlank(s.textToRead)
    requires response.SpeechFailed? || Decode(response.pcm, SampleRate, 1).Err?
    ensures var r := Generated(s, response);
      && r.error == Some(GenerateErrorMessage)
      && r.audioBuffer == s.audioBuffer && r.audioUrl == s.audioUrl
      && !r.isPlaying && r.sourceNode.None? && !r.isLoading
      && (response.SpeechFailed? ==> r.hasContext == s.hasContext)
  {
  }

  /** A successful generation stores the decoded buffer, links its WAV
      encoding, clears the error and plays the buffer at the configured
      speed as the only live node. */
  lemma GeneratedSuccess(s: StudioState, pcm: seq<Byte>, b: AudioBuffer)
    requires s.Valid() && !IsBlank(s.textToRead) && Decode(pcm, SampleRate, 1) == Ok(b)
    ensures var r := Generated(s, Audio(pcm));
      && r.audioBuffer == Some(b)
      && r.audioUrl == Some(WavFile(b))
      && r.error.None? && !r.isLoading && r.isPlaying && r.hasContext
      && r.sourceNode == Some(SourceNode(|s.started|, b, s.config.speed))
      && r.Live() == {|s.started|}
      && r.DownloadMatchesBuffer()
  {
    var t := Stopped(s.(isLoading := true, error := None));
    var v := Stored(t.(hasContext := true), b);
    assert Delivered(t, Audio(pcm)) == Played(v, b);
    ContextKeepsValid(t);
    StoredKeepsValid(t.(hasContext := true), b);
    PlayedEffect(v, b);
    PlayedKeepsDownload(v, b);
  }

  /** Every outcome of a generation keeps the download link in step with
      the buffer. */
  lemma GeneratedKeepsDownload(s: StudioState, response: SpeechResponse)
    requires s.DownloadMatchesBuffer()
    ensures Generated(s, response).DownloadMatchesBuffer()
  {
  }

  /** `togglePlayback`: stop when playing; otherwise replay the stored
      buffer; without one, regenerate when a download link exists; else
      nothing. `response` is what the speech call would answer. */
  function Toggled(s: StudioState, response: SpeechResponse): (r: StudioState)
    ensures s.isPlaying ==> r == Stopped(s)
    ensures !s.isPlaying && s.audioBuffer.Some? ==> r == Played(s, s.audioBuffer.value)
    ensures !s.isPlaying && s.audioBuffer.None? && s.audioUrl.Some? ==> r == Generated(s, response)
    ensures !s.isPlaying && s.audioBuffer.None? && s.audioUrl.None? ==> r == s
  {
    if s.isPlaying then Stopped(s)
    else if s.audioBuffer.Some? then Played(s, s.audioBuffer.value)
    else if s.audioUrl.Some? then Generated(s, response)
    else s
  }

  /** Toggling keeps the invariant. */
  lemma ToggledValid(s: StudioState, response: SpeechResponse)
    requires s.Valid()
    ensures Toggled(s, response).Valid()
  {
    if !s.isPlaying && s.audioBuffer.None? && s.audioUrl.Some? {
      GeneratedValid(s, response);
    }
  }

  /** Toggling a playing session makes it idle; toggling an idle one that
      holds a buffer (and has its context, as every valid one does) makes
      it play that buffer. */
  lemma ToggleFlips(s: StudioState, response: SpeechResponse)
    requires s.Valid()
    ensures s.isPlaying ==> !Toggled(s, response).isPlaying
    ensures !s.isPlaying && s.audioBuffer.Some? ==>
      Toggled(s, response).isPlaying && Toggled(s, response).sourceNode.value.buffer == s.audioBuffer.value
  {
  }

  /** Wherever the download link matches the buffer, a link implies a
      buffer, so toggling never reaches the regenerate branch: it only
      stops, replays or does nothing. */
  lemma ToggleNeverRegenerates(s: StudioState, response: SpeechResponse)
    requires s.DownloadMatchesBuffer()
    ensures !s.isPlaying && s.audioBuffer.None? ==> Toggled(s, response) == s
    ensures Toggled(s, response).DownloadMatchesBuffer()
  {
  }

  /** The effect on `scriptContent`: a non-empty script replaces the text
      with its first 500 characters followed by "...". */
  function ScriptLoaded(s: StudioState, scriptContent: string): (r: StudioState)
    ensures scriptContent == [] ==> r == s
    ensures s.Valid() ==> r.Valid()
    ensures s.DownloadMatchesBuffer() ==> r.DownloadMatchesBuffer()
    ensures scriptContent != [] ==>
      && |r.textToRead| == (if |scriptContent| < SnippetLength then |scriptContent| else SnippetLength) + 3
      && scriptContent[..|r.textToRead| - 3] == r.textToRead[..|r.textToRead| - 3]
      && r.textToRead[|r.textToRead| - 3..] == "..."
      && r.(textToRead := s.textToRead) == s
  {
    if scriptContent == [] then s
    else
      var n := if |scriptContent| < SnippetLength then |scriptContent| else SnippetLength;
      s.(textToRead := scriptContent[..n] + "...")
  }

  // ---------------------------------------------------------------------
  // The component, with state updated in place
  // ---------------------------------------------------------------------

  class Studio {
    var textToRead: string
    var config: VoiceConfig
    var audioUrl: Option<seq<Byte>>
    var isLoading: bool
    var isPlaying: bool
    var error: Option<string>
    var hasContext: bool
    var sourceNode: Option<SourceNode>
    var audioBuffer: Option<AudioBuffer>
    var started: seq<SourceNode>
    var stopped: set<nat>

    function State(): StudioState
      reads this
    {
      StudioState(textToRead, config, audioUrl, isLoading, isPlaying, error, hasContext,
        sourceNode, audioBuffer, started, stopped)
    }

    constructor ()
      ensures State() == Initial()
    {
      textToRead := "";
      config := VoiceConfig(Female, 1.0);
      audioUrl := None;
      isLoading := false;
      isPlaying := false;
      error := None;
      hasContext := false;
      sourceNode := None;
      audioBuffer := None;
      started := [];
      stopped := {};
    }

    method StopAudio()
      modifies this
      ensures State() == Stopped(old(State()))
    {
      if sourceNode.Some? {
        stopped := stopped + {sourceNode.value.id};  // sourceNodeRef.current.stop()
        sourceNode := None;
      }
      isPlaying := false;
    }

    method PlayBuffer(buffer: AudioBuffer)
      modifies this
      ensures State() == Played(old(State()), buffer)
    {
      if !hasContext {
        return;
      }
      StopAudio();
      var source := SourceNode(|started|, buffer, config.speed);
      started := started + [source];  // createBufferSource, connect, start(0)
      sourceNode := Some(source);
      isPlaying := true;
    }

    /** `source.onended` firing. */
    method SourceEnded()
      modifies this
      ensures State() == Ended(old(State()))
    {
      isPlaying := false;
    }

    method HandleGenerateAudio(response: SpeechResponse)
      modifies this
      ensures State() == Generated(old(State()), response)
    {
      if IsBlank(textToRead) {
        return;
      }
      ghost var s0 := State();
      isLoading := true;
      error := None;
      assert State() == s0.(isLoading := true, error := None);
      StopAudio();
      ghost var s1 := State();
      Deliver(response);
      ghost var s2 := State();
      assert s2 == Delivered(s1, response);
      isLoading := false;  // finally
      assert State() == s2.(isLoading := false);
    }

    /** The `try` block and its `catch`. */
    method Deliver(response: SpeechResponse)
      modifies this
      ensures State() == Delivered(old(State()), response)
    {
      match response {
        case SpeechFailed =>
          error := Some(GenerateErrorMessage);
        case Audio(pcm) =>
          if !hasContext {
            hasContext := true;  // new AudioContext({sampleRate: 24000})
          }
          ghost var withContext := State();
          var decoded := DecodeAudioData(pcm, SampleRate, 1);
          match decoded {
            case Err(_) =>
              error := Some(GenerateErrorMessage);
            case Ok(b) =>
              audioBuffer := Some(b);
              var blob := BufferToWav(b);
              audioUrl := Some(blob[..]);
              assert State() == Stored(withContext, b);
              PlayBuffer(b);
          }
      }
    }

    method TogglePlayback(response: SpeechResponse)
      modifies this
      ensures State() == Toggled(old(State()), response)
    {
      if isPlaying {
        StopAudio();
      } else if audioBuffer.Some? {
        PlayBuffer(audioBuffer.value);
      } else if audioUrl.Some? {
        HandleGenerateAudio(response);
      }
    }

    /** The `useEffect` on `scriptContent`. */
    method LoadScript(scriptContent: string)
      modifies this
      ensures State() == ScriptLoaded(old(State()), scriptContent)
    {
      if scriptContent != [] {
        var n := if |scriptContent| < SnippetLength then |scriptContent| else SnippetLength;
        textToRead := scriptContent[..n] + "...";
      }
    }
  }
}

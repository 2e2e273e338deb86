/** Choosing and running a speech-to-text backend (internal/transcribe/transcriber.go and
    whisper.go).

    The OpenAI backend is an HTTP client and is not part of this model: what it answers for an
    audio file is an input. The local backend runs the whisper.cpp binary; what that process does
    (fail, or exit after writing its text file) is an input too, and everything around it — the
    checks before, the argument vector, reading and removing the output — is modelled. */
module Transcribe {
  import opened Errors
  import opened Strings
  import opened Paths
  import opened Disk
  import opened Config

  /** The two backends and the settings each one keeps. */
  datatype Transcriber =
    | WhisperLocal(modelPath: string, binaryPath: string, threads: int, language: string)
    | OpenAI(apiKey: string, model: string, language: string)

  /** A backend whose required settings are present. */
  predicate Configured(t: Transcriber)
  {
    match t
    case WhisperLocal(model, binary, _, _) => model != "" && binary != ""
    case OpenAI(key, model, _) => key != "" && model != ""
  }

  function UnknownBackend(backend: string): string
  {
    "unknown transcription backend: " + backend + " (supported: local, openai)"
  }

  /** NewWhisperLocal: the binary path is checked before the model path; threads and language
      are taken as they are. */
  function NewWhisperLocal(cfg: LocalWhisperConfig): (r: Result<Transcriber>)
    ensures r.Ok? <==> cfg.binaryPath != "" && cfg.modelPath != ""
    ensures cfg.binaryPath == "" ==> r == Err(Message("whisper binary path not configured"))
    ensures cfg.binaryPath != "" && cfg.modelPath == "" ==> r == Err(Message("whisper model path not configured"))
    ensures r.Ok? ==> r.value == WhisperLocal(cfg.modelPath, cfg.binaryPath, cfg.threads, cfg.language)
  {
    if cfg.binaryPath == "" then Err(Message("whisper binary path not configured"))
    else if cfg.modelPath == "" then Err(Message("whisper model path not configured"))
    else Ok(WhisperLocal(cfg.modelPath, cfg.binaryPath, cfg.threads, cfg.language))
  }

  /** transcribe.New: dispatch on the backend tag, compared as an exact string. The value of
      OPENAI_API_KEY is the parameter `openAIKey`; it is checked before the model. */
  function New(cfg: TranscriptionConfig, openAIKey: string): (r: Result<Transcriber>)
    ensures cfg.backend == "" ==> r == Err(Message("transcription backend not configured"))
    ensures cfg.backend == "local" ==> r == NewWhisperLocal(cfg.local)
    ensures cfg.backend == "openai" ==> (r.Ok? <==> openAIKey != "" && cfg.openAI.model != "")
    ensures cfg.backend == "openai" && openAIKey == "" ==> r == Err(Message("OPENAI_API_KEY environment variable not set"))
    ensures cfg.backend == "openai" && openAIKey != "" && cfg.openAI.model == "" ==> r == Err(Message("OpenAI model not configured"))
    ensures cfg.backend == "openai" && r.Ok? ==> r.value == OpenAI(openAIKey, cfg.openAI.model, cfg.openAI.language)
    ensures cfg.backend !in {"", "local", "openai"} ==> r == Err(Message(UnknownBackend(cfg.backend)))
  {
    if cfg.backend == "" then Err(Message("transcription backend not configured"))
    else if cfg.backend == "local" then NewWhisperLocal(cfg.local)
    else if cfg.backend == "openai" then
      if openAIKey == "" then Err(Message("OPENAI_API_KEY environment variable not set"))
      else if cfg.openAI.model == "" then Err(Message("OpenAI model not configured"))
      else Ok(OpenAI(openAIKey, cfg.openAI.model, cfg.openAI.language))
    else Err(Message(UnknownBackend(cfg.backend)))
  }

  /** A backend that New builds has its required settings and is the one the tag names. */
  lemma NewYieldsConfigured(cfg: TranscriptionConfig, openAIKey: string)
    requires New(cfg, openAIKey).Ok?
    ensures Configured(New(cfg, openAIKey).value)
    ensures New(cfg, openAIKey).value.WhisperLocal? <==> cfg.backend == "local"
  {
  }

  // ---------------------------------------------------------------------------------------
  // whisper.cpp

  const OutputStem := "transcription"
  const TextSuffix := ".txt"

  /** `<dir(audio)>/transcription`, the base name passed to "-of". */
  function OutputBase(audioPath: string): string
  {
    Join(Dir(audioPath), OutputStem)
  }

  /** The file whisper.cpp writes for "-otxt". */
  function OutputFile(audioPath: string): string
  {
    OutputBase(audioPath) + TextSuffix
  }

  /** The argument vector of the whisper.cpp run. */
  function WhisperArgs(w: Transcriber, audioPath: string): (args: seq<string>)
    requires w.WhisperLocal?
    ensures |args| == 11
  {
    ["-m", w.modelPath, "-f", audioPath, "-l", w.language, "-t", IntToString(w.threads), "-otxt", "-of", OutputBase(audioPath)]
  }

  /** The flags come in the fixed order, each followed by its setting; the thread count, whatever
      its sign, is written with strconv.Itoa and reads back with strconv.Atoi. */
  lemma WhisperArgsCarrySettings(w: Transcriber, audioPath: string)
    requires w.WhisperLocal?
    ensures var args := WhisperArgs(w, audioPath);
      && args[0] == "-m" && args[1] == w.modelPath
      && args[2] == "-f" && args[3] == audioPath
      && args[4] == "-l" && args[5] == w.language
      && args[6] == "-t" && args[7] == IntToString(w.threads) && ParseInt(args[7]) == Some(w.threads)
      && args[8] == "-otxt" && args[9] == "-of" && args[10] + ".txt" == OutputFile(audioPath)
  {
    IntToStringRoundTrip(w.threads);
  }

  /** The text file is written next to the audio, as "transcription.txt". */
  lemma OutputBesideAudio(audioPath: string)
    requires IsCleanDir(Dir(audioPath))
    ensures Dir(OutputFile(audioPath)) == Dir(audioPath)
    ensures Base(OutputFile(audioPath)) == "transcription.txt"
  {
    OutputNames();
    JoinSplits(Dir(audioPath), OutputStem);
    SuffixKeepsDir(OutputBase(audioPath), TextSuffix);
  }

  lemma OutputNames()
    ensures IsName(OutputStem) && IsName(TextSuffix) && OutputStem + TextSuffix == "transcription.txt"
  {
    assert OutputStem == "transcription";
  }

  /** What the whisper.cpp process does: fail (with its combined output), or exit cleanly after
      writing the text file, or without writing it. */
  datatype WhisperRun = WhisperFailed(failure: Error, output: string) | WhisperExited(written: Option<string>)

  /** What a transcription leaves: the disk and the text or the error. */
  datatype Transcription = Transcription(tree: Tree, result: Result<string>)

  /** The three existence checks, in order: binary, model, audio. Only a "not exist" failure of
      os.Stat stops the run. */
  function PreCheck(tree: Tree, w: Transcriber, audioPath: string): (r: Outcome)
    requires w.WhisperLocal?
    ensures r.Pass? <==> !tree.Missing(w.binaryPath) && !tree.Missing(w.modelPath) && !tree.Missing(audioPath)
    ensures tree.Missing(w.binaryPath) ==> r == Fail(Message("whisper binary not found at " + w.binaryPath))
    ensures !tree.Missing(w.binaryPath) && tree.Missing(w.modelPath) ==> r == Fail(Message("whisper model not found at " + w.modelPath))
    ensures !tree.Missing(w.binaryPath) && !tree.Missing(w.modelPath) && tree.Missing(audioPath)
      ==> r == Fail(Message("audio file not found at " + audioPath))
  {
    if tree.Missing(w.binaryPath) then Fail(Message("whisper binary not found at " + w.binaryPath))
    else if tree.Missing(w.modelPath) then Fail(Message("whisper model not found at " + w.modelPath))
    else if tree.Missing(audioPath) then Fail(Message("audio file not found at " + audioPath))
    else Pass
  }

  /** The disk once the process has exited: its text file written, if it wrote one. */
  function AfterRun(tree: Tree, audioPath: string, written: Option<string>): Tree
  {
    match written
    case None => tree
    case Some(text) => tree.Write(OutputFile(audioPath), Raw(text)).tree
  }

  /** WhisperLocal.Transcribe. */
  function RunWhisper(tree: Tree, w: Transcriber, audioPath: string, run: seq<string> -> WhisperRun): (r: Transcription)
    requires w.WhisperLocal?
    ensures PreCheck(tree, w, audioPath).Fail? ==> r == Transcription(tree, Err(PreCheck(tree, w, audioPath).error))
    ensures PreCheck(tree, w, audioPath).Pass? && run(WhisperArgs(w, audioPath)).WhisperFailed? ==>
      var failed := run(WhisperArgs(w, audioPath));
      r == Transcription(tree, Err(Message("whisper transcription failed: " + Text(failed.failure) + "\nOutput: " + failed.output)))
    ensures r.result.Ok? ==> PreCheck(tree, w, audioPath).Pass? && run(WhisperArgs(w, audioPath)).WhisperExited?
    ensures PreCheck(tree, w, audioPath).Pass? && run(WhisperArgs(w, audioPath)).WhisperExited? ==>
      var written := run(WhisperArgs(w, audioPath)).written;
      written.Some? && tree.Write(OutputFile(audioPath), Raw(written.value)).outcome.Pass? ==> r.result == Ok(TrimSpace(written.value))
    ensures r.result.Ok? ==> r.tree.Get(OutputFile(audioPath)) == None
    ensures forall q :: !SameFile(q, OutputFile(audioPath)) ==> r.tree.Get(q) == tree.Get(q)
    ensures r.tree.dirs.Keys == tree.dirs.Keys && r.tree.locked == tree.locked
  {
    var check := PreCheck(tree, w, audioPath);
    if check.Fail? then Transcription(tree, Err(check.error))
    else
      match run(WhisperArgs(w, audioPath))
      case WhisperFailed(failure, output) =>
        Transcription(tree, Err(Message("whisper transcription failed: " + Text(failure) + "\nOutput: " + output)))
      case WhisperExited(written) =>
        var out := OutputFile(audioPath);
        var after := AfterRun(tree, audioPath, written);
        match after.Read(out)
        case Err(e) => Transcription(after, Err(Wrapped("failed to read transcription file", e)))
        case Ok(content) => Transcription(after.Remove(out).tree, Ok(TrimSpace(TextOf(content))))
  }

  /** What the backends do that is not modelled: the whisper.cpp process for a given argument
      vector, and the OpenAI service for a given audio path. */
  datatype Backends = Backends(whisper: seq<string> -> WhisperRun, openAI: string -> Result<string>)

  /** Transcriber.Transcribe, for either backend. The OpenAI backend does not touch the disk. */
  function TranscribeSpec(tree: Tree, t: Transcriber, audioPath: string, backends: Backends): (r: Transcription)
    ensures t.OpenAI? ==> r == Transcription(tree, backends.openAI(audioPath))
    ensures forall q :: !SameFile(q, OutputFile(audioPath)) ==> r.tree.Get(q) == tree.Get(q)
    ensures r.tree.dirs.Keys == tree.dirs.Keys && r.tree.locked == tree.locked
  {
    match t
    case WhisperLocal(_, _, _, _) => RunWhisper(tree, t, audioPath, backends.whisper)
    case OpenAI(_, _, _) => Transcription(tree, backends.openAI(audioPath))
  }

  /** WhisperLocal.Transcribe, step by step on the disk. */
  method TranscribeLocal(w: Transcriber, audioPath: string, fs: FileSystem, run: seq<string> -> WhisperRun)
    returns (r: Result<string>)
    requires w.WhisperLocal?
    modifies fs
    ensures Transcription(fs.tree, r) == RunWhisper(old(fs.tree), w, audioPath, run)
  {
    var missing := fs.StatMissing(w.binaryPath);
    if missing {
      return Err(Message("whisper binary not found at " + w.binaryPath));
    }
    missing := fs.StatMissing(w.modelPath);
    if missing {
      return Err(Message("whisper model not found at " + w.modelPath));
    }
    missing := fs.StatMissing(audioPath);
    if missing {
      return Err(Message("audio file not found at " + audioPath));
    }
    match run(WhisperArgs(w, audioPath))
    case WhisperFailed(failure, output) =>
      return Err(Message("whisper transcription failed: " + Text(failure) + "\nOutput: " + output));
    case WhisperExited(written) =>
      var transcriptionPath := OutputFile(audioPath);
      if written.Some? {
        var _ := fs.WriteFile(transcriptionPath, Raw(written.value));
      }
      var content := fs.ReadFile(transcriptionPath);
      if content.Err? {
        return Err(Wrapped("failed to read transcription file", content.error));
      }
      var _ := fs.Remove(transcriptionPath);
      return Ok(TrimSpace(TextOf(content.value)));
  }

  /** Transcriber.Transcribe: the local backend runs as above, the OpenAI one answers. */
  method Transcribe(t: Transcriber, audioPath: string, fs: FileSystem, backends: Backends) returns (r: Result<string>)
    modifies fs
    ensures Transcription(fs.tree, r) == TranscribeSpec(old(fs.tree), t, audioPath, backends)
  {
    if t.WhisperLocal? {
      r := TranscribeLocal(t, audioPath, fs, backends.whisper);
    } else {
      r := backends.openAI(audioPath);
    }
  }
}

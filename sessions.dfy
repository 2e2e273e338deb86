/** The recording session of internal/session/session.go as an object: its fields, the recorder
    it owns, and the methods that drive the disk, the recorder and the tools step by step. Each
    method is proved to leave the disk, the session and the outcome that the matching function of
    module SessionSpec describes. */
module Sessions {
  import opened Errors
  import opened Strings
  import opened Paths
  import opened Record
  import opened Disk
  import opened Config
  import opened SessionText
  import opened SessionSpec
  import Transcribe
  import Llm
  import Audio

  /** ensureDefaultPrompts. */
  method EnsureDefaultPromptFiles(fs: FileSystem, promptsDir: string) returns (o: Outcome)
    modifies fs
    ensures Effect(fs.tree, o) == EnsureDefaultPrompts(old(fs.tree), promptsDir)
  {
    var made := fs.MkdirAll(promptsDir);
    if made.Fail? {
      return Fail(Wrapped("failed to create prompts directory", made.error));
    }
    var withNotes := TemplatePath(promptsDir, "default", true);
    var missing := fs.StatMissing(withNotes);
    if missing {
      var written := fs.WriteFile(withNotes, Raw(DefaultPromptWithNotes));
      if written.Fail? {
        return Fail(Wrapped("failed to write default.txt", written.error));
      }
    }
    var noNotes := TemplatePath(promptsDir, "default", false);
    missing := fs.StatMissing(noNotes);
    if missing {
      var written := fs.WriteFile(noNotes, Raw(DefaultPromptNoNotes));
      if written.Fail? {
        return Fail(Wrapped("failed to write default_no_notes.txt", written.error));
      }
    }
    return Pass;
  }

  /** postProcessAudio. */
  method PostProcessAudio(fs: FileSystem, audioPath: string, sox: seq<string> -> SoxRun) returns (o: Outcome)
    modifies fs
    ensures Effect(fs.tree, o) == PostProcess(old(fs.tree), audioPath, sox)
  {
    var tempPath := audioPath + ".tmp.wav";
    match sox([audioPath, "-r", "16000", "-c", "1", tempPath, "norm", "highpass", "80", "lowpass", "8000"])
    case SoxFailed(failure, partial) =>
      if partial.Some? {
        var _ := fs.WriteFile(tempPath, partial.value);
      }
      return Fail(Wrapped("sox processing failed", failure));
    case SoxDone(output) =>
      var written := fs.WriteFile(tempPath, output);
      if written.Fail? {
        return Fail(Wrapped("sox processing failed", written.error));
      }
      var moved := fs.Rename(tempPath, audioPath);
      if moved.Fail? {
        var _ := fs.Remove(tempPath);
        return Fail(Wrapped("failed to replace audio file", moved.error));
      }
      return Pass;
  }

  class Session {
    var title: string
    var path: string
    const promptTemplate: string
    const preserveAudio: bool
    var startedAt: Instant
    const recorder: Audio.Recorder
    const transcriber: Transcribe.Transcriber
    const llm: Llm.Generator
    /** The path settings of the configuration the session was built from. */
    const paths: PathsConfig

    /** The recorder works in the configured temporary directory. */
    predicate Valid()
      reads this
    {
      recorder.tempDir == paths.tempDir
    }

    /** The session as a value. */
    function Data(): SessionData
      reads this, recorder
    {
      SessionData(title, path, promptTemplate, preserveAudio, startedAt, recorder.recordingPID, transcriber, llm, paths)
    }

    constructor (d: SessionData, recorder: Audio.Recorder)
      requires recorder.recordingPID == d.pid && recorder.tempDir == d.paths.tempDir
      ensures Data() == d && this.recorder == recorder && Valid()
    {
      title, path, promptTemplate, preserveAudio := d.title, d.path, d.promptTemplate, d.preserveAudio;
      startedAt, this.recorder, transcriber, llm, paths := d.startedAt, recorder, d.transcriber, d.llm, d.paths;
    }

    method SaveState(fs: FileSystem) returns (o: Outcome)
      modifies fs
      ensures Effect(fs.tree, o) == SessionSpec.SaveState(old(fs.tree), Data())
    {
      var made := fs.MkdirAll(paths.tempDir);
      if made.Fail? {
        return Fail(Wrapped("failed to create temp directory", made.error));
      }
      var written := fs.WriteFile(Join(paths.tempDir, StateFileName),
        Json(State(true, title, startedAt, path, promptTemplate, preserveAudio)));
      if written.Fail? {
        return Fail(Wrapped("failed to write state file", written.error));
      }
      return Pass;
    }

    method ClearState(fs: FileSystem) returns (o: Outcome)
      modifies fs
      ensures Effect(fs.tree, o) == SessionSpec.ClearState(old(fs.tree), paths.tempDir)
    {
      var removed := fs.Remove(Join(paths.tempDir, StateFileName));
      if removed.Fail? && !removed.error.IsNotExist() {
        return Fail(Wrapped("failed to clear state file", removed.error));
      }
      return Pass;
    }

    method LoadPromptTemplate(fs: FileSystem, hasNotes: bool) returns (template: string)
      ensures template == ResolveTemplate(fs.tree, paths.promptsDir, promptTemplate, hasNotes)
    {
      var suffix := if hasNotes then ".txt" else "_no_notes.txt";
      var content := fs.ReadFile(Join(paths.promptsDir, promptTemplate + suffix));
      if content.Err? {
        content := fs.ReadFile(Join(paths.promptsDir, "default" + suffix));
        if content.Err? {
          return "Error: No se pudo cargar la plantilla de prompt. Verifica la configuración.";
        }
      }
      return TextOf(content.value);
    }

    method CleanupAudio(fs: FileSystem) returns (o: Outcome)
      modifies fs
      ensures Effect(fs.tree, o) == SessionSpec.CleanupAudio(old(fs.tree), Data())
    {
      if preserveAudio {
        return Pass;
      }
      var removed := fs.Remove(Join(path, AudioFileName));
      if removed.Fail? && !removed.error.IsNotExist() {
        return Fail(Wrapped("failed to remove audio file", removed.error));
      }
      return Pass;
    }

    method ExtractAndRenameIfNeeded(fs: FileSystem)
      modifies this, fs
      ensures Step(fs.tree, Data(), Pass) == ExtractAndRename(old(fs.tree), old(Data()))
    {
      var content := fs.ReadFile(NotesPath(path));
      if content.Err? {
        return;
      }
      var slug := HeadingSlug(TextOf(content.value));
      if slug.None? {
        return;
      }
      MoveUnder(fs, slug.value);
    }

    /** The rename once the notes gave a heading with `slug`. */
    method MoveUnder(fs: FileSystem, slug: string)
      requires IsSlug(slug) && slug != ""
      modifies this, fs
      ensures Step(fs.tree, Data(), Pass) == MoveTo(old(fs.tree), old(Data()), slug)
    {
      ghost var before := Data();
      var newPath := RenamedPath(path, slug);
      var moved := fs.Rename(path, newPath);
      if moved.Pass? {
        title := RenamedTitle(path, slug);
        path := newPath;
        assert Data() == before.(title := RenamedTitle(before.path, slug), path := newPath);
      } else {
        assert Data() == before;
      }
    }

    /** The summary of Stop: generate it from the filled template and write resumen.md, ignoring
        a failed write. */
    method WriteSummary(fs: FileSystem, transcription: string, servers: Llm.Servers)
      modifies fs
      ensures fs.tree == SessionSpec.Summarize(old(fs.tree), Data(), transcription, servers)
    {
      var notesContent := fs.ReadFile(NotesPath(path));
      var notes := if notesContent.Ok? then TrimSpace(TextOf(notesContent.value)) else "";
      assert notes == NotesText(fs.tree, path);
      var template := LoadPromptTemplate(fs, |notes| > 0);
      var prompt := Fill(template, transcription, notes);
      assert prompt == PromptFor(fs.tree, Data(), transcription);
      var summary := Llm.Generate(llm, prompt, servers);
      var _ := fs.WriteFile(SummaryPath(Data()), Raw(SummaryText(summary)));
    }

    /** The end of Stop, from the summary on: generate and write it, clean up, clear the record. */
    method Summarize(fs: FileSystem, transcription: string, servers: Llm.Servers) returns (o: Outcome)
      modifies fs
      ensures Effect(fs.tree, o) == Finish(SessionSpec.Summarize(old(fs.tree), Data(), transcription, servers), Data())
    {
      WriteSummary(fs, transcription, servers);
      o := CleanupAudio(fs);
      if o.Fail? {
        return;
      }
      o := ClearState(fs);
    }

    /** Stop up to the saved transcript. */
    method StopRecording(fs: FileSystem, tools: Tools) returns (r: Result<string>)
      requires Valid()
      modifies recorder, fs
      ensures Transcribed(fs.tree, Data(), r) == StopFront(old(fs.tree), old(Data()), tools)
    {
      var stopped := recorder.Stop(tools.devices.terminate);
      if stopped.Fail? {
        return Err(Wrapped("failed to stop recording", stopped.error));
      }
      var audioPath := AudioPath(Data());
      var moved := fs.Rename(recorder.Path(), audioPath);
      if moved.Fail? {
        return Err(Wrapped("failed to move audio file", moved.error));
      }
      var processed := PostProcessAudio(fs, audioPath, tools.sox);
      if processed.Fail? {
        return Err(Wrapped("failed to process audio", processed.error));
      }
      var transcription := Transcribe.Transcribe(transcriber, audioPath, fs, tools.backends);
      if transcription.Err? {
        return Err(Wrapped("transcription failed", transcription.error));
      }
      var saved := fs.WriteFile(TranscriptPath(Data()), Raw(transcription.value));
      if saved.Fail? {
        return Err(Wrapped("failed to save transcription", saved.error));
      }
      return transcription;
    }

    /** Session.Stop. */
    method Stop(fs: FileSystem, tools: Tools) returns (o: Outcome)
      requires Valid()
      modifies recorder, fs
      ensures Step(fs.tree, Data(), o) == StopSpec(old(fs.tree), old(Data()), tools)
    {
      var transcription := StopRecording(fs, tools);
      if transcription.Err? {
        return Fail(transcription.error);
      }
      o := Summarize(fs, transcription.value, tools.servers);
    }

    /** Start up to the editor: the guard, the directory, the recorder, the record and the notes. */
    method RecordAndEdit(fs: FileSystem, tools: Tools) returns (o: Outcome)
      requires Valid()
      modifies recorder, fs
      ensures Step(fs.tree, Data(), o) == Launch(old(fs.tree), old(Data()), tools)
    {
      var existing := fs.ReadFile(StatePath(paths.tempDir));
      if existing.Ok? && existing.value.Json? && existing.value.state.active {
        return Fail(Message("session already active: " + existing.value.state.title));
      }
      var made := fs.MkdirAll(path);
      if made.Fail? {
        return Fail(Wrapped("failed to create session directory", made.error));
      }
      o := Record(fs, tools);
    }

    /** Start once the directory exists: the recorder, the record and the notes. */
    method Record(fs: FileSystem, tools: Tools) returns (o: Outcome)
      requires Valid()
      modifies recorder, fs
      ensures Step(fs.tree, Data(), o) == Capture(old(fs.tree), old(Data()), tools)
    {
      var started := recorder.Start(fs, tools.devices);
      if started.Fail? {
        return Fail(Wrapped("failed to start recording", started.error));
      }
      var saved := SaveState(fs);
      if saved.Fail? {
        var _ := recorder.Stop(tools.devices.terminate);
        return saved;
      }
      o := TakeNotes(fs, tools);
    }

    /** The editor on the notes of the session. */
    method TakeNotes(fs: FileSystem, tools: Tools) returns (o: Outcome)
      modifies recorder, fs
      ensures Step(fs.tree, Data(), o) == SessionSpec.TakeNotes(old(fs.tree), old(Data()), tools)
    {
      var notesPath := NotesPath(path);
      var run := tools.editor(notesPath);
      if run.saved.Some? {
        var _ := fs.WriteFile(notesPath, Raw(run.saved.value));
      }
      if run.exit.Fail? {
        var _ := recorder.Stop(tools.devices.terminate);
        return Fail(Wrapped("editor exited with error", run.exit.error));
      }
      o := Pass;
    }

    /** Session.Start. */
    method Start(fs: FileSystem, tools: Tools) returns (o: Outcome)
      requires Valid()
      modifies this, recorder, fs
      ensures Step(fs.tree, Data(), o) == StartSpec(old(fs.tree), old(Data()), tools)
    {
      o := RecordAndEdit(fs, tools);
      if o.Fail? {
        return;
      }
      ExtractAndRenameIfNeeded(fs);
      var saved := SaveState(fs);
      if saved.Fail? {
        var _ := recorder.Stop(tools.devices.terminate);
        return Fail(Wrapped("failed to save session state", saved.error));
      }
      o := Stop(fs, tools);
    }
  }

  /** What a session-returning call leaves, as values. */
  function Returned(r: Result<Session>): Result<SessionData>
    reads if r.Ok? then {r.value, r.value.recorder} else {}
  {
    if r.Ok? then Ok(r.value.Data()) else Err(r.error)
  }

  /** session.New. */
  method New(fs: FileSystem, promptTemplate: string, preserveAudio: bool, cfg: Config, tools: Tools)
    returns (r: Result<Session>)
    modifies fs
    ensures Created(fs.tree, Returned(r)) == NewSpec(old(fs.tree), promptTemplate, preserveAudio, cfg.Value(), tools)
    ensures r.Ok? ==> fresh(r.value) && fresh(r.value.recorder) && r.value.Valid()
  {
    var transcriber := Transcribe.New(cfg.transcription, tools.openAIKey);
    if transcriber.Err? {
      return Err(Wrapped("failed to initialize transcriber", transcriber.error));
    }
    var recorder := new Audio.Recorder(cfg.audio, cfg.paths.tempDir);
    var generator := Llm.New(cfg.llm, tools.claudeInit);
    if generator.Err? {
      return Err(Wrapped("failed to initialize LLM", generator.error));
    }
    var prompts := EnsureDefaultPromptFiles(fs, cfg.paths.promptsDir);
    if prompts.Fail? {
      return Err(Wrapped("failed to initialize prompts", prompts.error));
    }
    var s := new Session(SessionData(tools.timestamp, Join(cfg.paths.sessionsDir, tools.timestamp), promptTemplate,
      preserveAudio, tools.now, 0, transcriber.value, generator.value, cfg.paths), recorder);
    return Ok(s);
  }

  /** LoadActive. */
  method LoadActive(fs: FileSystem, cfg: Config, tools: Tools) returns (r: Result<Session>)
    modifies fs
    ensures Created(fs.tree, Returned(r)) == LoadActiveSpec(old(fs.tree), cfg.Value(), tools)
    ensures r.Ok? ==> fresh(r.value) && fresh(r.value.recorder) && r.value.Valid()
  {
    var data := fs.ReadFile(Join(cfg.paths.tempDir, StateFileName));
    if data.Err? {
      if data.error.IsNotExist() {
        return Err(Message("no active session found"));
      }
      return Err(Wrapped("failed to read state file", data.error));
    }
    if data.value.Raw? {
      return Err(Wrapped("failed to parse state file", SyntaxError));
    }
    var state := data.value.state;
    if !state.active {
      return Err(Message("no active session found"));
    }
    var created := New(fs, state.promptTemplate, state.preserveAudio, cfg, tools);
    if created.Err? {
      return Err(Wrapped("failed to reconstruct session", created.error));
    }
    var s := created.value;
    s.title := state.title;
    s.startedAt := state.startedAt;
    s.path := state.path;
    return Ok(s);
  }
}

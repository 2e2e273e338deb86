/** ProcessFile of internal/session/processor.go on the mutable disk. Each stage is a method
    proved to do what the matching function of module ProcessorSpec describes, and ProcessFile
    chains them as the code does, down to removing the audio from the directory the run started
    in even after the notes renamed it (see `ProcessorSpec.AsWrittenLeavesRenamedAudio`). */
module Processor {
  import opened Errors
  import opened Strings
  import opened Paths
  import opened Disk
  import opened Config
  import opened SessionText
  import opened SessionSpec
  import opened ProcessorSpec
  import Sessions
  import Transcribe
  import Llm

  /** copyFile. */
  method Copy(fs: FileSystem, src: string, dst: string) returns (o: Outcome)
    modifies fs
    ensures Effect(fs.tree, o) == CopyFile(old(fs.tree), src, dst)
  {
    var data := fs.ReadFile(src);
    if data.Err? {
      return Fail(data.error);
    }
    o := fs.WriteFile(dst, data.value);
  }

  /** loadPromptTemplateStandalone: the named template for the presence of notes, else the
      default one, else a fixed error text. */
  method LoadPromptTemplateStandalone(fs: FileSystem, promptsDir: string, templateName: string, hasNotes: bool)
    returns (template: string)
    ensures template == ResolveTemplate(fs.tree, promptsDir, templateName, hasNotes)
  {
    var content := fs.ReadFile(TemplatePath(promptsDir, templateName, hasNotes));
    if content.Err? {
      content := fs.ReadFile(TemplatePath(promptsDir, "default", hasNotes));
      if content.Err? {
        return MissingTemplate;
      }
    }
    return TextOf(content.value);
  }

  /** The checks and set-up before any audio is touched. */
  method PrepareRun(fs: FileSystem, audioPath: string, cfg: Settings, tools: Tools) returns (r: Result<Clients>)
    modifies fs
    ensures Prepared(fs.tree, r) == Prepare(old(fs.tree), audioPath, cfg, tools)
  {
    var missing := fs.StatMissing(audioPath);
    if missing {
      return Err(Message("audio file not found: " + audioPath));
    }
    var made := fs.MkdirAll(SessionDir(cfg, tools.timestamp));
    if made.Fail? {
      return Err(Wrapped("failed to create session directory", made.error));
    }
    var transcriber := Transcribe.New(cfg.transcription, tools.openAIKey);
    if transcriber.Err? {
      return Err(Wrapped("failed to initialize transcriber", transcriber.error));
    }
    var generator := Llm.New(cfg.llm, tools.claudeInit);
    if generator.Err? {
      return Err(Wrapped("failed to initialize LLM", generator.error));
    }
    var prompts := Sessions.EnsureDefaultPromptFiles(fs, cfg.paths.promptsDir);
    if prompts.Fail? {
      return Err(Wrapped("failed to initialize prompts", prompts.error));
    }
    return Ok(Clients(transcriber.value, generator.value));
  }

  /** Copy, post-process, transcribe, save the transcription. */
  method IngestAudio(fs: FileSystem, audioPath: string, sessionPath: string, t: Transcribe.Transcriber, tools: Tools)
    returns (r: Result<string>)
    modifies fs
    ensures Transcribe.Transcription(fs.tree, r) == Ingest(old(fs.tree), audioPath, sessionPath, t, tools)
  {
    var audio := AudioIn(sessionPath);
    var copied := Copy(fs, audioPath, audio);
    if copied.Fail? {
      return Err(Wrapped("failed to copy audio file", copied.error));
    }
    var processed := Sessions.PostProcessAudio(fs, audio, tools.sox);
    if processed.Fail? {
      return Err(Wrapped("failed to process audio", processed.error));
    }
    var transcription := Transcribe.Transcribe(t, audio, fs, tools.backends);
    if transcription.Err? {
      return Err(Wrapped("transcription failed", transcription.error));
    }
    var written := fs.WriteFile(Join(sessionPath, TranscriptFileName), Raw(transcription.value));
    if written.Fail? {
      return Err(Wrapped("failed to save transcription", written.error));
    }
    return transcription;
  }

  /** Copy the notes in and rename the directory after their heading. */
  method KeepNotesFile(fs: FileSystem, notesPath: string, sessionPath: string, timestamp: string)
    returns (newPath: string, notes: Result<string>)
    modifies fs
    ensures Kept(fs.tree, newPath, notes) == KeepNotes(old(fs.tree), notesPath, sessionPath, timestamp)
  {
    newPath := sessionPath;
    if notesPath == "" {
      return newPath, Ok("");
    }
    var content := fs.ReadFile(notesPath);
    if content.Err? {
      return newPath, Err(Wrapped("failed to read notes file", content.error));
    }
    var written := fs.WriteFile(Join(sessionPath, NotesFileName), content.value);
    if written.Fail? {
      return newPath, Err(Wrapped("failed to save notes", written.error));
    }
    var slug := HeadingSlug(TextOf(content.value));
    if slug.Some? {
      var target := RenamedDir(sessionPath, timestamp, slug.value);
      var moved := fs.Rename(sessionPath, target);
      if moved.Pass? {
        newPath := target;
      }
    }
    notes := Ok(TrimSpace(TextOf(content.value)));
  }

  /** Generate the summary and write resumen.md, ignoring a failed write. */
  method WriteSummary(fs: FileSystem, sessionPath: string, promptsDir: string, promptTemplate: string,
                      g: Llm.Generator, transcription: string, notes: string, servers: Llm.Servers)
    modifies fs
    ensures fs.tree == Summary(old(fs.tree), sessionPath, promptsDir, promptTemplate, g, transcription, notes, servers)
  {
    var template := LoadPromptTemplateStandalone(fs, promptsDir, promptTemplate, |notes| > 0);
    var generated := Llm.Generate(g, Fill(template, transcription, notes), servers);
    var _ := fs.WriteFile(Join(sessionPath, SummaryFileName), Raw(SummaryText(generated)));
  }

  /** Remove the processed audio; "not exist" is not an error. */
  method RemoveProcessedAudio(fs: FileSystem, audio: string) returns (o: Outcome)
    modifies fs
    ensures Effect(fs.tree, o) == RemoveAudio(old(fs.tree), audio)
  {
    var removed := fs.Remove(audio);
    if removed.Fail? && !removed.error.IsNotExist() {
      return Fail(Wrapped("failed to remove audio file", removed.error));
    }
    return Pass;
  }

  /** ProcessFile: a session directory from an existing recording and optional notes. */
  method ProcessFile(fs: FileSystem, audioPath: string, notesPath: string, promptTemplate: string, cfg: Config, tools: Tools)
    returns (o: Outcome)
    modifies fs
    ensures Effect(fs.tree, o) == ProcessAsWritten(old(fs.tree), audioPath, notesPath, promptTemplate, cfg.Value(), tools)
  {
    var o', _ := ProcessUpToRemoval(fs, audioPath, notesPath, promptTemplate, cfg.Value(), tools);
    if o'.Fail? {
      return o';
    }
    o := RemoveProcessedAudio(fs, AudioIn(SessionDir(cfg.Value(), tools.timestamp)));
  }

  /** ProcessFile up to the removal of the audio. */
  method ProcessUpToRemoval(fs: FileSystem, audioPath: string, notesPath: string, promptTemplate: string, cfg: Settings, tools: Tools)
    returns (o: Outcome, sessionPath: string)
    modifies fs
    ensures Processed(fs.tree, sessionPath, o) == UpToRemoval(old(fs.tree), audioPath, notesPath, promptTemplate, cfg, tools)
  {
    sessionPath := SessionDir(cfg, tools.timestamp);
    var clients := PrepareRun(fs, audioPath, cfg, tools);
    if clients.Err? {
      return Fail(clients.error), sessionPath;
    }
    var transcription := IngestAudio(fs, audioPath, sessionPath, clients.value.transcriber, tools);
    if transcription.Err? {
      return Fail(transcription.error), sessionPath;
    }
    var notes;
    sessionPath, notes := KeepNotesFile(fs, notesPath, sessionPath, tools.timestamp);
    if notes.Err? {
      return Fail(notes.error), sessionPath;
    }
    WriteSummary(fs, sessionPath, cfg.paths.promptsDir, promptTemplate, clients.value.llm, transcription.value, notes.value, tools.servers);
    return Pass, sessionPath;
  }
}

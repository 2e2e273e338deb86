/** ProcessFile of internal/session/processor.go as values: turning an existing audio file (and,
    optionally, a notes file) into a session directory with the transcript, the notes and the
    summary, stage by stage. Each stage is a function from the disk to the disk it leaves and
    what it yields; ProcessFile chains them and stops at the first failure.

    The code as written removes the processed audio from the directory path it had before the
    rename after the notes' heading; `ProcessAsWritten` models that, and `Process` the evidently
    intended removal from the directory the session ends up in. */
module ProcessorSpec {
  import opened Errors
  import opened Strings
  import opened Paths
  import opened Disk
  import opened Config
  import opened SessionText
  import opened SessionSpec
  import Transcribe
  import Llm

  /** The directory a run starts in: `<sessionsDir>/<timestamp>`. */
  function SessionDir(cfg: Settings, timestamp: string): string
  {
    Join(cfg.paths.sessionsDir, timestamp)
  }

  /** The copy of the audio inside a session directory. */
  function AudioIn(sessionPath: string): string
  {
    Join(sessionPath, AudioFileName)
  }

  /** The directory a heading with `slug` renames the session to: `<timestamp>-<slug>` beside it. */
  function RenamedDir(sessionPath: string, timestamp: string, slug: string): string
  {
    Join(Dir(sessionPath), timestamp + "-" + slug)
  }

  // ---------------------------------------------------------------------------------------
  // copyFile

  /** copyFile: read the whole source and write it to the destination. */
  function CopyFile(tree: Tree, src: string, dst: string): (r: Effect)
    ensures r.outcome.Pass? <==> tree.Read(src).Ok? && dst !in tree.locked && !tree.IsDir(dst) && Dir(dst) in tree.dirs
    ensures r.outcome.Pass? ==> r.tree.Get(dst) == tree.Get(src)
    ensures tree.Read(src).Err? ==> r.outcome == Fail(tree.Read(src).error)
    ensures r.outcome.Fail? ==> r.tree == tree
    ensures forall q :: !SameFile(q, dst) ==> r.tree.Get(q) == tree.Get(q)
    ensures r.tree.dirs.Keys == tree.dirs.Keys && r.tree.locked == tree.locked
  {
    match tree.Read(src)
    case Err(e) => Effect(tree, Fail(e))
    case Ok(data) => tree.Write(dst, data)
  }

  // ---------------------------------------------------------------------------------------
  // The stages

  /** The two clients a run builds from the configuration. */
  datatype Clients = Clients(transcriber: Transcribe.Transcriber, llm: Llm.Generator)

  datatype Prepared = Prepared(tree: Tree, clients: Result<Clients>)

  /** Refuse an audio path that does not exist, create the session directory, build
      the transcriber and the generator, and write the built-in prompts. */
  function Prepare(tree: Tree, audioPath: string, cfg: Settings, tools: Tools): (r: Prepared)
    ensures tree.Missing(audioPath) ==> r == Prepared(tree, Err(Message("audio file not found: " + audioPath)))
    ensures r.clients.Ok? ==> !tree.Missing(audioPath) && r.tree.IsDir(SessionDir(cfg, tools.timestamp))
    ensures r.clients.Ok? ==>
      && Transcribe.New(cfg.transcription, tools.openAIKey).Ok? && Llm.New(cfg.llm, tools.claudeInit).Ok?
      && r.clients.value == Clients(Transcribe.New(cfg.transcription, tools.openAIKey).value, Llm.New(cfg.llm, tools.claudeInit).value)
    ensures forall q :: tree.IsFile(q) ==> r.tree.Get(q) == tree.Get(q)
    ensures forall q ::
      (!SameFile(q, TemplatePath(cfg.paths.promptsDir, "default", true)) && !SameFile(q, TemplatePath(cfg.paths.promptsDir, "default", false)))
      ==> r.tree.Get(q) == tree.Get(q)
    ensures r.tree.locked == tree.locked
  {
    if tree.Missing(audioPath) then Prepared(tree, Err(Message("audio file not found: " + audioPath)))
    else
      var mk := tree.MkdirAll(SessionDir(cfg, tools.timestamp));
      if mk.outcome.Fail? then Prepared(tree, Err(Wrapped("failed to create session directory", mk.outcome.error)))
      else
        var transcriber := Transcribe.New(cfg.transcription, tools.openAIKey);
        var generator := Llm.New(cfg.llm, tools.claudeInit);
        if transcriber.Err? then Prepared(mk.tree, Err(Wrapped("failed to initialize transcriber", transcriber.error)))
        else if generator.Err? then Prepared(mk.tree, Err(Wrapped("failed to initialize LLM", generator.error)))
        else WithPrompts(mk.tree, cfg.paths.promptsDir, Clients(transcriber.value, generator.value))
  }

  /** The last step of the preparation: the built-in prompts, which must be written for the run
      to go on. */
  function WithPrompts(tree: Tree, promptsDir: string, clients: Clients): (r: Prepared)
    ensures r.clients.Ok? ==> r.clients.value == clients
    ensures forall q :: tree.IsFile(q) ==> r.tree.Get(q) == tree.Get(q)
    ensures forall q ::
      (!SameFile(q, TemplatePath(promptsDir, "default", true)) && !SameFile(q, TemplatePath(promptsDir, "default", false)))
      ==> r.tree.Get(q) == tree.Get(q)
    ensures r.tree.locked == tree.locked
    ensures forall d :: tree.IsDir(d) ==> r.tree.IsDir(d)
  {
    var prompts := EnsureDefaultPrompts(tree, promptsDir);
    if prompts.outcome.Fail? then Prepared(prompts.tree, Err(Wrapped("failed to initialize prompts", prompts.outcome.error)))
    else Prepared(prompts.tree, Ok(clients))
  }

  /** Copy the audio into the session as audio.wav, post-process it, transcribe it
      and save the transcription. */
  function Ingest(tree: Tree, audioPath: string, sessionPath: string, t: Transcribe.Transcriber, tools: Tools)
    : (r: Transcribe.Transcription)
    ensures CopyFile(tree, audioPath, AudioIn(sessionPath)).outcome.Fail? ==>
      r == Transcribe.Transcription(tree, Err(Wrapped("failed to copy audio file", CopyFile(tree, audioPath, AudioIn(sessionPath)).outcome.error)))
    ensures r.result.Ok? ==> r.tree.Get(Join(sessionPath, TranscriptFileName)) == Some(Raw(r.result.value))
    ensures r.result.Err? ==> r.tree.Get(Join(sessionPath, TranscriptFileName)) == tree.Get(Join(sessionPath, TranscriptFileName))
    ensures forall q ::
      (&& !SameFile(q, AudioIn(sessionPath)) && !SameFile(q, ProcessedPath(AudioIn(sessionPath)))
       && !SameFile(q, Transcribe.OutputFile(AudioIn(sessionPath))) && !SameFile(q, Join(sessionPath, TranscriptFileName)))
      ==> r.tree.Get(q) == tree.Get(q)
    ensures r.tree.dirs.Keys == tree.dirs.Keys && r.tree.locked == tree.locked
  {
    var audio := AudioIn(sessionPath);
    var transcript := Join(sessionPath, TranscriptFileName);
    IngestNames(sessionPath);
    assert !SameFile(transcript, audio) && !SameFile(transcript, ProcessedPath(audio))
      && !SameFile(transcript, Transcribe.OutputFile(audio));
    var copied := CopyFile(tree, audioPath, audio);
    if copied.outcome.Fail? then Transcribe.Transcription(tree, Err(Wrapped("failed to copy audio file", copied.outcome.error)))
    else
      var processed := PostProcess(copied.tree, audio, tools.sox);
      if processed.outcome.Fail? then Transcribe.Transcription(processed.tree, Err(Wrapped("failed to process audio", processed.outcome.error)))
      else
        var transcribed := Transcribe.TranscribeSpec(processed.tree, t, audio, tools.backends);
        if transcribed.result.Err? then Transcribe.Transcription(transcribed.tree, Err(Wrapped("transcription failed", transcribed.result.error)))
        else
          var written := transcribed.tree.Write(Join(sessionPath, TranscriptFileName), Raw(transcribed.result.value));
          if written.outcome.Fail? then Transcribe.Transcription(written.tree, Err(Wrapped("failed to save transcription", written.outcome.error)))
          else Transcribe.Transcription(written.tree, transcribed.result)
  }

  /** What the notes stage leaves: the disk, the directory the session is now in, and the
      trimmed notes. */
  datatype Kept = Kept(tree: Tree, sessionPath: string, notes: Result<string>)

  /** The rename after a heading; a failed rename is only a warning and keeps the directory. */
  function MoveSession(tree: Tree, sessionPath: string, newPath: string): (r: Kept)
    ensures tree.Rename(sessionPath, newPath).outcome.Fail? ==> r == Kept(tree, sessionPath, Ok(""))
    ensures tree.Rename(sessionPath, newPath).outcome.Pass? ==> r == Kept(tree.Rename(sessionPath, newPath).tree, newPath, Ok(""))
  {
    var mv := tree.Rename(sessionPath, newPath);
    if mv.outcome.Fail? then Kept(tree, sessionPath, Ok(""))
    else Kept(mv.tree, newPath, Ok(""))
  }

  /** The notes once read: copy them into the session as notas.md, and when their first line is
      a heading with a non-empty slug, rename the directory to `<timestamp>-<slug>`. */
  function KeepContent(tree: Tree, content: Data, sessionPath: string, timestamp: string): (r: Kept)
    ensures var saved := tree.Write(Join(sessionPath, NotesFileName), content);
      && (saved.outcome.Fail? ==> r == Kept(tree, sessionPath, Err(Wrapped("failed to save notes", saved.outcome.error))))
      && (saved.outcome.Pass? && HeadingSlug(TextOf(content)).None? ==> r == Kept(saved.tree, sessionPath, Ok(TrimSpace(TextOf(content)))))
      && (saved.outcome.Pass? && HeadingSlug(TextOf(content)).Some? ==>
            var moved := MoveSession(saved.tree, sessionPath, RenamedDir(sessionPath, timestamp, HeadingSlug(TextOf(content)).value));
            r == Kept(moved.tree, moved.sessionPath, Ok(TrimSpace(TextOf(content)))))
    ensures r.notes.Ok? ==> r.notes.value == TrimSpace(TextOf(content))
    ensures r.notes.Ok? && r.sessionPath == sessionPath ==> r.tree.Get(Join(sessionPath, NotesFileName)) == Some(content)
    ensures r.sessionPath != sessionPath ==>
      && HeadingSlug(TextOf(content)).Some?
      && r.sessionPath == RenamedDir(sessionPath, timestamp, HeadingSlug(TextOf(content)).value)
      && var saved := tree.Write(Join(sessionPath, NotesFileName), content);
         saved.outcome.Pass? && saved.tree.Rename(sessionPath, r.sessionPath) == Effect(r.tree, Pass)
  {
    var notes := TrimSpace(TextOf(content));
    var saved := tree.Write(Join(sessionPath, NotesFileName), content);
    if saved.outcome.Fail? then Kept(saved.tree, sessionPath, Err(Wrapped("failed to save notes", saved.outcome.error)))
    else
      match HeadingSlug(TextOf(content))
      case None => Kept(saved.tree, sessionPath, Ok(notes))
      case Some(slug) =>
        var moved := MoveSession(saved.tree, sessionPath, RenamedDir(sessionPath, timestamp, slug));
        Kept(moved.tree, moved.sessionPath, Ok(notes))
  }

  /** Without a notes path there are no notes. Otherwise read them (failing if
      that fails), copy them into the session as notas.md, and when their first line is a
      heading with a non-empty slug, rename the directory to `<timestamp>-<slug>`. */
  function KeepNotes(tree: Tree, notesPath: string, sessionPath: string, timestamp: string): (r: Kept)
    ensures notesPath == "" ==> r == Kept(tree, sessionPath, Ok(""))
    ensures notesPath != "" && tree.Read(notesPath).Err? ==>
      r == Kept(tree, sessionPath, Err(Wrapped("failed to read notes file", tree.Read(notesPath).error)))
    ensures notesPath != "" && tree.Read(notesPath).Ok? ==> r == KeepContent(tree, tree.Read(notesPath).value, sessionPath, timestamp)
    ensures notesPath != "" && r.notes.Ok? ==> tree.Read(notesPath).Ok? && r.notes.value == TrimSpace(TextOf(tree.Read(notesPath).value))
    ensures r.sessionPath != sessionPath ==>
      && notesPath != "" && tree.Read(notesPath).Ok? && HeadingSlug(TextOf(tree.Read(notesPath).value)).Some?
      && r.sessionPath == RenamedDir(sessionPath, timestamp, HeadingSlug(TextOf(tree.Read(notesPath).value)).value)
    ensures r.sessionPath != sessionPath ==>
      var saved := tree.Write(Join(sessionPath, NotesFileName), tree.Read(notesPath).value);
      saved.outcome.Pass? && saved.tree.Rename(sessionPath, r.sessionPath) == Effect(r.tree, Pass)
    ensures notesPath != "" && r.notes.Ok? && r.sessionPath == sessionPath ==>
      r.tree.Get(Join(sessionPath, NotesFileName)) == Some(tree.Read(notesPath).value)
  {
    if notesPath == "" then Kept(tree, sessionPath, Ok(""))
    else
      match tree.Read(notesPath)
      case Err(e) => Kept(tree, sessionPath, Err(Wrapped("failed to read notes file", e)))
      case Ok(content) => KeepContent(tree, content, sessionPath, timestamp)
  }

  /** The prompt from the template chosen by the presence of notes, and
      resumen.md holding the summary or the generation error; a failed write is ignored. */
  function Summary(tree: Tree, sessionPath: string, promptsDir: string, promptTemplate: string, g: Llm.Generator,
                   transcription: string, notes: string, servers: Llm.Servers): (r: Tree)
    ensures tree.Write(Join(sessionPath, SummaryFileName), Raw("")).outcome.Pass? ==>
      r.Get(Join(sessionPath, SummaryFileName)) ==
        Some(Raw(SummaryText(Llm.Generate(g, Fill(ResolveTemplate(tree, promptsDir, promptTemplate, notes != ""), transcription, notes), servers))))
    ensures forall q :: !SameFile(q, Join(sessionPath, SummaryFileName)) ==> r.Get(q) == tree.Get(q)
    ensures r.dirs.Keys == tree.dirs.Keys && r.locked == tree.locked
  {
    var template := ResolveTemplate(tree, promptsDir, promptTemplate, notes != "");
    var generated := Llm.Generate(g, Fill(template, transcription, notes), servers);
    tree.Write(Join(sessionPath, SummaryFileName), Raw(SummaryText(generated))).tree
  }

  /** Remove the audio; a file that is already gone is not an error. */
  function RemoveAudio(tree: Tree, audio: string): (r: Effect)
    ensures r.outcome.Pass? <==> audio !in tree.locked && (tree.IsFile(audio) || tree.IsEmptyDir(audio) || !tree.Exists(audio))
    ensures r.outcome.Pass? ==> r.tree.Get(audio) == None
    ensures r.outcome.Pass? && !tree.Exists(audio) ==> r.tree == tree
    ensures r.outcome.Fail? ==> r.tree == tree && r.outcome == Fail(Wrapped("failed to remove audio file", tree.Remove(audio).outcome.error))
    ensures forall q :: !SameFile(q, audio) ==> r.tree.Get(q) == tree.Get(q)
  {
    var rm := tree.Remove(audio);
    if rm.outcome.Fail? && !rm.outcome.error.IsNotExist() then Effect(rm.tree, Fail(Wrapped("failed to remove audio file", rm.outcome.error)))
    else Effect(rm.tree, Pass)
  }

  // ---------------------------------------------------------------------------------------
  // ProcessFile

  /** A run up to the removal of the audio: the disk, the directory the session ended up in,
      and whether every stage succeeded. */
  datatype Processed = Processed(tree: Tree, sessionPath: string, outcome: Outcome)

  function UpToRemoval(tree: Tree, audioPath: string, notesPath: string, promptTemplate: string, cfg: Settings, tools: Tools)
    : (r: Processed)
    ensures tree.Missing(audioPath) ==> r == Processed(tree, SessionDir(cfg, tools.timestamp), Fail(Message("audio file not found: " + audioPath)))
  {
    var dir := SessionDir(cfg, tools.timestamp);
    var prepared := Prepare(tree, audioPath, cfg, tools);
    if prepared.clients.Err? then Processed(prepared.tree, dir, Fail(prepared.clients.error))
    else
      var ingested := Ingest(prepared.tree, audioPath, dir, prepared.clients.value.transcriber, tools);
      if ingested.result.Err? then Processed(ingested.tree, dir, Fail(ingested.result.error))
      else
        var kept := KeepNotes(ingested.tree, notesPath, dir, tools.timestamp);
        if kept.notes.Err? then Processed(kept.tree, kept.sessionPath, Fail(kept.notes.error))
        else
          var summarized := Summary(kept.tree, kept.sessionPath, cfg.paths.promptsDir, promptTemplate,
                                    prepared.clients.value.llm, ingested.result.value, kept.notes.value, tools.servers);
          Processed(summarized, kept.sessionPath, Pass)
  }

  /** ProcessFile as written: the audio removed is the one under the directory's original path. */
  function ProcessAsWritten(tree: Tree, audioPath: string, notesPath: string, promptTemplate: string, cfg: Settings, tools: Tools)
    : (r: Effect)
    ensures tree.Missing(audioPath) ==> r == Effect(tree, Fail(Message("audio file not found: " + audioPath)))
  {
    var p := UpToRemoval(tree, audioPath, notesPath, promptTemplate, cfg, tools);
    if p.outcome.Fail? then Effect(p.tree, p.outcome)
    else RemoveAudio(p.tree, AudioIn(SessionDir(cfg, tools.timestamp)))
  }

  /** ProcessFile as intended: the audio removed is the one in the directory the session ended up
      in, so a successful run never leaves audio.wav behind. */
  function Process(tree: Tree, audioPath: string, notesPath: string, promptTemplate: string, cfg: Settings, tools: Tools)
    : (r: Effect)
    ensures tree.Missing(audioPath) ==> r == Effect(tree, Fail(Message("audio file not found: " + audioPath)))
    ensures r.outcome.Pass? ==>
      r.tree.Get(AudioIn(UpToRemoval(tree, audioPath, notesPath, promptTemplate, cfg, tools).sessionPath)) == None
  {
    var p := UpToRemoval(tree, audioPath, notesPath, promptTemplate, cfg, tools);
    if p.outcome.Fail? then Effect(p.tree, p.outcome)
    else RemoveAudio(p.tree, AudioIn(p.sessionPath))
  }

  /** Without a rename the two removals are the same, so the runs agree. */
  lemma AgreeWithoutRename(tree: Tree, audioPath: string, notesPath: string, promptTemplate: string, cfg: Settings, tools: Tools)
    requires UpToRemoval(tree, audioPath, notesPath, promptTemplate, cfg, tools).sessionPath == SessionDir(cfg, tools.timestamp)
    ensures ProcessAsWritten(tree, audioPath, notesPath, promptTemplate, cfg, tools) == Process(tree, audioPath, notesPath, promptTemplate, cfg, tools)
  {
  }

  // ---------------------------------------------------------------------------------------
  // The audio a renamed run leaves behind

  /** A timestamp as time.Format("20060102-1504") gives it: a name with no dot in it. */
  predicate IsStamp(timestamp: string)
  {
    IsName(timestamp) && '.' !in timestamp
  }

  /** Every file a run writes has a dot in its name, so it is never the session directory. */
  lemma DottedNames()
    ensures '.' in AudioFileName && '.' in AudioFileName + ProcessedSuffix && '.' in "transcription" + ".txt"
    ensures '.' in TranscriptFileName && '.' in NotesFileName && '.' in SummaryFileName
    ensures '.' in "default" + TemplateSuffix(true) && '.' in "default" + TemplateSuffix(false)
  {
    assert AudioFileName[5] == '.';
    assert (AudioFileName + ProcessedSuffix)[5] == '.';
    assert ("transcription" + ".txt")[13] == '.';
    assert TranscriptFileName[13] == '.';
    assert NotesFileName[5] == '.';
    assert SummaryFileName[7] == '.';
    assert ("default" + TemplateSuffix(true))[7] == '.';
    assert ("default" + TemplateSuffix(false))[16] == '.';
  }

  /** The names of the files the ingest stage writes next to audio.wav. */
  lemma IngestNames(dir: string)
    ensures Base(AudioIn(dir)) == AudioFileName
    ensures Base(ProcessedPath(AudioIn(dir))) == AudioFileName + ProcessedSuffix
    ensures Base(Transcribe.OutputFile(AudioIn(dir))) == "transcription" + ".txt"
    ensures Base(Join(dir, TranscriptFileName)) == TranscriptFileName
    ensures |AudioFileName| != |"transcription" + ".txt"| && |AudioFileName| != |TranscriptFileName|
    ensures TranscriptFileName != AudioFileName + ProcessedSuffix && TranscriptFileName != "transcription" + ".txt"
  {
    assert TranscriptFileName[0] != (AudioFileName + ProcessedSuffix)[0];
    assert TranscriptFileName[9] != ("transcription" + ".txt")[9];
    FileNames();
    JoinSplits(dir, AudioFileName);
    JoinSplits(dir, TranscriptFileName);
    SuffixedName(dir, AudioFileName, ProcessedSuffix);
    SuffixedName(Dir(AudioIn(dir)), "transcription", ".txt");
  }

  /** The renamed directory's name has no separator and no dot. */
  lemma RenamedName(timestamp: string, slug: string)
    requires IsStamp(timestamp) && IsSlug(slug)
    ensures IsName(timestamp + "-" + slug) && '.' !in timestamp + "-" + slug
  {
    var name := timestamp + "-" + slug;
    forall k | 0 <= k < |name| ensures name[k] != '/' && name[k] != '.' {
      if k < |timestamp| {
        assert name[k] == timestamp[k];
      } else if k > |timestamp| {
        assert name[k] == slug[k - |timestamp| - 1];
        assert IsSlugChar(slug[k - |timestamp| - 1]);
      }
    }
  }

  /** Preparing keeps the session path a directory and nothing else. */
  lemma PrepareLeavesDirectory(tree: Tree, audioPath: string, cfg: Settings, tools: Tools)
    requires IsStamp(tools.timestamp) && !tree.IsFile(SessionDir(cfg, tools.timestamp))
    requires Prepare(tree, audioPath, cfg, tools).clients.Ok?
    ensures var t := Prepare(tree, audioPath, cfg, tools).tree;
      t.IsDir(SessionDir(cfg, tools.timestamp)) && !t.IsFile(SessionDir(cfg, tools.timestamp))
  {
    var dir := SessionDir(cfg, tools.timestamp);
    FileNames();
    DottedNames();
    JoinSplits(cfg.paths.sessionsDir, tools.timestamp);
    JoinSplits(cfg.paths.promptsDir, "default" + TemplateSuffix(true));
    JoinSplits(cfg.paths.promptsDir, "default" + TemplateSuffix(false));
    assert !SameFile(dir, TemplatePath(cfg.paths.promptsDir, "default", true));
    assert !SameFile(dir, TemplatePath(cfg.paths.promptsDir, "default", false));
  }

  /** After a successful ingest, audio.wav is a file in the session directory, which is still a
      directory and nothing else. */
  lemma IngestLeavesAudio(tree: Tree, audioPath: string, sessionsDir: string, timestamp: string, t: Transcribe.Transcriber, tools: Tools)
    requires IsStamp(timestamp)
    requires tree.IsDir(Join(sessionsDir, timestamp)) && !tree.IsFile(Join(sessionsDir, timestamp))
    requires Ingest(tree, audioPath, Join(sessionsDir, timestamp), t, tools).result.Ok?
    ensures var dir := Join(sessionsDir, timestamp);
      var r := Ingest(tree, audioPath, dir, t, tools).tree;
      && r.IsDir(dir) && !r.IsFile(dir)
      && r.Get(AudioIn(dir)).Some? && !r.IsDir(AudioIn(dir)) && AudioIn(dir) !in r.locked
  {
    var dir := Join(sessionsDir, timestamp);
    var audio := AudioIn(dir);
    var output := Transcribe.OutputFile(audio);
    var transcript := Join(dir, TranscriptFileName);
    DottedNames();
    IngestNames(dir);
    JoinSplits(sessionsDir, timestamp);
    assert !SameFile(dir, audio) && !SameFile(dir, ProcessedPath(audio)) && !SameFile(dir, output) && !SameFile(dir, transcript);
    assert !SameFile(audio, output) && !SameFile(audio, transcript);
    var copied := CopyFile(tree, audioPath, audio);
    assert copied.outcome.Pass?;
    var processed := PostProcess(copied.tree, audio, tools.sox);
    assert processed.outcome.Pass?;
    var transcribed := Transcribe.TranscribeSpec(processed.tree, t, audio, tools.backends);
    assert transcribed.result.Ok?;
    var written := transcribed.tree.Write(transcript, Raw(transcribed.result.value));
    assert written.outcome.Pass?;
    assert Ingest(tree, audioPath, dir, t, tools).tree == written.tree;
    assert processed.tree.Get(audio).Some?;
    assert written.tree.Get(audio) == processed.tree.Get(audio);
    assert written.tree.Get(dir) == tree.Get(dir);
  }

  /** A rename after the heading moves the directory with audio.wav in it: the old path is gone
      and the file lies under the new one. */
  lemma RenameMovesAudio(tree: Tree, notesPath: string, sessionsDir: string, timestamp: string)
    requires IsStamp(timestamp)
    requires var dir := Join(sessionsDir, timestamp);
      && tree.IsDir(dir) && !tree.IsFile(dir)
      && tree.Get(AudioIn(dir)).Some? && !tree.IsDir(AudioIn(dir)) && AudioIn(dir) !in tree.locked
    requires var r := KeepNotes(tree, notesPath, Join(sessionsDir, timestamp), timestamp);
      r.notes.Ok? && r.sessionPath != Join(sessionsDir, timestamp)
    ensures var dir := Join(sessionsDir, timestamp);
      var r := KeepNotes(tree, notesPath, dir, timestamp);
      && r.tree.Get(AudioIn(r.sessionPath)) == tree.Get(AudioIn(dir))
      && !r.tree.IsDir(dir) && !r.tree.Exists(AudioIn(dir)) && AudioIn(dir) !in r.tree.locked
  {
    var dir := Join(sessionsDir, timestamp);
    var r := KeepNotes(tree, notesPath, dir, timestamp);
    var content := tree.Read(notesPath).value;
    var slug := HeadingSlug(TextOf(content)).value;
    NotesStageRenames(tree, notesPath, sessionsDir, timestamp);
    var saved := tree.Write(Join(dir, NotesFileName), content).tree;
    RenamedName(timestamp, slug);
    MoveCarriesAudio(saved, sessionsDir, timestamp, timestamp + "-" + slug);
  }

  /** The notes copied into a renamed session are under its new path: notas.md holds the notes
      file unchanged there, and nothing is left under the old path. */
  lemma NotesFollowRename(tree: Tree, notesPath: string, sessionsDir: string, timestamp: string)
    requires IsStamp(timestamp)
    requires tree.IsDir(Join(sessionsDir, timestamp)) && !tree.IsFile(Join(sessionsDir, timestamp))
    requires var r := KeepNotes(tree, notesPath, Join(sessionsDir, timestamp), timestamp);
      r.notes.Ok? && r.sessionPath != Join(sessionsDir, timestamp)
    ensures var dir := Join(sessionsDir, timestamp);
      var r := KeepNotes(tree, notesPath, dir, timestamp);
      && r.tree.Get(Join(r.sessionPath, NotesFileName)) == Some(tree.Read(notesPath).value)
      && !r.tree.Exists(Join(dir, NotesFileName))
  {
    var dir := Join(sessionsDir, timestamp);
    var r := KeepNotes(tree, notesPath, dir, timestamp);
    var content := tree.Read(notesPath).value;
    var slug := HeadingSlug(TextOf(content)).value;
    NotesStageRenames(tree, notesPath, sessionsDir, timestamp);
    var saved := tree.Write(Join(dir, NotesFileName), content);
    assert saved.outcome.Pass? && saved.tree.Get(Join(dir, NotesFileName)) == Some(content);
    RenamedName(timestamp, slug);
    FileNames();
    DottedNames();
    MoveCarriesEntry(saved.tree, sessionsDir, timestamp, timestamp + "-" + slug, NotesFileName);
  }

  /** The notes stage of a renamed run: notas.md is written beside audio.wav, then the
      directory is renamed. */
  lemma NotesStageRenames(tree: Tree, notesPath: string, sessionsDir: string, timestamp: string)
    requires IsStamp(timestamp)
    requires var r := KeepNotes(tree, notesPath, Join(sessionsDir, timestamp), timestamp);
      r.notes.Ok? && r.sessionPath != Join(sessionsDir, timestamp)
    ensures var dir := Join(sessionsDir, timestamp);
      var r := KeepNotes(tree, notesPath, dir, timestamp);
      var saved := tree.Write(Join(dir, NotesFileName), tree.Read(notesPath).value).tree;
      && saved.Get(AudioIn(dir)) == tree.Get(AudioIn(dir)) && saved.Get(dir) == tree.Get(dir)
      && saved.dirs.Keys == tree.dirs.Keys && saved.locked == tree.locked
      && saved.Rename(dir, r.sessionPath) == Effect(r.tree, Pass)
  {
    var dir := Join(sessionsDir, timestamp);
    var r := KeepNotes(tree, notesPath, dir, timestamp);
    var content := tree.Read(notesPath).value;
    var saved := tree.Write(Join(dir, NotesFileName), content).tree;
    FileNames();
    DottedNames();
    JoinSplits(dir, NotesFileName);
    JoinSplits(dir, AudioFileName);
    assert Base(Join(dir, NotesFileName)) != Base(AudioIn(dir));
    assert !SameFile(AudioIn(dir), Join(dir, NotesFileName));
    JoinSplits(sessionsDir, timestamp);
    assert Base(dir) != Base(Join(dir, NotesFileName));
  }

  /** Renaming the session directory to a sibling `newName` carries audio.wav along. */
  lemma MoveCarriesAudio(t: Tree, sessionsDir: string, timestamp: string, newName: string)
    requires IsStamp(timestamp) && IsName(newName) && '.' !in newName
    requires var dir := Join(sessionsDir, timestamp);
      && t.IsDir(dir) && !t.IsFile(dir)
      && t.Get(AudioIn(dir)).Some? && !t.IsDir(AudioIn(dir)) && AudioIn(dir) !in t.locked
    requires var dir := Join(sessionsDir, timestamp);
      Join(Dir(dir), newName) != dir && t.Rename(dir, Join(Dir(dir), newName)).outcome.Pass?
    ensures var dir := Join(sessionsDir, timestamp);
      var m := t.Rename(dir, Join(Dir(dir), newName)).tree;
      && m.Get(AudioIn(Join(Dir(dir), newName))) == t.Get(AudioIn(dir))
      && !m.IsDir(dir) && !m.Exists(AudioIn(dir)) && AudioIn(dir) !in m.locked
  {
    FileNames();
    DottedNames();
    MoveCarriesEntry(t, sessionsDir, timestamp, newName, AudioFileName);
  }

  /** Renaming the session directory to a sibling `newName` carries any file of it whose name
      has a dot (every file a run writes) along. */
  lemma MoveCarriesEntry(t: Tree, sessionsDir: string, timestamp: string, newName: string, name: string)
    requires IsStamp(timestamp) && IsName(newName) && '.' !in newName && IsName(name) && '.' in name
    requires var dir := Join(sessionsDir, timestamp);
      t.IsDir(dir) && !t.IsFile(dir) && !t.IsDir(Join(dir, name))
    requires var dir := Join(sessionsDir, timestamp);
      Join(Dir(dir), newName) != dir && t.Rename(dir, Join(Dir(dir), newName)).outcome.Pass?
    ensures var dir := Join(sessionsDir, timestamp);
      var m := t.Rename(dir, Join(Dir(dir), newName)).tree;
      && m.Get(Join(Join(Dir(dir), newName), name)) == t.Get(Join(dir, name))
      && !m.IsDir(dir) && !m.Exists(Join(dir, name)) && m.locked == t.locked
  {
    var dir := Join(sessionsDir, timestamp);
    var newPath := Join(Dir(dir), newName);
    JoinIsClean(sessionsDir, timestamp);
    JoinIsClean(Dir(dir), newName);
    JoinSplits(Dir(dir), newName);
    JoinSplits(dir, name);
    assert Join(dir, name) != newPath by {
      assert Base(Join(dir, name)) == name && Base(newPath) == newName;
    }
    DirectoryRenameCarries(t, dir, newPath, name);
  }

  /** Renaming a directory carries the entry `name` of its listing to the new path and leaves
      nothing under the old one. */
  lemma DirectoryRenameCarries(t: Tree, dir: string, newPath: string, name: string)
    requires IsName(name) && IsCleanDir(dir) && IsCleanDir(newPath) && dir != newPath
    requires !t.IsFile(dir) && !t.IsDir(Join(dir, name)) && Join(dir, name) != newPath
    requires t.Rename(dir, newPath).outcome.Pass?
    ensures var m := t.Rename(dir, newPath).tree;
      && m.Get(Join(newPath, name)) == t.Get(Join(dir, name))
      && !m.IsDir(dir) && !m.Exists(Join(dir, name)) && m.locked == t.locked
  {
    var m := t.Rename(dir, newPath).tree;
    JoinSplits(dir, name);
    JoinSplits(newPath, name);
    assert m.dirs == t.dirs - {dir} + map[newPath := t.dirs[dir]];
    assert newPath in m.dirs && m.dirs[newPath] == t.dirs[dir];
    assert dir !in m.dirs;
    assert m.Get(Join(newPath, name)) == t.Get(Join(dir, name)) by {
      assert m.IsFile(Join(newPath, name)) <==> t.IsFile(Join(dir, name));
    }
    assert Join(dir, name) !in m.dirs;
  }


  /** The summary is written beside audio.wav, never over it. */
  lemma SummaryKeepsAudio(tree: Tree, sessionPath: string, promptsDir: string, promptTemplate: string, g: Llm.Generator,
                          transcription: string, notes: string, servers: Llm.Servers, audio: string)
    requires audio == AudioIn(sessionPath) || Dir(audio) !in tree.dirs
    ensures var r := Summary(tree, sessionPath, promptsDir, promptTemplate, g, transcription, notes, servers);
      r.Get(audio) == tree.Get(audio) && r.dirs.Keys == tree.dirs.Keys && r.locked == tree.locked
  {
    FileNames();
    JoinSplits(sessionPath, AudioFileName);
    JoinSplits(sessionPath, SummaryFileName);
  }

  /** A transcription (or any other ingest) failure aborts the run before transcripcion.txt,
      notas.md or resumen.md is written: the session directory keeps whatever those files were. */
  lemma IngestFailureWritesNoResults(tree: Tree, audioPath: string, notesPath: string, promptTemplate: string, cfg: Settings, tools: Tools)
    requires var prepared := Prepare(tree, audioPath, cfg, tools);
      && prepared.clients.Ok?
      && Ingest(prepared.tree, audioPath, SessionDir(cfg, tools.timestamp), prepared.clients.value.transcriber, tools).result.Err?
    ensures var r := UpToRemoval(tree, audioPath, notesPath, promptTemplate, cfg, tools);
      var dir := SessionDir(cfg, tools.timestamp);
      && r.outcome.Fail? && r.sessionPath == dir
      && r.tree.Get(Join(dir, TranscriptFileName)) == tree.Get(Join(dir, TranscriptFileName))
      && r.tree.Get(Join(dir, NotesFileName)) == tree.Get(Join(dir, NotesFileName))
      && r.tree.Get(Join(dir, SummaryFileName)) == tree.Get(Join(dir, SummaryFileName))
  {
    var dir := SessionDir(cfg, tools.timestamp);
    var prepared := Prepare(tree, audioPath, cfg, tools);
    PromptsBesideResults(dir, cfg.paths.promptsDir);
    IngestBesideNotes(dir);
    var ingested := Ingest(prepared.tree, audioPath, dir, prepared.clients.value.transcriber, tools);
    assert UpToRemoval(tree, audioPath, notesPath, promptTemplate, cfg, tools) == Processed(ingested.tree, dir, Fail(ingested.result.error));
  }

  /** The built-in prompts are never transcripcion.txt, notas.md or resumen.md of a session. */
  lemma PromptsBesideResults(dir: string, promptsDir: string)
    ensures forall n | n in {TranscriptFileName, NotesFileName, SummaryFileName} ::
      !SameFile(Join(dir, n), TemplatePath(promptsDir, "default", true)) && !SameFile(Join(dir, n), TemplatePath(promptsDir, "default", false))
  {
    FileNames();
    assert "default" + TemplateSuffix(true) == "default.txt";
    assert "default" + TemplateSuffix(false) == "default_no_notes.txt";
    JoinSplits(promptsDir, "default" + TemplateSuffix(true));
    JoinSplits(promptsDir, "default" + TemplateSuffix(false));
    forall n | n in {TranscriptFileName, NotesFileName, SummaryFileName}
      ensures !SameFile(Join(dir, n), TemplatePath(promptsDir, "default", true))
      ensures !SameFile(Join(dir, n), TemplatePath(promptsDir, "default", false))
    {
      JoinSplits(dir, n);
    }
  }

  /** notas.md and resumen.md are none of the files the ingest stage writes. */
  lemma IngestBesideNotes(dir: string)
    ensures forall n | n in {NotesFileName, SummaryFileName} ::
      && !SameFile(Join(dir, n), AudioIn(dir)) && !SameFile(Join(dir, n), ProcessedPath(AudioIn(dir)))
      && !SameFile(Join(dir, n), Transcribe.OutputFile(AudioIn(dir))) && !SameFile(Join(dir, n), Join(dir, TranscriptFileName))
  {
    FileNames();
    IngestNames(dir);
    forall n | n in {NotesFileName, SummaryFileName}
      ensures !SameFile(Join(dir, n), AudioIn(dir)) && !SameFile(Join(dir, n), ProcessedPath(AudioIn(dir)))
      ensures !SameFile(Join(dir, n), Transcribe.OutputFile(AudioIn(dir))) && !SameFile(Join(dir, n), Join(dir, TranscriptFileName))
    {
      JoinSplits(dir, n);
    }
  }

  /** ProcessFile as written leaves audio.wav behind whenever the notes renamed the session
      directory: the removal aims at the old path, which no longer exists, so it passes and the
      recording stays in the renamed directory. */
  lemma AsWrittenLeavesRenamedAudio(tree: Tree, audioPath: string, notesPath: string, promptTemplate: string, cfg: Settings, tools: Tools)
    requires IsStamp(tools.timestamp) && !tree.IsFile(SessionDir(cfg, tools.timestamp))
    requires var p := UpToRemoval(tree, audioPath, notesPath, promptTemplate, cfg, tools);
      p.outcome.Pass? && p.sessionPath != SessionDir(cfg, tools.timestamp)
    ensures var p := UpToRemoval(tree, audioPath, notesPath, promptTemplate, cfg, tools);
      var r := ProcessAsWritten(tree, audioPath, notesPath, promptTemplate, cfg, tools);
      r.outcome.Pass? && r.tree.Get(AudioIn(p.sessionPath)).Some?
  {
    var p := UpToRemoval(tree, audioPath, notesPath, promptTemplate, cfg, tools);
    RenamedRunKeepsAudio(tree, audioPath, notesPath, promptTemplate, cfg, tools);
    var removed := RemoveAudio(p.tree, AudioIn(SessionDir(cfg, tools.timestamp)));
    assert removed.outcome.Pass? && removed.tree == p.tree;
  }

  /** Before the removal, a renamed run has audio.wav in the new directory and nothing at the
      old path. */
  lemma RenamedRunKeepsAudio(tree: Tree, audioPath: string, notesPath: string, promptTemplate: string, cfg: Settings, tools: Tools)
    requires IsStamp(tools.timestamp) && !tree.IsFile(SessionDir(cfg, tools.timestamp))
    requires var p := UpToRemoval(tree, audioPath, notesPath, promptTemplate, cfg, tools);
      p.outcome.Pass? && p.sessionPath != SessionDir(cfg, tools.timestamp)
    ensures var p := UpToRemoval(tree, audioPath, notesPath, promptTemplate, cfg, tools);
      var old_audio := AudioIn(SessionDir(cfg, tools.timestamp));
      && p.tree.Get(AudioIn(p.sessionPath)).Some? && !p.tree.Exists(old_audio) && old_audio !in p.tree.locked
  {
    var dir := SessionDir(cfg, tools.timestamp);
    var prepared := Prepare(tree, audioPath, cfg, tools);
    PrepareLeavesDirectory(tree, audioPath, cfg, tools);
    var clients := prepared.clients.value;
    var ingested := Ingest(prepared.tree, audioPath, dir, clients.transcriber, tools);
    IngestLeavesAudio(prepared.tree, audioPath, cfg.paths.sessionsDir, tools.timestamp, clients.transcriber, tools);
    var kept := KeepNotes(ingested.tree, notesPath, dir, tools.timestamp);
    RenameMovesAudio(ingested.tree, notesPath, cfg.paths.sessionsDir, tools.timestamp);
    JoinIsClean(cfg.paths.sessionsDir, tools.timestamp);
    FileNames();
    JoinSplits(dir, AudioFileName);
    assert Dir(AudioIn(dir)) !in kept.tree.dirs;
    SummaryKeepsAudio(kept.tree, kept.sessionPath, cfg.paths.promptsDir, promptTemplate,
                      clients.llm, ingested.result.value, kept.notes.value, tools.servers, AudioIn(kept.sessionPath));
    SummaryKeepsAudio(kept.tree, kept.sessionPath, cfg.paths.promptsDir, promptTemplate,
                      clients.llm, ingested.result.value, kept.notes.value, tools.servers, AudioIn(dir));
  }

}

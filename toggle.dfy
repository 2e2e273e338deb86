/** The `toggle` command of cmd/toggle.go: with the configuration's paths expanded and its
    defaults applied, stop the active session if one can be loaded, otherwise create a new
    session and start it. */
module Toggle {
  import opened Errors
  import opened Disk
  import opened Config
  import opened SessionSpec
  import Sessions
  import opened Paths

  /** The configuration after ExpandPaths and then ApplyDefaults: the whisper.cpp paths and the
      three directories are expanded first, so a directory that expands to "" gets its default
      under ConfigDir(home), and a default is never expanded; the LLM defaults fill only empty
      fields; every other setting is kept. */
  function Effective(cfg: Settings, home: string): (r: Settings)
    ensures r.paths.sessionsDir != "" && r.paths.tempDir != "" && r.paths.promptsDir != ""
    ensures ExpandPath(cfg.paths.sessionsDir, home) != "" ==> r.paths.sessionsDir == ExpandPath(cfg.paths.sessionsDir, home)
    ensures ExpandPath(cfg.paths.sessionsDir, home) == "" ==> r.paths.sessionsDir == Join(ConfigDir(home), "sessions")
    ensures ExpandPath(cfg.paths.tempDir, home) != "" ==> r.paths.tempDir == ExpandPath(cfg.paths.tempDir, home)
    ensures ExpandPath(cfg.paths.tempDir, home) == "" ==> r.paths.tempDir == Join(ConfigDir(home), "temp")
    ensures ExpandPath(cfg.paths.promptsDir, home) != "" ==> r.paths.promptsDir == ExpandPath(cfg.paths.promptsDir, home)
    ensures ExpandPath(cfg.paths.promptsDir, home) == "" ==> r.paths.promptsDir == Join(ConfigDir(home), "prompts")
    ensures r.transcription.local.modelPath == ExpandPath(cfg.transcription.local.modelPath, home)
    ensures r.transcription.local.binaryPath == ExpandPath(cfg.transcription.local.binaryPath, home)
    ensures r.transcription.local.threads == cfg.transcription.local.threads
    ensures r.transcription.local.language == cfg.transcription.local.language
    ensures r.transcription.backend == cfg.transcription.backend && r.transcription.openAI == cfg.transcription.openAI
    ensures r.llm.backend != "" && r.llm.ollama.baseURL != ""
    ensures cfg.llm.backend != "" ==> r.llm.backend == cfg.llm.backend
    ensures cfg.llm.backend == "" ==> r.llm.backend == DefaultLLMBackend
    ensures cfg.llm.ollama.baseURL != "" ==> r.llm.ollama.baseURL == cfg.llm.ollama.baseURL
    ensures cfg.llm.ollama.baseURL == "" ==> r.llm.ollama.baseURL == DefaultOllamaURL
    ensures r.llm.claude == cfg.llm.claude && r.llm.ollama.model == cfg.llm.ollama.model
    ensures r.audio == cfg.audio
  {
    Settings(cfg.transcription.(local := ExpandedLocal(cfg.transcription.local, home)), DefaultLLM(cfg.llm),
             cfg.audio, DefaultPaths(ExpandedPaths(cfg.paths, home), home))
  }

  /** A new session started from scratch: New, then Start. */
  function StartFresh(tree: Tree, promptTemplate: string, preserveAudio: bool, cfg: Settings, tools: Tools): (r: Effect)
    ensures NewSpec(tree, promptTemplate, preserveAudio, cfg, tools).session.Err? ==>
      r == Effect(NewSpec(tree, promptTemplate, preserveAudio, cfg, tools).tree,
                  Fail(NewSpec(tree, promptTemplate, preserveAudio, cfg, tools).session.error))
    ensures r.outcome.Pass? ==> NewSpec(tree, promptTemplate, preserveAudio, cfg, tools).session.Ok?
    ensures var created := NewSpec(tree, promptTemplate, preserveAudio, cfg, tools);
      created.session.Ok? ==>
        r == Effect(StartSpec(created.tree, created.session.value, tools).tree,
                    StartSpec(created.tree, created.session.value, tools).outcome)
  {
    var created := NewSpec(tree, promptTemplate, preserveAudio, cfg, tools);
    if created.session.Err? then Effect(created.tree, Fail(created.session.error))
    else
      var started := StartSpec(created.tree, created.session.value, tools);
      Effect(started.tree, started.outcome)
  }

  /** Creating a session writes only the built-in prompts, so an active record stays active. */
  lemma NewKeepsActiveRecord(tree: Tree, promptTemplate: string, preserveAudio: bool, cfg: Settings, tools: Tools)
    requires HasActiveRecord(tree, cfg.paths.tempDir)
    ensures var created := NewSpec(tree, promptTemplate, preserveAudio, cfg, tools);
      && HasActiveRecord(created.tree, cfg.paths.tempDir)
      && created.tree.Get(StatePath(cfg.paths.tempDir)) == tree.Get(StatePath(cfg.paths.tempDir))
      && created.tree.Read(StatePath(cfg.paths.tempDir)) == tree.Read(StatePath(cfg.paths.tempDir))
  {
    var created := NewSpec(tree, promptTemplate, preserveAudio, cfg, tools);
    var state := StatePath(cfg.paths.tempDir);
    assert tree.IsFile(state);
    assert created.tree.IsFile(state) by {
      assert created.tree.Get(state) == tree.Get(state);
    }
  }

  /** toggle: stop the session LoadActive rebuilds, or start a new one. */
  function ToggleSpec(tree: Tree, cfg: Settings, home: string, promptTemplate: string, preserveAudio: bool, tools: Tools)
    : (r: Effect)
  {
    ToggleOn(tree, Effective(cfg, home), promptTemplate, preserveAudio, tools)
  }

  /** toggle once the configuration is the effective one. */
  function ToggleOn(tree: Tree, c: Settings, promptTemplate: string, preserveAudio: bool, tools: Tools): Effect
  {
    var active := LoadActiveSpec(tree, c, tools);
    if active.session.Ok? then StopEffect(active, tools)
    else
      StartFresh(active.tree, promptTemplate, preserveAudio, c, tools)
  }

  /** toggle never starts a session over an active record: it either stops the session it
      rebuilds from the record, or fails and leaves the record file as it was. */
  lemma ActiveRecordIsNotStartedOver(tree: Tree, cfg: Settings, home: string, promptTemplate: string, preserveAudio: bool, tools: Tools)
    requires HasActiveRecord(tree, Effective(cfg, home).paths.tempDir)
    ensures var c := Effective(cfg, home);
      var r := ToggleSpec(tree, cfg, home, promptTemplate, preserveAudio, tools);
      || (LoadActiveSpec(tree, c, tools).session.Ok? && r == StopEffect(LoadActiveSpec(tree, c, tools), tools))
      || (r.outcome.Fail? && r.tree.Get(StatePath(c.paths.tempDir)) == tree.Get(StatePath(c.paths.tempDir)))
  {
    var c := Effective(cfg, home);
    var state := StatePath(c.paths.tempDir);
    var active := LoadActiveSpec(tree, c, tools);
    if active.session.Err? {
      var record := LoadRecord(tree, c.paths.tempDir);
      assert record.Ok?;
      NewKeepsActiveRecord(tree, record.value.promptTemplate, record.value.preserveAudio, c, tools);
      assert active.tree.Get(state) == tree.Get(state);
      assert HasActiveRecord(active.tree, c.paths.tempDir);
      var created := NewSpec(active.tree, promptTemplate, preserveAudio, c, tools);
      NewKeepsActiveRecord(active.tree, promptTemplate, preserveAudio, c, tools);
      if created.session.Ok? {
        assert created.session.value.paths == c.paths;
      }
    }
  }

  /** Stopping the session LoadActive rebuilt. */
  function StopEffect(active: Created, tools: Tools): (r: Effect)
    requires active.session.Ok?
    ensures r.outcome.Pass? ==> LoadRecord(r.tree, active.session.value.paths.tempDir).Err?
  {
    var stopped := StopSpec(active.tree, active.session.value, tools);
    Effect(stopped.tree, stopped.outcome)
  }

  /** With no active record (none saved, unreadable, not parsing, or not active), toggle starts a
      new session on the disk as it was. */
  lemma NoRecordStartsFresh(tree: Tree, cfg: Settings, home: string, promptTemplate: string, preserveAudio: bool, tools: Tools)
    requires LoadRecord(tree, Effective(cfg, home).paths.tempDir).Err?
    ensures ToggleSpec(tree, cfg, home, promptTemplate, preserveAudio, tools) ==
      StartFresh(tree, promptTemplate, preserveAudio, Effective(cfg, home), tools)
  {
  }

  /** A rebuilt session is stopped, and nothing is started. */
  lemma LoadedSessionIsStopped(tree: Tree, cfg: Settings, home: string, promptTemplate: string, preserveAudio: bool, tools: Tools)
    requires LoadActiveSpec(tree, Effective(cfg, home), tools).session.Ok?
    ensures var active := LoadActiveSpec(tree, Effective(cfg, home), tools);
      var r := ToggleSpec(tree, cfg, home, promptTemplate, preserveAudio, tools);
      && r == StopEffect(active, tools)
      && (r.outcome.Pass? ==> LoadRecord(r.tree, Effective(cfg, home).paths.tempDir).Err?)
  {
  }

  /** A new session started from scratch on the mutable disk. */
  method StartNew(fs: FileSystem, promptTemplate: string, preserveAudio: bool, cfg: Config, tools: Tools)
    returns (o: Outcome)
    modifies fs
    ensures Effect(fs.tree, o) == StartFresh(old(fs.tree), promptTemplate, preserveAudio, cfg.Value(), tools)
  {
    var created := Sessions.New(fs, promptTemplate, preserveAudio, cfg, tools);
    if created.Err? {
      return Fail(created.error);
    }
    var s := created.value;
    o := s.Start(fs, tools);
  }

  /** toggle on the mutable disk, once the configuration is the effective one. */
  method ToggleSession(fs: FileSystem, cfg: Config, promptTemplate: string, preserveAudio: bool, tools: Tools)
    returns (o: Outcome)
    modifies fs
    ensures Effect(fs.tree, o) == ToggleOn(old(fs.tree), cfg.Value(), promptTemplate, preserveAudio, tools)
  {
    var active := Sessions.LoadActive(fs, cfg, tools);
    if active.Ok? {
      var s := active.value;
      o := s.Stop(fs, tools);
      return;
    }
    o := StartNew(fs, promptTemplate, preserveAudio, cfg, tools);
  }

  /** toggle on the mutable configuration and disk. */
  method Toggle(fs: FileSystem, cfg: Config, home: string, promptTemplate: string, preserveAudio: bool, tools: Tools)
    returns (o: Outcome)
    modifies fs, cfg
    ensures cfg.Value() == Effective(old(cfg.Value()), home)
    ensures Effect(fs.tree, o) == ToggleSpec(old(fs.tree), old(cfg.Value()), home, promptTemplate, preserveAudio, tools)
  {
    cfg.ExpandPaths(home);
    cfg.ApplyDefaults(home);
    o := ToggleSession(fs, cfg, promptTemplate, preserveAudio, tools);
  }
}

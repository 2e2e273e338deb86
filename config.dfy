/** Configuration of the program and its normalisation (internal/config/config.go).

    Reading and parsing config.yaml (`Load`) is not part of this model: a `Config` object is
    created with the values that `Load` would have returned. `ExpandPaths` and `ApplyDefaults`
    update the object in place, as the Go methods on `*Config` do; the value of $HOME is an input.
 */
module Config {
  import opened Strings
  import opened Paths

  datatype LocalWhisperConfig = LocalWhisperConfig(modelPath: string, binaryPath: string, threads: int, language: string)
  datatype OpenAIConfig = OpenAIConfig(model: string, language: string)
  datatype TranscriptionConfig = TranscriptionConfig(backend: string, local: LocalWhisperConfig, openAI: OpenAIConfig)

  datatype ClaudeConfig = ClaudeConfig(model: string, maxTokens: int)
  datatype OllamaConfig = OllamaConfig(baseURL: string, model: string)
  datatype LLMConfig = LLMConfig(backend: string, claude: ClaudeConfig, ollama: OllamaConfig)

  datatype AudioConfig = AudioConfig(sampleRate: int, channels: int)
  datatype PathsConfig = PathsConfig(sessionsDir: string, tempDir: string, promptsDir: string)

  /** The four sections of a configuration, as one value. */
  datatype Settings = Settings(transcription: TranscriptionConfig, llm: LLMConfig, audio: AudioConfig, paths: PathsConfig)

  const DefaultLLMBackend := "claude"
  const DefaultOllamaURL := "http://localhost:11434"

  /** expandPath: a leading "~" or "~/" stands for the home directory; nothing else is touched. */
  function ExpandPath(path: string, home: string): (r: string)
    ensures path == "" ==> r == ""
    ensures path == "~" ==> r == home
    ensures HasPrefix(path, "~/") ==> r == Join(home, path[2..])
    ensures path != "~" && !HasPrefix(path, "~/") ==> r == path
  {
    if path == "" then path
    else if path == "~" then home
    else if HasPrefix(path, "~/") then Join(home, path[2..])
    else path
  }

  /** With a home directory that is itself expanded (it does not start with '~'), expanding twice
      is expanding once: a second `ExpandPaths` changes nothing. */
  lemma ExpandPathIdempotent(path: string, home: string)
    requires home != [] && home[0] != '~'
    ensures ExpandPath(ExpandPath(path, home), home) == ExpandPath(path, home)
  {
    var r := ExpandPath(path, home);
    if HasPrefix(path, "~/") {
      assert r[0] == home[0];
    }
  }

  /** The example of the package's tests: "~/sessions" under /home/testuser. */
  lemma ExpandPathExample()
    ensures ExpandPath("~/sessions", "/home/testuser") == "/home/testuser/sessions"
    ensures ExpandPath("~user/x", "/home/testuser") == "~user/x"
    ensures ExpandPath("/abs/dir", "/home/testuser") == "/abs/dir"
  {
    assert HasPrefix("~/sessions", "~/");
    assert "~/sessions"[2..] == "sessions";
    assert "~user/x"[..2] == "~u";
    assert "/abs/dir"[..2] == "/a";
  }

  /** `<home>/.config/trani`, the root of every default path. */
  function ConfigDir(home: string): string
  {
    Join(Join(home, ".config"), "trani")
  }

  /** The three path defaults of ApplyDefaults: each empty field gets its directory under
      ConfigDir(home); a non-empty field is kept. */
  function DefaultPaths(p: PathsConfig, home: string): (r: PathsConfig)
    ensures r.sessionsDir != "" && r.tempDir != "" && r.promptsDir != ""
    ensures p.sessionsDir != "" ==> r.sessionsDir == p.sessionsDir
    ensures p.tempDir != "" ==> r.tempDir == p.tempDir
    ensures p.promptsDir != "" ==> r.promptsDir == p.promptsDir
    ensures p.sessionsDir == "" ==> r.sessionsDir == Join(ConfigDir(home), "sessions")
    ensures p.tempDir == "" ==> r.tempDir == Join(ConfigDir(home), "temp")
    ensures p.promptsDir == "" ==> r.promptsDir == Join(ConfigDir(home), "prompts")
  {
    PathsConfig(
      if p.sessionsDir == "" then Join(ConfigDir(home), "sessions") else p.sessionsDir,
      if p.tempDir == "" then Join(ConfigDir(home), "temp") else p.tempDir,
      if p.promptsDir == "" then Join(ConfigDir(home), "prompts") else p.promptsDir)
  }

  /** The LLM defaults of ApplyDefaults: backend "claude" and the local Ollama URL, each only
      when empty; the Claude settings and the Ollama model are untouched. */
  function DefaultLLM(l: LLMConfig): (r: LLMConfig)
    ensures r.backend != "" && r.ollama.baseURL != ""
    ensures l.backend != "" ==> r.backend == l.backend
    ensures l.backend == "" ==> r.backend == DefaultLLMBackend
    ensures l.ollama.baseURL != "" ==> r.ollama.baseURL == l.ollama.baseURL
    ensures l.ollama.baseURL == "" ==> r.ollama.baseURL == DefaultOllamaURL
    ensures r.claude == l.claude && r.ollama.model == l.ollama.model
  {
    l.(backend := if l.backend == "" then DefaultLLMBackend else l.backend,
       ollama := l.ollama.(baseURL := if l.ollama.baseURL == "" then DefaultOllamaURL else l.ollama.baseURL))
  }

  /** ApplyDefaults only fills empty fields, so applying it twice equals applying it once. */
  lemma DefaultsIdempotent(p: PathsConfig, l: LLMConfig, home: string)
    ensures DefaultPaths(DefaultPaths(p, home), home) == DefaultPaths(p, home)
    ensures DefaultLLM(DefaultLLM(l)) == DefaultLLM(l)
  {
  }

  /** Under a home directory written without a trailing separator, the defaults are
      `<home>/.config/trani/sessions`, `…/temp` and `…/prompts`. */
  lemma DefaultPathsUnderHome(home: string)
    requires IsCleanDir(home) && home != "/"
    ensures var trani := home + "/" + ".config" + "/" + "trani";
      DefaultPaths(PathsConfig("", "", ""), home)
        == PathsConfig(trani + "/" + "sessions", trani + "/" + "temp", trani + "/" + "prompts")
  {
    var trani := home + "/" + ".config" + "/" + "trani";
    assert IsName(".config") && IsName("trani");
    JoinPlain(home, ".config");
    JoinPlain(home + "/" + ".config", "trani");
    assert IsCleanDir(trani) && IsName("sessions") && IsName("temp") && IsName("prompts");
    JoinPlain(trani, "sessions");
    JoinPlain(trani, "temp");
    JoinPlain(trani, "prompts");
  }

  /** The example of the package's tests: an empty configuration under /home/testuser. */
  lemma DefaultPathsExample(home: string)
    requires home == "/home/testuser"
    ensures DefaultPaths(PathsConfig("", "", ""), home)
         == PathsConfig("/home/testuser/.config/trani/sessions",
                        "/home/testuser/.config/trani/temp",
                        "/home/testuser/.config/trani/prompts")
    ensures DefaultPaths(PathsConfig("/custom/sessions", "", ""), home).sessionsDir == "/custom/sessions"
  {
    DefaultPathsUnderHome(home);
    TestUserSpelling(home);
  }

  /** The three default directories under /home/testuser, spelled out. */
  lemma TestUserSpelling(home: string)
    requires home == "/home/testuser"
    ensures var trani := home + "/" + ".config" + "/" + "trani";
      && trani + "/" + "sessions" == "/home/testuser/.config/trani/sessions"
      && trani + "/" + "temp" == "/home/testuser/.config/trani/temp"
      && trani + "/" + "prompts" == "/home/testuser/.config/trani/prompts"
  {
  }

  /** The path fields rewritten by ExpandPaths. */
  function ExpandedPaths(p: PathsConfig, home: string): PathsConfig
  {
    PathsConfig(ExpandPath(p.sessionsDir, home), ExpandPath(p.tempDir, home), ExpandPath(p.promptsDir, home))
  }

  function ExpandedLocal(c: LocalWhisperConfig, home: string): LocalWhisperConfig
  {
    c.(modelPath := ExpandPath(c.modelPath, home), binaryPath := ExpandPath(c.binaryPath, home))
  }

  /** The program's configuration (type Config of config.go). */
  class Config {
    var transcription: TranscriptionConfig
    var llm: LLMConfig
    var audio: AudioConfig
    var paths: PathsConfig

    /** The configuration as `Load` returns it. */
    constructor (transcription: TranscriptionConfig, llm: LLMConfig, audio: AudioConfig, paths: PathsConfig)
      ensures this.transcription == transcription && this.llm == llm
      ensures this.audio == audio && this.paths == paths
    {
      this.transcription, this.llm, this.audio, this.paths := transcription, llm, audio, paths;
    }

    /** The configuration as it stands. */
    function Value(): Settings
      reads this
    {
      Settings(transcription, llm, audio, paths)
    }

    /** ExpandPaths rewrites exactly ModelPath, BinaryPath, SessionsDir, TempDir and PromptsDir. */
    method ExpandPaths(home: string)
      modifies this
      ensures transcription == old(transcription).(local := ExpandedLocal(old(transcription.local), home))
      ensures paths == ExpandedPaths(old(paths), home)
      ensures llm == old(llm) && audio == old(audio)
    {
      var local := transcription.local;
      local := local.(modelPath := ExpandPath(local.modelPath, home));
      local := local.(binaryPath := ExpandPath(local.binaryPath, home));
      transcription := transcription.(local := local);
      paths := paths.(sessionsDir := ExpandPath(paths.sessionsDir, home));
      paths := paths.(tempDir := ExpandPath(paths.tempDir, home));
      paths := paths.(promptsDir := ExpandPath(paths.promptsDir, home));
    }

    /** ApplyDefaults fills the empty path fields, the LLM backend and the Ollama URL. */
    method ApplyDefaults(home: string)
      modifies this
      ensures paths == DefaultPaths(old(paths), home)
      ensures llm == DefaultLLM(old(llm))
      ensures transcription == old(transcription) && audio == old(audio)
    {
      var configDir := ConfigDir(home);
      if paths.sessionsDir == "" {
        paths := paths.(sessionsDir := Join(configDir, "sessions"));
      }
      if paths.tempDir == "" {
        paths := paths.(tempDir := Join(configDir, "temp"));
      }
      if paths.promptsDir == "" {
        paths := paths.(promptsDir := Join(configDir, "prompts"));
      }
      if llm.backend == "" {
        llm := llm.(backend := DefaultLLMBackend);
      }
      if llm.ollama.baseURL == "" {
        llm := llm.(ollama := llm.ollama.(baseURL := DefaultOllamaURL));
      }
    }
  }
}

# trani, modelled in Dafny

trani records what the computer plays (a PipeWire monitor source), transcribes the recording
with whisper.cpp or OpenAI, and has an LLM (Claude or Ollama) write a Markdown summary. All of it
goes into one directory per session. This project models the core of the program and proves
properties of the model:

- the recording session of `internal/session/session.go`: `New`, `Start`, `Stop`, the persisted
  state record (`SaveState`, `ClearState`, `LoadActive`), the built-in prompts, prompt templates
  and their filling, sox post-processing, slugging a notes heading and renaming the session
  directory after it, and removing the audio;
- `ProcessFile` of `internal/session/processor.go`, which builds a session directory from an
  existing recording and optional notes;
- `expandPath`, `ExpandPaths` and `ApplyDefaults` of `internal/config/config.go`;
- backend selection and the local whisper.cpp run of `internal/transcribe`;
- backend selection and the Ollama chat exchange of `internal/llm`;
- the recorder of `internal/audio/recorder.go`;
- the `toggle` command of `cmd/toggle.go`.

How it is built:

- **The disk is a value.** `Disk.Tree` maps each directory to its listing (name to content) and
  holds a set of `locked` paths whose every access fails, which stands for permission and I/O
  errors. `os.ReadFile`, `os.WriteFile`, `os.Remove`, `os.Rename` and `os.MkdirAll` are
  functions on it. The class `Disk.FileSystem` holds the one mutable tree that every method of
  the program changes.
- **The session is an object.** `Sessions.Session` is a class whose fields Start, Stop and the
  rename update in place. The recorder is a `Audio.Recorder` object. The configuration is a
  `Config.Config` object that `ExpandPaths` and `ApplyDefaults` rewrite.
- **Every method is proved against a function.** Each method carries an `ensures` that ties the
  new disk, the new fields and the outcome to a function of the old state. These are
  `SessionSpec.StartSpec`, `SessionSpec.StopSpec`, `ProcessorSpec.ProcessAsWritten`,
  `Toggle.ToggleSpec` and so on. The lemmas beside those functions state what the program
  promises: the record survives a failed Stop, a successful Stop clears it and keeps the
  transcript and summary, slugs are well-formed and slugify is idempotent, and more.
- **The outside world is an input.** The clock, `$HOME`, `$OPENAI_API_KEY`, the editor, sox,
  `pactl`, `pw-record`, process signals, whisper.cpp and the two HTTP services are oracles
  gathered in `SessionSpec.Tools`: data and functions from a request to its answer.
- **Errors keep their wording.** Errors are values that carry the program's own messages and
  `%w` wrapping, so the contracts state the texts the program builds, such as
  "failed to move audio file: …" and "Error al generar resumen: …". A filesystem error carries
  the operation, the path and the errno text that Go's `os` package would report
  ("open p: no such file or directory", "read p: is a directory", "mkdir p: not a directory",
  "remove p: directory not empty"); the cases where the model reports a different errno are
  listed under "Left out".

Three behaviours of the code that shape the model:

- `session.New` takes no title (session.go:47-49). The session directory and its title are the
  timestamp `20060102-1504` until a notes heading renames the directory.
- When sox fails, `postProcessAudio` returns at once. A partial `audio.wav.tmp.wav` is only
  removed when the later rename fails (session.go:408-415), and
  `SessionSpec.SoxFailureKeepsPartial` states it.
- A heading rename sets the title to the new directory's name and the path to its full path
  (session.go:497-498). The two values are different.

## Model

| member | source | states |
|---|---|---|
| Strings.TrimSpace | internal/session/session.go:364 | the result is no longer than the input and neither starts nor ends with white space |
| Strings.TrimSpaceIdempotent | internal/audio/recorder.go:37 | trimming an already trimmed text changes nothing |
| Strings.TrimPrefix | internal/session/session.go:476 | with the prefix present, the input is prefix + result; otherwise the input comes back unchanged |
| Strings.TrimSuffix | internal/llm/ollama.go:26 | with the suffix present, the input is result + suffix; otherwise the input comes back unchanged |
| Strings.FirstLine | internal/session/session.go:466-471 | element 0 of `strings.Split(s, "\n")`: a newline-free prefix of the text that stops exactly at the first newline |
| Strings.ReplaceAllAbsent | internal/session/session.go:327-331 | `strings.ReplaceAll` leaves a text without the pattern unchanged |
| Strings.ReplaceAllSelf | internal/session/session.go:327-331 | replacing a pattern by itself is the identity |
| Strings.ReplaceAllSplice | internal/session/session.go:327-331 | when no occurrence starts before a given one, `strings.ReplaceAll` keeps the text before it, puts the replacement in its place and carries on after it |
| Strings.NatToString | internal/transcribe/whisper.go:62 | `strconv.Itoa` of a non-negative number is non-empty decimal digits with no leading zero |
| Strings.IntToString | internal/llm/ollama.go:88 | `strconv.Itoa` writes decimal digits that read back as the number, after a "-" exactly when it is negative |
| Strings.NatToStringRoundTrip | internal/transcribe/whisper.go:62 | reading back the digits `strconv.Itoa` wrote gives the thread count |
| Strings.IntToStringRoundTrip | internal/transcribe/whisper.go:62 | `strconv.Atoi` reads back what `strconv.Itoa` wrote, for every int, negative ones included |
| Paths.LastSlash | internal/session/session.go:488-490 | the index of the last separator, which `filepath.Dir` and `filepath.Base` split at |
| Paths.Clean | internal/session/session.go:85 | `filepath.Clean` on trailing separators: the result is clean, a clean path is kept, and the first character stays |
| Paths.Join | internal/session/session.go:49 | `filepath.Join` of two elements, not both empty, is a clean path |
| Paths.JoinPlain | internal/config/config.go:123-129 | joining a name onto a clean directory other than the root puts exactly one separator between them |
| Paths.JoinSplits | internal/session/session.go:488-490 | `Base(Join(dir, name)) == name` and `Dir(Join(dir, name))` is the cleaned directory, which is the directory itself when it is clean |
| Paths.JoinIsLonger | internal/session/processor.go:93 | a joined path is longer than its cleaned directory, so it is never that directory |
| Paths.JoinIsClean | internal/session/session.go:49 | `<sessionsDir>/<timestamp>` is a clean directory that `Dir` gives back after further joins |
| Paths.SuffixKeepsDir | internal/session/session.go:394 | `<audio>.tmp.wav` is a sibling of the audio whose base is the audio's base plus the suffix |
| Disk.Tree.Read | internal/session/session.go:275-281 | `os.ReadFile` succeeds exactly on an accessible file and returns its content, and fails with a not-exist error exactly on a missing accessible path; a directory fails with "read p: is a directory" |
| Disk.Tree.Write | internal/session/session.go:165-167 | `os.WriteFile` succeeds exactly when the path is accessible, not a directory (that fails with "is a directory") and its directory exists; it changes that file only |
| Disk.Tree.Remove | internal/session/session.go:427-429 | `os.Remove` succeeds exactly on an accessible file or an accessible empty directory, reports not-exist exactly on a missing path, and changes that file or directory only |
| Disk.RemoveDirectories | internal/session/session.go:427-429 | an empty directory is removed; a directory that holds a file fails with "directory not empty" |
| Disk.Tree.Rename | internal/session/session.go:492-495 | `os.Rename` moves a file (replacing the target) or a whole directory listing onto a path that does not exist, and changes nothing when it fails |
| Disk.Tree.FileOnTheWay | internal/session/session.go:85-87 | the ancestor where `os.MkdirAll`'s walk up stops is a file, and a proper prefix of the path ending before a separator |
| Disk.Tree.MkdirAll | internal/session/session.go:85-87 | `os.MkdirAll` of a path, trailing separators cleaned, succeeds exactly on an existing directory (no change) or an accessible missing one with no file on the way up (created); a file at the path or among its ancestors fails with "mkdir f: not a directory" naming that file; it never changes a file |
| Disk.MkdirAllBelowFile | internal/session/session.go:85-87 | below the file "/a/b", MkdirAll of "/a/b/c/d" fails with "mkdir /a/b: not a directory" |
| Disk.MkdirAllOverFile | internal/session/session.go:85-87 | MkdirAll of the file "/a/b" itself fails with "mkdir /a/b: not a directory" |
| Disk.MkdirAllBesideFile | internal/session/session.go:85-87 | beside that file, MkdirAll of "/a/c/" succeeds |
| Disk.FileSystem.StatMissing | internal/session/processor.go:18 | `os.Stat` followed by `os.IsNotExist` on the current disk |
| Disk.FileSystem.ReadFile | internal/session/processor.go:151 | reads the mutable disk as `Tree.Read` does |
| Disk.FileSystem.WriteFile | internal/session/processor.go:155 | changes the mutable disk as `Tree.Write` does |
| Disk.FileSystem.Remove | internal/session/processor.go:120 | changes the mutable disk as `Tree.Remove` does |
| Disk.FileSystem.Rename | internal/session/processor.go:95 | changes the mutable disk as `Tree.Rename` does |
| Disk.FileSystem.MkdirAll | internal/session/processor.go:29 | changes the mutable disk as `Tree.MkdirAll` does |
| Config.ExpandPath | internal/config/config.go:106-117 | "" stays "", "~" becomes home, "~/x" becomes `Join(home, x)`, anything else (including "~user/x") is untouched |
| Config.ExpandPathIdempotent | internal/config/config.go:106-117 | with an expanded home directory, expanding twice equals expanding once |
| Config.ExpandPathExample | internal/config/config_test.go:97-124 | "~/sessions" under /home/testuser is /home/testuser/sessions |
| Config.DefaultPaths | internal/config/config.go:121-131 | every path ends up non-empty; set paths are kept and empty ones get `<home>/.config/trani/{sessions,temp,prompts}` |
| Config.DefaultPathsUnderHome | internal/config/config.go:121-131 | for any home written without a trailing separator, the empty paths become `<home>/.config/trani/sessions`, `…/temp` and `…/prompts`, each name joined with one separator |
| Config.DefaultLLM | internal/config/config.go:133-138 | backend and Ollama URL end up non-empty: "claude" and "http://localhost:11434" only when empty; the models are untouched |
| Config.DefaultsIdempotent | internal/config/config.go:120-139 | ApplyDefaults applied twice equals once |
| Config.DefaultPathsExample | internal/config/config_test.go:144-190 | with HOME=/home/testuser an empty configuration gets /home/testuser/.config/trani/{sessions,temp,prompts}, and a custom sessions directory survives |
| Config.Config.ExpandPaths | internal/config/config.go:96-104 | exactly ModelPath, BinaryPath and the three directories are expanded; the rest of the configuration is unchanged |
| Config.Config.ApplyDefaults | internal/config/config.go:120-139 | the fields become their defaults, and the transcription and audio settings are unchanged |
| SessionText.LowerAll | internal/session/session.go:435 | `strings.ToLower` keeps the length and lowers each character |
| SessionText.SpacesToHyphens | internal/session/session.go:436 | only the ASCII space becomes a hyphen |
| SessionText.KeepSlugChars | internal/session/session.go:438-439 | the result has only `[a-z0-9-]`, and a text made of those is kept whole |
| SessionText.KeepSlugCharsAppend | internal/session/session.go:438-439 | deleting the runs outside `[a-z0-9-]` works piece by piece |
| SessionText.CollapseHyphens | internal/session/session.go:441-442 | no two hyphens in a row afterwards; the first character, the character class and a text without double hyphens are kept |
| SessionText.TrimHyphens | internal/session/session.go:444 | `strings.Trim(s, "-")` leaves no hyphen at either end and keeps the other properties of a slug |
| SessionText.Truncate | internal/session/session.go:446-451 | at most 50 characters, a text that fits is kept, and the slug properties survive |
| SessionText.Slugify | internal/session/session.go:434-456 | every result is a slug: only `[a-z0-9-]`, no hyphen at either end, no double hyphen, at most 50 characters |
| SessionText.SlugifyFixesSlugs | internal/session/session.go:434-456 | slugify leaves a slug unchanged |
| SessionText.SlugifyIdempotent | internal/session/session.go:434-456 | slugify applied twice equals once |
| SessionText.SlugifyExample | internal/session/session.go:434-456 | "Q3 Planning Review!!" becomes "q3-planning-review" |
| SessionText.HeadingSlug | internal/session/session.go:466-486 | a heading's slug, when there is one, is a non-empty slug |
| SessionText.HeadingSlugRule | internal/session/session.go:466-486 | a slug exists exactly when the literal first line starts with "# " and the trimmed rest is non-empty with a non-empty slug, and that slug is the one given |
| SessionText.HeadingFromLiteralFirstLine | internal/session/session.go:466-474 | notes that open with a blank line never rename, whatever heading follows |
| SessionText.HeadingWithoutSlugCharacters | internal/session/session.go:483-486 | a heading like "# !!" whose characters all vanish under slugify does not rename |
| SessionText.FillWithoutPlaceholders | internal/session/session.go:327-331 | a template without placeholders is the prompt itself |
| SessionText.FillWithPlaceholdersIsIdentity | internal/session/session.go:327-331 | filling each placeholder with itself gives the template back |
| SessionText.FillOrderMatters | internal/session/session.go:327-331 | {{TRANSCRIPTION}} is replaced first, so a "{{NOTES}}" inside the transcription gets the notes, while a "{{TRANSCRIPTION}}" inside the notes stays literal |
| SessionText.NoTranscriptionPlaceholderAround | internal/session/session.go:327-331 | {{NOTES}} amid text without braces holds no {{TRANSCRIPTION}} |
| SessionText.FillBoth | internal/session/session.go:327-331 | a template with one {{TRANSCRIPTION}} before one {{NOTES}} and no other braces becomes the text around them with the transcription and the notes in their places |
| SessionText.FillTranscriptionOnly | internal/session/session.go:327-331 | a template with a single {{TRANSCRIPTION}} and no other braces becomes the text around it with the transcription in its place |
| Transcribe.NewWhisperLocal | internal/transcribe/whisper.go:25-39 | succeeds exactly when both paths are set, checks the binary before the model with the exact messages, and keeps the four settings |
| Transcribe.New | internal/transcribe/transcriber.go:18-38 | dispatch on the exact tag: the empty backend, local, openai (key checked before model) and the unknown-backend error |
| Transcribe.NewYieldsConfigured | internal/transcribe/transcriber.go:18-38 | a transcriber New returns has its required settings, and is local exactly when the tag is "local" |
| Transcribe.WhisperArgs | internal/transcribe/whisper.go:58-65 | the argument vector has eleven entries |
| Transcribe.WhisperArgsCarrySettings | internal/transcribe/whisper.go:55-65 | the flags come in order, each followed by its setting; the thread count, negative or not, is `strconv.Itoa`'s text and reads back with `strconv.Atoi`; "-of" names the base of the text file |
| Transcribe.OutputBesideAudio | internal/transcribe/whisper.go:55-73 | whisper's text file is "transcription.txt" in the audio's directory |
| Transcribe.PreCheck | internal/transcribe/whisper.go:43-53 | binary, model and audio are checked in that order; only a not-exist failure stops the run, with the matching message |
| Transcribe.RunWhisper | internal/transcribe/whisper.go:42-82 | a pre-check failure or a failed run gives its error and output; a written file gives its trimmed text and is removed; no other file changes |
| Transcribe.TranscribeSpec | internal/transcribe/transcriber.go:12-14 | the OpenAI backend answers without touching the disk; either backend changes only whisper's text file |
| Transcribe.TranscribeLocal | internal/transcribe/whisper.go:42-82 | the step-by-step run on the mutable disk does what `RunWhisper` describes |
| Transcribe.Transcribe | internal/transcribe/transcriber.go:12-14 | the interface call on the mutable disk does what `TranscribeSpec` describes |
| Llm.NewOllama | internal/llm/ollama.go:21-33 | succeeds exactly with a model; the URL loses exactly one trailing "/" if it has one |
| Llm.NewOllamaTrimsOnce | internal/llm/ollama.go:26 | "http://h//" keeps one slash; an empty URL is accepted as is |
| Llm.New | internal/llm/llm.go:14-27 | dispatch on the exact tag: the empty backend, claude (the constructor's outcome), ollama and the unknown-backend error |
| Llm.DefaultsRuleOutMissingBackend | internal/llm/llm.go:14-27 | after ApplyDefaults, New fails only for a failing Claude constructor, a missing Ollama model or an unknown tag |
| Llm.ChatURLIgnoresTrailingSlash | internal/llm/ollama.go:68 | a base URL with or without its trailing "/" reaches the same /api/chat endpoint |
| Llm.ChatRequestFor | internal/llm/ollama.go:52-61 | the body names the model, carries the prompt as the single user message, and does not stream |
| Llm.Decide | internal/llm/ollama.go:87-100 | success exactly for status 200 with a parsed body and no error field; the status and error-field messages are exact |
| Llm.Generate | internal/llm/ollama.go:51-101 | Claude answers through its service; Ollama posts the request to the chat URL and decides on the reply |
| Audio.RecordingPathInTempDir | internal/audio/recorder.go:26-28 | the recording is `recording.wav` directly in the temporary directory |
| Audio.MonitorSource | internal/audio/recorder.go:30-43 | succeeds exactly on a non-blank sink, and gives the trimmed sink plus ".monitor"; the two error messages are exact |
| Audio.StartSpec | internal/audio/recorder.go:45-65 | the process id changes, to the spawned non-zero id, exactly when the lookup and the spawn succeed; otherwise nothing changes |
| Audio.StopSpec | internal/audio/recorder.go:67-84 | without a process nothing happens; a delivered signal clears the id; a failed one keeps it and reports the error |
| Audio.StopIsIdempotent | internal/audio/recorder.go:67-84 | a successful Stop clears the id, so a second Stop succeeds without signalling |
| Audio.Recorder.Start | internal/audio/recorder.go:45-65 | the recorder object changes as `StartSpec` describes |
| Audio.Recorder.Stop | internal/audio/recorder.go:67-84 | the recorder object changes as `StopSpec` describes |
| SessionSpec.SaveState | internal/session/session.go:145-170 | on success the record file holds the session's active record, which `LoadRecord` reads back; only that file changes |
| SessionSpec.SaveStateInMadeDirectory | internal/session/session.go:145-167 | once MkdirAll of the temporary directory succeeded, the record can be written whenever its own path is accessible and not a directory |
| SessionSpec.TrailingSeparatorTempDir | internal/session/session.go:145-167 | a temporary directory written as "/t/" works: the record goes into the directory "/t" that MkdirAll makes |
| SessionSpec.ClearState | internal/session/session.go:173-179 | a missing record is no error; on success no record is left to load; on failure the disk is unchanged |
| SessionSpec.LoadRecord | internal/session/session.go:272-290 | a missing or inactive record reads as "no active session found", unparsable text as a parse error; success exactly for an active parsed record |
| SessionSpec.WriteIfMissing | internal/session/session.go:254-267 | an existing prompt file is left alone; a missing one is written with the built-in text, or the write error is wrapped in the step's context; no other file changes |
| SessionSpec.FillDefaultPrompts | internal/session/session.go:180-234 | the built-in prompts filled put the transcription, and the notes, under their headings |
| SessionSpec.EnsureDefaultPrompts | internal/session/session.go:249-269 | on success the prompts directory exists and both default prompts are present; existing files are never overwritten |
| SessionSpec.ResolveTemplate | internal/session/session.go:304-324 | the named template with the suffix for the presence of notes, else the default one, else the fixed Spanish error text |
| SessionSpec.DefaultsBackEveryTemplate | internal/session/session.go:304-324 | once the built-in prompts are written, a missing named template falls back to the built-in prompt |
| SessionSpec.DefaultsWritten | internal/session/session.go:249-269 | into an empty prompts directory both built-in prompts are written |
| SessionSpec.PostProcess | internal/session/session.go:393-418 | a sox failure is reported with its context; on success the audio holds sox's output; on any failure the audio is as it was; only the audio and its temporary file change |
| SessionSpec.ProcessedIsSibling | internal/session/session.go:394 | the temporary file is beside the audio and a different entry |
| SessionSpec.ProcessedIsNotAudio | internal/session/session.go:394 | the temporary file is never the audio itself, even for an empty path |
| SessionSpec.ReplaceFailureRemovesTemporary | internal/session/session.go:412-415 | when sox succeeds but the rename fails, the temporary file is removed, the audio is untouched and the error is "failed to replace audio file" |
| SessionSpec.PostProcessLeavesNoTemporary | internal/session/session.go:412-417 | after a successful post-processing no temporary file is left |
| SessionSpec.SoxFailureKeepsPartial | internal/session/session.go:408-410 | after a sox failure the partial output sox wrote is still on disk |
| SessionSpec.CleanupAudio | internal/session/session.go:421-432 | a kept audio is untouched; otherwise the audio is gone on success; a missing audio is no error; only the audio changes |
| SessionSpec.NotesText | internal/session/session.go:362-364 | the trimmed notes, or nothing when notas.md cannot be read |
| SessionSpec.SummaryText | internal/session/session.go:373-378 | the summary, or the error text after "Error al generar resumen: " |
| SessionSpec.Summarize | internal/session/session.go:367-378 | when resumen.md can be written it holds the summary text of the generated prompt; only that file changes |
| SessionSpec.GenerationErrorIsRecorded | internal/session/session.go:373-375 | a generation error does not stop the session; resumen.md carries it |
| SessionSpec.ExtractAndRename | internal/session/session.go:458-500 | never fails; without a heading nothing changes; the session changes exactly when there is a heading and its rename succeeds, and then its title, path and the disk are the renamed ones |
| SessionSpec.MoveTo | internal/session/session.go:488-499 | the session changes exactly when the rename to `<timestamp>-<slug>` beside it succeeds: then the directory moves and the title is that name; otherwise nothing changes |
| SessionSpec.RenamedDirectoryKeepsListing | internal/session/session.go:492-499 | the renamed directory keeps its listing under the new path, and the old path is gone |
| SessionSpec.RenameMoves | internal/session/session.go:488-490 | the new path differs from the old one |
| SessionSpec.NewSpec | internal/session/session.go:47-81 | transcriber, then LLM, then prompts, each failure wrapped; success exactly when all three succeed, with title = timestamp, path `<sessionsDir>/<timestamp>` and no process; existing files untouched |
| SessionSpec.LoadActiveSpec | internal/session/session.go:272-302 | no active record gives its error unchanged; success exactly when the record loads and New succeeds; the session carries the record's title, start, path, template and flag |
| SessionSpec.SaveThenLoad | internal/session/session.go:292-299 | what SaveState writes, LoadActive gives back: the same session except the fresh clients and the process id |
| SessionSpec.Launch | internal/session/session.go:92-129 | refused with "session already active" exactly when a record is active; a failed mkdir is wrapped; on success the record is saved and loads back; the recorder is stopped on a later failure |
| SessionSpec.Capture | internal/session/session.go:108-129 | once the directory exists: record, save the record, take notes; on success the record is saved and loads back; every failure is wrapped; a failure after the spawn stops the recorder |
| SessionSpec.TakeNotes | internal/session/session.go:120-129 | the editor never touches the record; an editor failure stops the recorder |
| SessionSpec.StartSpec | internal/session/session.go:92-142 | refused, with nothing changed, exactly when a record is active; started without a process and with signals that succeed, Start leaves no recorder process behind, whatever its outcome |
| SessionSpec.StartSavesRenamedRecord | internal/session/session.go:131-142 | the record saved after the heading rename carries the renamed session, and it survives a failing Stop |
| SessionSpec.StopFront | internal/session/session.go:334-360 | a failed recorder stop is reported; on success the transcript file holds the transcription |
| SessionSpec.Finish | internal/session/session.go:380-386 | on success no active record is left; on failure the record is as before |
| SessionSpec.StopSpec | internal/session/session.go:334-390 | a successful Stop leaves no active record; the session changes only by its recorder's process id |
| SessionSpec.StopFilesAreNotTheRecord | internal/session/session.go:341-386 | none of the files Stop moves, writes or removes is the record file |
| SessionSpec.MoveKeepsRecord | internal/session/session.go:341-346 | moving the recording into the session leaves the record as it was |
| SessionSpec.ProcessingKeepsRecord | internal/session/session.go:348-360 | post-processing, transcription and saving the transcript leave the record as it was |
| SessionSpec.StopFrontKeepsRecord | internal/session/session.go:334-360 | the first half of Stop, failing or not, leaves the record as it was |
| SessionSpec.StopFailureKeepsRecord | internal/session/session.go:334-390 | whichever step of Stop fails, the record loads as before, so the session can be stopped again |
| SessionSpec.StopSavesResults | internal/session/session.go:334-390 | a successful Stop keeps the transcript, writes the summary when it can, removes the audio unless kept, and clears the record |
| Sessions.EnsureDefaultPromptFiles | internal/session/session.go:249-269 | the disk changes as `EnsureDefaultPrompts` describes |
| Sessions.PostProcessAudio | internal/session/session.go:393-418 | the disk changes as `PostProcess` describes |
| Sessions.Session.SaveState | internal/session/session.go:145-170 | the disk changes as `SessionSpec.SaveState` describes |
| Sessions.Session.ClearState | internal/session/session.go:173-179 | the disk changes as `SessionSpec.ClearState` describes |
| Sessions.Session.LoadPromptTemplate | internal/session/session.go:304-324 | the template is the one `ResolveTemplate` picks |
| Sessions.Session.CleanupAudio | internal/session/session.go:421-432 | the disk changes as `SessionSpec.CleanupAudio` describes |
| Sessions.Session.ExtractAndRenameIfNeeded | internal/session/session.go:458-500 | the disk, title and path change as `ExtractAndRename` describes, and the call never fails |
| Sessions.Session.MoveUnder | internal/session/session.go:488-499 | the disk, title and path change as `MoveTo` describes |
| Sessions.Session.WriteSummary | internal/session/session.go:362-378 | the disk is as `SessionSpec.Summarize` describes |
| Sessions.Session.Summarize | internal/session/session.go:367-386 | the summary, the cleanup and the cleared record as `Summarize` then `Finish` describe |
| Sessions.Session.StopRecording | internal/session/session.go:334-360 | the recorder and the disk change as `StopFront` describes |
| Sessions.Session.Stop | internal/session/session.go:334-390 | the recorder and the disk change as `StopSpec` describes |
| Sessions.Session.RecordAndEdit | internal/session/session.go:92-129 | the session and the disk change as `Launch` describes |
| Sessions.Session.Record | internal/session/session.go:108-129 | the session and the disk change as `Capture` describes |
| Sessions.Session.TakeNotes | internal/session/session.go:120-129 | the session and the disk change as `SessionSpec.TakeNotes` describes |
| Sessions.Session.Start | internal/session/session.go:92-142 | the session and the disk change as `StartSpec` describes |
| Sessions.New | internal/session/session.go:47-81 | returns a new session object whose value, and the disk, are as `NewSpec` describes |
| Sessions.LoadActive | internal/session/session.go:272-302 | returns a new session object whose value, and the disk, are as `LoadActiveSpec` describes |
| ProcessorSpec.CopyFile | internal/session/processor.go:150-156 | succeeds exactly when the source reads and the destination is writable; the destination then holds the source's content; nothing else changes |
| ProcessorSpec.Prepare | internal/session/processor.go:17-45 | a missing audio refuses with "audio file not found"; success means the session directory exists and both clients were built; existing files untouched |
| ProcessorSpec.WithPrompts | internal/session/processor.go:43-45 | the prompt step keeps the clients, the files and the directories already there |
| ProcessorSpec.Ingest | internal/session/processor.go:50-67 | a copy failure is reported with its context; on success the transcript holds the transcription; on failure the transcript file is as before; only the four derived files change |
| ProcessorSpec.MoveSession | internal/session/processor.go:93-99 | a failed rename keeps the directory; a successful one moves to the new path |
| ProcessorSpec.KeepNotes | internal/session/processor.go:69-104 | no notes path means no notes; an unreadable notes file fails; a failed save fails with nothing changed; otherwise notas.md holds the notes, the notes are the trimmed text, and with a heading the directory moves as `MoveSession` describes |
| ProcessorSpec.KeepContent | internal/session/processor.go:75-102 | once the notes are read: a failed save of notas.md fails with the disk unchanged; otherwise notas.md holds the content, the notes are its trimmed text, and only a heading with a non-empty slug renames the directory, to `<timestamp>-<slug>` beside it |
| ProcessorSpec.Summary | internal/session/processor.go:106-118 | when resumen.md can be written it holds the summary text of the filled template; only that file changes |
| ProcessorSpec.RemoveAudio | internal/session/processor.go:120-122 | succeeds exactly on a file, an empty directory or a missing path; on success the audio is gone; a failure is wrapped and changes nothing |
| ProcessorSpec.UpToRemoval | internal/session/processor.go:17-118 | a missing audio refuses with "audio file not found" and nothing changes |
| ProcessorSpec.ProcessAsWritten | internal/session/processor.go:17-126 | `ProcessFile` as written: a missing audio refuses with nothing changed |
| ProcessorSpec.Process | internal/session/processor.go:17-126 | `ProcessFile` with the intended removal: a successful run leaves no audio.wav in the directory the session ended up in |
| ProcessorSpec.AgreeWithoutRename | internal/session/processor.go:120-122 | without a rename, the code as written and the corrected run agree |
| ProcessorSpec.PrepareLeavesDirectory | internal/session/processor.go:26-45 | a prepared run has its session path as a directory |
| ProcessorSpec.IngestLeavesAudio | internal/session/processor.go:50-67 | after a successful ingest, audio.wav is an accessible file in the session directory |
| ProcessorSpec.NotesStageRenames | internal/session/processor.go:77-99 | a renamed run is notas.md written beside the audio, followed by the directory rename |
| ProcessorSpec.RenameMovesAudio | internal/session/processor.go:88-99 | the heading rename carries audio.wav to the new directory and leaves nothing at the old path |
| ProcessorSpec.MoveCarriesAudio | internal/session/processor.go:93-95 | renaming the session to a sibling carries audio.wav along |
| ProcessorSpec.MoveCarriesEntry | internal/session/processor.go:93-95 | renaming the session to a sibling carries any file of the session along |
| ProcessorSpec.NotesFollowRename | internal/session/processor.go:77-99 | after a heading rename notas.md holds the notes under the new path and nothing is left under the old one |
| ProcessorSpec.IngestFailureWritesNoResults | internal/session/processor.go:50-67 | a failed ingest stops the run with transcripcion.txt, notas.md and resumen.md as they were |
| ProcessorSpec.DirectoryRenameCarries | internal/session/processor.go:95-98 | a directory rename carries each entry to the new path and leaves nothing at the old one |
| ProcessorSpec.SummaryKeepsAudio | internal/session/processor.go:111-118 | the summary never overwrites the audio or creates directories |
| ProcessorSpec.RenamedRunKeepsAudio | internal/session/processor.go:50-118 | before the removal, a renamed run has audio.wav only in the new directory |
| ProcessorSpec.AsWrittenLeavesRenamedAudio | internal/session/processor.go:120-122 | as written, a renamed run succeeds and leaves audio.wav in the renamed directory |
| Processor.Copy | internal/session/processor.go:150-156 | the disk changes as `CopyFile` describes |
| Processor.LoadPromptTemplateStandalone | internal/session/processor.go:128-148 | the template is the one `ResolveTemplate` picks |
| Processor.PrepareRun | internal/session/processor.go:17-45 | the disk and clients are as `Prepare` describes |
| Processor.IngestAudio | internal/session/processor.go:50-67 | the disk and transcription are as `Ingest` describes |
| Processor.KeepNotesFile | internal/session/processor.go:69-104 | the disk, the path and the notes are as `KeepNotes` describes |
| Processor.WriteSummary | internal/session/processor.go:106-118 | the disk is as `Summary` describes |
| Processor.RemoveProcessedAudio | internal/session/processor.go:120-122 | the disk is as `RemoveAudio` describes |
| Processor.ProcessUpToRemoval | internal/session/processor.go:17-118 | the disk, path and outcome are as `UpToRemoval` describes |
| Processor.ProcessFile | internal/session/processor.go:17-126 | the disk and outcome are as `ProcessAsWritten` (the code as written) describes |
| Toggle.Effective | cmd/toggle.go:26-27 | ExpandPaths runs before ApplyDefaults: each directory is its expansion, or its default under `~/.config/trani` when that expansion is empty; the whisper.cpp model and binary paths are expanded; the LLM backend and Ollama URL get their defaults only when empty; threads, language, the OpenAI settings, the Claude settings, the Ollama model and the audio settings are kept |
| Toggle.StartFresh | cmd/toggle.go:39-44 | a failing New is reported with nothing started; when New succeeds, the disk and outcome are Start's on the disk New left; a successful start implies New succeeded |
| Toggle.NewKeepsActiveRecord | internal/session/session.go:47-81 | creating a session never disturbs an active record |
| Toggle.StopEffect | cmd/toggle.go:29-32 | a successful stop leaves no active record |
| Toggle.ActiveRecordIsNotStartedOver | cmd/toggle.go:29-44 | with an active record, toggle either stops the session rebuilt from it, or fails with the record as it was; it never records over it |
| Toggle.NoRecordStartsFresh | cmd/toggle.go:29-44 | without an active record, toggle creates and starts a session on the disk as it was |
| Toggle.LoadedSessionIsStopped | cmd/toggle.go:29-32 | a loaded session is stopped, nothing is started, and success clears the record |
| Toggle.Toggle | cmd/toggle.go:20-45 | the configuration becomes `Effective`, and the disk and outcome are as `ToggleSpec` describes |
| Toggle.StartNew | cmd/toggle.go:39-44 | the disk and the outcome are those of `StartFresh`: a failing New reports its error, otherwise the new session is started |
| Toggle.ToggleSession | cmd/toggle.go:29-44 | on the effective configuration, the disk and the outcome are as `ToggleOn` describes: stop the loaded session, or create and start a new one |

## Left out

- `config.Load` (config.go:76-93) reads and parses YAML. The configuration is an input, so the model starts from a loaded value.
- The Claude backend (internal/llm/claude.go) is out. `NewClaude`'s outcome is an input (`Tools.claudeInit`) and its answers are a service function. `llm.New` calls a `NewClaude` that claude.go does not define.
- The OpenAI transcriber (internal/transcribe/openai.go) is out. Its answer is a function of the audio path, and it does not touch the disk.
- Network traffic, JSON encoding and HTTP are not modelled. Each Ollama exchange is a function from (URL, request) to a reply of status, body and decoded response. A body that does not decode reads as a parse failure.
- The state file's JSON text is not modelled. A record file holds either a record (`Json`) or text that does not parse (`Raw`), and the indentation of `MarshalIndent` is not represented.
- `filepath.Clean` is modelled for trailing separators only. `Join` drops empty elements, strips trailing separators and inserts one separator, but it does not collapse "..", "." or doubled separators inside a path.
- `Dir` and `Base` of a path that ends with a separator are not `filepath`'s: every path the model splits comes from `Join`, which never leaves one.
- Directories are flat. A listing maps names to file contents, and renaming a directory moves only its own listing. No session directory has subdirectories.
- File modes (0755, 0644) are not modelled, and neither are symbolic links.
- MkdirAll: creates only the directory it is given, because directories are flat; it does not create missing ancestors, and it does not check an ancestor's permissions.
- A path below a file reads as missing, so Read, Write and Rename report "no such file or directory" where Go reports "not a directory" (ENOTDIR).
- The clock, timestamps and `time.Time` are inputs: `Tools.timestamp` is the formatted minute and `Tools.now` the start time.
- `strings.ToLower` is exact for ASCII and a few other letters. Other Unicode case mappings are left abstract.
- `SessionText.Truncate` counts characters, which are the source's runes. After the filter only ASCII remains, so the byte test on line 446 and the rune count agree.
- `os.FindProcess` always succeeds on Unix, so its error branch (recorder.go:72-75) is not modelled. `process.Wait` is not modelled either.
- Start ignores the result of `recorder.Stop` (session.go:113, 127, 132, 137). The model keeps the stopped process id and drops the error.
- Start's "failed to rename session" branch (session.go:131-134) cannot be reached, because `extractAndRenameIfNeeded` always returns nil. The model has no such branch.
- Start's `os.Stat` guard is folded into the read that follows it. A read that fails for any reason lets Start go on, as in the source.
- The desktop notifications (pkg/notify/notify.go) and the stderr warnings on a failed rename are not modelled. Their failures never change the outcome.
- The interactive editor is an oracle: the notes text it saves, if any, and its exit status. Terminal I/O is out.
- `cmd/toggle.go:39` passes a title to `session.New`, which takes none (session.go:47). The model follows session.go and has no title argument.
- ProcessFile's `title` (processor.go:22-24) is computed and never used, so it is not modelled.
- `ProcessFile` takes a `*config.Config` but never changes it. The model takes a `Config` object and reads its value.
- The two built-in Spanish prompts are shortened stand-ins with the same placeholders. The program depends only on their placeholders and file names.
- The commands start, stop and process, and the root command (cmd/*.go other than toggle.go), are not part of this model.
- Strings.TrimSpace: its contract does not say that the result is the middle of the input. `TrimLeftSpace` and `TrimRightSpace`, of which it is made, state that each end lost only white space.
- Toggle.ToggleSpec: has no contract of its own, and neither has `Toggle.ToggleOn`, the same choice on the effective configuration. Their meaning is stated by `Toggle.ActiveRecordIsNotStartedOver`, `Toggle.NoRecordStartsFresh` and `Toggle.LoadedSessionIsStopped`.

## Findings

| source | as written | input that shows it | evidently intended | confidence | as-written member | corrected member |
|---|---|---|---|---|---|---|
| internal/session/processor.go:120-122 | removes `audio.wav` at the session directory's original path. That path is computed at line 50, before the heading rename of lines 92-99, and the not-exist error is ignored | a notes file whose first line is `# Weekly sync`: the directory becomes `<timestamp>-weekly-sync`, the run reports success, and `audio.wav` stays in the renamed directory | remove the audio from the directory the session ended up in | not executed | ProcessorSpec.AsWrittenLeavesRenamedAudio | ProcessorSpec.Process |

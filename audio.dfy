/** The audio recorder (internal/audio/recorder.go): a `pw-record` process recording the default
    sink's monitor into `<tempDir>/recording.wav`, known by its process id.

    The processes (`pactl`, `pw-record`, the SIGTERM) are not part of this model: what each does
    is an input, gathered in `Devices`. What `pw-record` has recorded by the time it is stopped is
    written to the recording file when it starts. */
module Audio {
  import opened Errors
  import opened Strings
  import opened Paths
  import opened Disk
  import opened Config

  const RecordingName := "recording.wav"
  const MonitorSuffix := ".monitor"

  /** A process id of a started process. */
  type Pid = n: int | n > 0 witness 1

  /** What the recording tools do: the output of `pactl get-default-sink`, whether `pw-record`
      starts for a given argument vector (and with which id), what it records, and whether the
      SIGTERM to it succeeds. */
  datatype Devices = Devices(
    defaultSink: Result<string>,
    spawn: seq<string> -> Result<Pid>,
    captured: Option<Data>,
    terminate: Outcome)

  /** The recording file of a recorder working in `tempDir`, whatever the audio settings. */
  function RecordingPath(tempDir: string): string
  {
    Join(tempDir, RecordingName)
  }

  /** The recording lands in the temporary directory under its fixed name. */
  lemma RecordingPathInTempDir(tempDir: string)
    ensures Dir(RecordingPath(tempDir)) == Clean(tempDir) && Base(RecordingPath(tempDir)) == RecordingName
  {
    JoinSplits(tempDir, RecordingName);
  }

  /** getActiveMonitorSource: the trimmed default sink followed by ".monitor". */
  function MonitorSource(defaultSink: Result<string>): (r: Result<string>)
    ensures defaultSink.Err? ==> r == Err(Wrapped("failed to get default sink", defaultSink.error))
    ensures defaultSink.Ok? && TrimSpace(defaultSink.value) == "" ==> r == Err(Message("no default sink found"))
    ensures r.Ok? <==> defaultSink.Ok? && TrimSpace(defaultSink.value) != ""
    ensures r.Ok? ==> HasSuffix(r.value, MonitorSuffix) && TrimSuffix(r.value, MonitorSuffix) == TrimSpace(defaultSink.value)
  {
    match defaultSink
    case Err(e) => Err(Wrapped("failed to get default sink", e))
    case Ok(output) =>
      var sink := TrimSpace(output);
      if sink == "" then Err(Message("no default sink found"))
      else
        var r := sink + MonitorSuffix;
        assert r[..|r| - |MonitorSuffix|] == sink;
        Ok(r)
  }

  /** The arguments of `pw-record`: the monitor as target, 48 kHz, two channels, the file. */
  function RecordArgs(monitor: string, tempDir: string): seq<string>
  {
    ["--target", monitor, "--rate", "48000", "--channels", "2", RecordingPath(tempDir)]
  }

  /** The result of Start on a recorder whose id is `pid`: the new id, the disk and the outcome. */
  datatype Started = Started(pid: int, tree: Tree, outcome: Outcome)

  /** Recorder.Start: the id changes only when the monitor lookup and the spawn both succeed. */
  function StartSpec(pid: int, tempDir: string, tree: Tree, devices: Devices): (r: Started)
    ensures r.outcome.Pass? <==>
      MonitorSource(devices.defaultSink).Ok? && devices.spawn(RecordArgs(MonitorSource(devices.defaultSink).value, tempDir)).Ok?
    ensures r.outcome.Pass? ==>
      r.pid == devices.spawn(RecordArgs(MonitorSource(devices.defaultSink).value, tempDir)).value && r.pid != 0
    ensures r.outcome.Fail? ==> r.pid == pid && r.tree == tree
    ensures forall q :: !SameFile(q, RecordingPath(tempDir)) ==> r.tree.Get(q) == tree.Get(q)
    ensures r.tree.dirs.Keys == tree.dirs.Keys && r.tree.locked == tree.locked
  {
    match MonitorSource(devices.defaultSink)
    case Err(e) => Started(pid, tree, Fail(e))
    case Ok(monitor) =>
      match devices.spawn(RecordArgs(monitor, tempDir))
      case Err(e) => Started(pid, tree, Fail(Wrapped("failed to start pw-record", e)))
      case Ok(newPid) =>
        var recorded := if devices.captured.Some? then tree.Write(RecordingPath(tempDir), devices.captured.value).tree else tree;
        Started(newPid, recorded, Pass)
  }

  /** The result of Stop on a recorder whose id is `pid`: the new id and the outcome. */
  datatype Stopped = Stopped(pid: int, outcome: Outcome)

  /** Recorder.Stop: nothing to do without a process; a successful signal clears the id, a failed
      one keeps it. os.FindProcess cannot fail on Unix, so its failure branch is not modelled. */
  function StopSpec(pid: int, terminate: Outcome): (r: Stopped)
    ensures pid == 0 ==> r == Stopped(0, Pass)
    ensures pid != 0 && terminate.Pass? ==> r == Stopped(0, Pass)
    ensures pid != 0 && terminate.Fail? ==> r == Stopped(pid, Fail(Wrapped("failed to kill recording process", terminate.error)))
  {
    if pid == 0 then Stopped(0, Pass)
    else if terminate.Fail? then Stopped(pid, Fail(Wrapped("failed to kill recording process", terminate.error)))
    else Stopped(0, Pass)
  }

  /** Stop never leaves a process id behind unless the signal failed; a second Stop after a
      successful one does nothing. */
  lemma StopIsIdempotent(pid: int, terminate: Outcome, again: Outcome)
    requires StopSpec(pid, terminate).outcome.Pass?
    ensures StopSpec(pid, terminate).pid == 0
    ensures StopSpec(StopSpec(pid, terminate).pid, again) == Stopped(0, Pass)
  {
  }

  /** The recorder of a session (type Recorder). */
  class Recorder {
    const tempDir: string
    var recordingPID: int

    /** audio.New keeps only the temporary directory; no process is running. */
    constructor (audio: AudioConfig, tempDir: string)
      ensures this.tempDir == tempDir && recordingPID == 0
    {
      this.tempDir := tempDir;
      recordingPID := 0;
    }

    function Path(): (p: string)
    {
      RecordingPath(tempDir)
    }

    method Start(fs: FileSystem, devices: Devices) returns (o: Outcome)
      modifies this, fs
      ensures Started(recordingPID, fs.tree, o) == StartSpec(old(recordingPID), tempDir, old(fs.tree), devices)
    {
      var monitor := MonitorSource(devices.defaultSink);
      if monitor.Err? {
        return Fail(monitor.error);
      }
      var spawned := devices.spawn(RecordArgs(monitor.value, tempDir));
      if spawned.Err? {
        return Fail(Wrapped("failed to start pw-record", spawned.error));
      }
      if devices.captured.Some? {
        var _ := fs.WriteFile(Path(), devices.captured.value);
      }
      recordingPID := spawned.value;
      return Pass;
    }

    method Stop(terminate: Outcome) returns (o: Outcome)
      modifies this
      ensures Stopped(recordingPID, o) == StopSpec(old(recordingPID), terminate)
    {
      if recordingPID == 0 {
        return Pass;
      }
      if terminate.Fail? {
        return Fail(Wrapped("failed to kill recording process", terminate.error));
      }
      recordingPID := 0;
      return Pass;
    }
  }
}

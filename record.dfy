/** The record a session persists while it is active (the `State` struct of the session package). */
module Record {

  /** A point in time (time.Time); the model only stores and compares it. */
  type Instant = int

  /** The fields written to `<tempDir>/current_session.json`, under the JSON keys active, title,
      started_at, path, prompt_template and preserve_audio. */
  datatype State = State(
    active: bool,
    title: string,
    startedAt: Instant,
    path: string,
    promptTemplate: string,
    preserveAudio: bool)
}

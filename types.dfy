/**
 * Shared front-end types (types.ts): the views of the single-page app, the
 * connection states of a live voice session and the transcript records it
 * produces.
 */
module AppTypes {
  /** The screens of the app (`AppView`). */
  datatype AppView = Landing | Dashboard | VoiceAgent | ChatAssistant | Scheduler | Login | Register

  /** The states a live voice session reports (`ConnectionState`). */
  datatype ConnectionState = Disconnected | Connecting | Connected | Error

  /** Who spoke a transcript line. */
  datatype Role = User | Model

  /** One transcript line (`TranscriptItem`); its clock-derived id is not modelled. */
  datatype TranscriptItem = TranscriptItem(role: Role, text: string, isFinal: bool)
}

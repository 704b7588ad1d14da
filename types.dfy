/** The extension's shared record shapes and its default settings. */
module Types {
  import opened Wrappers

  /** One entry of the tracked-domain list. */
  datatype DomainConfig = DomainConfig(domain: string, enabled: bool)

  /** The persisted, global settings blob. */
  datatype Settings = Settings(
    trackedDomains: seq<DomainConfig>,
    timeLimitMinutes: int,
    questionsRequired: int,
    activeRoomId: Option<string>)

  /** What `getSettings` yields before the user has saved anything. */
  const DEFAULT_SETTINGS: Settings := Settings(
    [ DomainConfig("reddit.com", true),
      DomainConfig("twitter.com", true),
      DomainConfig("x.com", true),
      DomainConfig("instagram.com", true),
      DomainConfig("tiktok.com", true),
      DomainConfig("youtube.com", true),
      DomainConfig("facebook.com", true) ],
    15,
    5,
    None)

  /** A quiz question as the background script holds it. The explanation is
      optional: the fallback set has none, fetched questions may carry one.
      The correct index is a JavaScript number, as the server serves it:
      the server's filter lets a fractional index through. */
  datatype QuizQuestion = QuizQuestion(
    id: string,
    question: string,
    options: seq<string>,
    correctIndex: real,
    explanation: Option<string>)

  /** One entry of a session's wrong-answer audit trail; `roomId` is filled
      in only when the trail is reported. */
  datatype WrongAnswer = WrongAnswer(
    question: string,
    options: seq<string>,
    correctIndex: real,
    selectedIndex: int,
    roomId: Option<string>)
}

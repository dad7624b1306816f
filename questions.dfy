/** The records the application passes around. */
module Questions {
  import opened Wrappers

  /** The social setting a question is framed for. */
  datatype ContextType = FirstDate | FriendHangout | Classmates | Networking | GroupIcebreaker

  /** How provocative the questions are, from 1 (wholesome) to 5. */
  type ChaosLevel = c: int | 1 <= c <= 5 witness 3

  /** An optional vibe tag that further constrains the questions' style. */
  datatype FilterType = SmallTalk | Deep | Silly | Unhinged | Philosophical

  /** A generated question. `targetPerson` is present only for spin-mode results. */
  datatype Question = Question(
    id: string,
    text: string,
    context: ContextType,
    chaosLevel: ChaosLevel,
    filters: seq<FilterType>,
    timestamp: int,
    targetPerson: Option<string>)
}

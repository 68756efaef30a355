/** The run context shared with both agents during one simulated interview
    (user_simulator/context.py). */
module Context {
  import opened Common

  /** One question of a discussion guide: the main question and its probes. */
  datatype Question = Question(bigQuestion: string, probes: seq<string>)

  /** A discussion block: a titled group of questions, handled as one unit. */
  datatype Block = Block(title: string, questions: seq<Question>)

  /** The five fields of `StudyContext`. The simulator replaces
      `discussionBlock` when it moves on to the next block; no other field
      changes during an interview. */
  datatype StudyContext = StudyContext(
    studyTitle: string,
    studySummary: string,
    userPopulation: string,
    discussionBlock: Block,
    userProfile: Profile)
}

/** `Simulator` (user_simulator/simulator.py): loading a study and the
    run's profile batch, building the initial context, running one
    interview, and the record it saves. The data directory is a `DataRoot`
    object whose maps stand for the study files and the per-run
    directories; the clock and the backend's results are parameters. */
module Simulation {
  import opened Common
  import opened Context
  import Format
  import Users
  import opened Interview

  /** `study["discussion_guide"]`; `blocks` is None when the key is absent. */
  datatype Guide = Guide(blocks: Option<seq<Block>>)

  /** A study file as `json.load` returns it; any of the keys the
      simulator reads may be missing. */
  datatype Study = Study(
    studyName: Option<string>, studySummary: Option<string>, discussionGuide: Option<Guide>)

  const OutOfRange := IndexError("list index out of range")

  /** `study["discussion_guide"]["blocks"]`. */
  function GuideBlocks(study: Study): Result<seq<Block>>
  {
    match study.discussionGuide
    case None => Failure(KeyError("discussion_guide"))
    case Some(guide) =>
      match guide.blocks
      case None => Failure(KeyError("blocks"))
      case Some(blocks) => Success(blocks)
  }

  /** `profiles[index]` with Python's indexing: a negative index counts
      from the end. */
  function ProfileAt(profiles: seq<Profile>, index: int): (r: Result<Profile>)
    ensures r.Success? <==> -|profiles| <= index < |profiles|
    ensures r.Success? ==> r.value == profiles[if index < 0 then |profiles| + index else index]
    ensures r.Failure? ==> r.error == OutOfRange
  {
    if 0 <= index < |profiles| then Success(profiles[index])
    else if -|profiles| <= index < 0 then Success(profiles[|profiles| + index])
    else Failure(OutOfRange)
  }

  /** `_initial_context`: the context of an interview's first block. The
      lookups happen in the order the source makes them, so the first
      missing piece decides the error. */
  function InitialContext(study: Study, userPopulation: string, profile: Profile): (r: Result<StudyContext>)
    ensures r.Success? <==>
      && GuideBlocks(study).Success? && GuideBlocks(study).value != []
      && study.studyName.Some? && study.studySummary.Some?
    ensures r.Success? ==>
      && r.value.discussionBlock == GuideBlocks(study).value[0]
      && r.value.userProfile == profile
      && r.value.userPopulation == userPopulation
      && r.value.studyTitle == study.studyName.value
      && r.value.studySummary == study.studySummary.value
    ensures r.Failure? ==>
      r.error in {KeyError("discussion_guide"), KeyError("blocks"), OutOfRange,
                  KeyError("study_name"), KeyError("study_summary")}
  {
    match GuideBlocks(study)
    case Failure(e) => Failure(e)
    case Success(blocks) =>
      if blocks == [] then Failure(OutOfRange)
      else if study.studyName.None? then Failure(KeyError("study_name"))
      else if study.studySummary.None? then Failure(KeyError("study_summary"))
      else Success(StudyContext(study.studyName.value, study.studySummary.value, userPopulation, blocks[0], profile))
  }

  /** `simulation_id or datetime.now().strftime(...)`: an absent or empty id
      is replaced by the clock reading. */
  function SimulationIdFor(simulationId: Option<string>, now: string): (id: string)
    ensures simulationId.Some? && simulationId.value != "" ==> id == simulationId.value
    ensures simulationId.None? || simulationId.value == "" ==> id == now
  {
    if simulationId.Some? && simulationId.value != "" then simulationId.value else now
  }

  /** The `metadata` object of a saved conversation. */
  datatype Metadata = Metadata(
    simulationId: string, userIndex: int, study: string, timestamp: string,
    totalTurns: nat, userPopulation: string)

  /** A saved conversation: the profile, the dialogue and the metadata. */
  datatype ConversationRecord = ConversationRecord(profile: Profile, dialogue: seq<Message>, metadata: Metadata)

  const UnknownStudy := "Unknown Study"

  /** `study.get("study_name", "Unknown Study")`. */
  function StudyLabel(study: Study): string
  {
    if study.studyName.Some? then study.studyName.value else UnknownStudy
  }

  /** The record `save_conversation` writes; `timestamp` is the reading of
      the first clock call (`isoformat`). */
  function ConversationRecordFor(
    simulationId: string, userPopulation: string, study: Study,
    index: int, dialogue: seq<Message>, profile: Profile, timestamp: string): (record: ConversationRecord)
    ensures record.profile == profile && record.dialogue == dialogue
    ensures record.metadata.totalTurns == |dialogue| && record.metadata.userIndex == index
    ensures record.metadata.simulationId == simulationId && record.metadata.userPopulation == userPopulation
    ensures record.metadata.study == if study.studyName.Some? then study.studyName.value else UnknownStudy
  {
    ConversationRecord(profile, dialogue,
      Metadata(simulationId, index, StudyLabel(study), timestamp, |dialogue|, userPopulation))
  }

  /** `conversation_{index:03d}_{timestamp}.json`; `stamp` is the reading
      of the second clock call. */
  function ConversationFilename(index: int, stamp: string): string
  {
    "conversation_" + Format.Pad3(index) + "_" + stamp + ".json"
  }

  /** `c` does not occur in `s`. */
  predicate Lacks(s: string, c: char)
  {
    forall k :: 0 <= k < |s| ==> s[k] != c
  }

  /** `format(i, "03d")` is made of digits and possibly a leading minus sign. */
  lemma Pad3LacksUnderscore(i: int)
    ensures Lacks(Format.Pad3(i), '_')
  {
    Format.Pad3RoundTrip(i);
  }

  /** Text before the first occurrence of a separator is determined by the whole. */
  lemma SplitAtSeparator(a: string, b: string, c: string, d: string, sep: char)
    requires Lacks(a, sep) && Lacks(c, sep)
    requires a + [sep] + b == c + [sep] + d
    ensures a == c && b == d
  {
    var whole := a + [sep] + b;
    SeparatorPosition(a, b, sep);
    SeparatorPosition(c, d, sep);
    assert whole[|a|] == sep && whole[|c|] == sep;
    assert |a| == |c|;
    assert a == whole[..|a|] && b == whole[|a| + 1..];
  }

  /** The first `sep` in `a + [sep] + b` sits right after `a`. */
  lemma SeparatorPosition(a: string, b: string, sep: char)
    requires Lacks(a, sep)
    ensures (a + [sep] + b)[|a|] == sep
    ensures forall k :: 0 <= k < |a| ==> (a + [sep] + b)[k] != sep
  {
  }

  lemma Regroup(p: string, x: string, sep: char, s: string, q: string)
    ensures p + x + [sep] + s + q == p + (x + [sep] + (s + q))
  {
  }

  lemma DropCommonPrefix(p: string, x: string, y: string)
    requires p + x == p + y
    ensures x == y
  {
    assert x == (p + x)[|p|..];
  }

  lemma DropCommonSuffix(x: string, y: string, q: string)
    requires x + q == y + q
    ensures x == y
  {
    assert x == (x + q)[..|x|];
  }

  /** Different indexes or different clock readings give different file
      names, so one save never overwrites another unless both the index
      and the second-resolution timestamp agree. */
  lemma ConversationFilenameInjective(i: int, stamp: string, j: int, stamp2: string)
    requires ConversationFilename(i, stamp) == ConversationFilename(j, stamp2)
    ensures i == j && stamp == stamp2
  {
    var x := Format.Pad3(i);
    var y := Format.Pad3(j);
    Regroup("conversation_", x, '_', stamp, ".json");
    Regroup("conversation_", y, '_', stamp2, ".json");
    DropCommonPrefix("conversation_", x + ['_'] + (stamp + ".json"), y + ['_'] + (stamp2 + ".json"));
    Pad3LacksUnderscore(i);
    Pad3LacksUnderscore(j);
    SplitAtSeparator(x, stamp + ".json", y, stamp2 + ".json", '_');
    DropCommonSuffix(stamp, stamp2, ".json");
    Format.Pad3Injective(i, j);
  }

  /** The file name starts with the zero-padded index, which reads back as
      the index. */
  lemma ConversationFilenameEncodesIndex(index: int, stamp: string)
    ensures var name := ConversationFilename(index, stamp);
      var digits := Format.Pad3(index);
      && name[..13] == "conversation_"
      && name[13..13 + |digits|] == digits
      && Format.ParseInt(name[13..13 + |digits|]) == Some(index)
  {
    var digits := Format.Pad3(index);
    Regroup("conversation_", digits, '_', stamp, ".json");
    PrefixParts("conversation_", digits, ['_'] + (stamp + ".json"));
    Format.Pad3RoundTrip(index);
  }

  /** The pieces of `p + (x + r)` sit at their offsets. */
  lemma PrefixParts(p: string, x: string, r: string)
    ensures (p + (x + r))[..|p|] == p && (p + (x + r))[|p|..|p| + |x|] == x
  {
  }

  /** A per-run directory: the profile batch file (None until written) and
      the saved conversations by file name. */
  datatype RunFiles = RunFiles(profiles: Option<seq<Profile>>, conversations: map<string, ConversationRecord>)

  /** The data directory: the study files by study name, and the run
      directories by simulation id. */
  class DataRoot {
    var studies: map<string, Study>
    var runs: map<string, RunFiles>

    constructor(studies: map<string, Study>, runs: map<string, RunFiles>)
      ensures this.studies == studies && this.runs == runs
    {
      this.studies := studies;
      this.runs := runs;
    }
  }

  /** What `__init__` found: the study and the run's profiles. */
  datatype Loaded = Loaded(study: Study, profiles: seq<Profile>)

  /** What `__init__` returns or raises, and the run directories afterwards. */
  datatype Setup = Setup(outcome: Result<Loaded>, runs: map<string, RunFiles>)

  /** `os.makedirs(..., exist_ok=True)` of the run directory. */
  function MakeRun(runs: map<string, RunFiles>, id: string): (made: map<string, RunFiles>)
    ensures id in made && made.Keys == runs.Keys + {id}
    ensures forall other :: other in runs ==> made[other] == runs[other]
  {
    if id in runs then runs else runs[id := RunFiles(None, map[])]
  }

  /** `__init__`: make the run directory, load the study (or raise
      FileNotFoundError), then load the run's profile batch when its file
      exists, and otherwise generate the batch and write it. */
  function Initialise(
    studies: map<string, Study>, runs: map<string, RunFiles>, studyName: string, id: string,
    numberOfUsers: int, dict: Users.ProfileDict, draws: seq<Users.UserDraw>): (r: Setup)
    ensures r.outcome.Success? ==> studyName in studies && r.outcome.value.study == studies[studyName]
    ensures r.outcome.Success? ==> id in r.runs && r.runs[id].profiles == Some(r.outcome.value.profiles)
  {
    var made := MakeRun(runs, id);
    if studyName !in studies then
      Setup(Failure(FileNotFoundError("Study " + studyName + " not found")), made)
    else
      var study := studies[studyName];
      match made[id].profiles
      case Some(profiles) => Setup(Success(Loaded(study, profiles)), made)
      case None =>
        match Users.Generated(dict, Users.UserCount(numberOfUsers), draws)
        case Failure(e) => Setup(Failure(e), made)
        case Success(profiles) =>
          Setup(Success(Loaded(study, profiles)), made[id := made[id].(profiles := Some(profiles))])
  }

  /** Reuse of a run: once `__init__` has succeeded for a simulation id,
      initialising again with that id loads the same profiles without
      generating any, whatever the requested count and the draws, and
      changes nothing on disk. */
  lemma InitialiseReusesProfiles(
    studies: map<string, Study>, runs: map<string, RunFiles>, studyName: string, id: string,
    numberOfUsers: int, dict: Users.ProfileDict, draws: seq<Users.UserDraw>,
    numberOfUsers2: int, dict2: Users.ProfileDict, draws2: seq<Users.UserDraw>)
    requires Initialise(studies, runs, studyName, id, numberOfUsers, dict, draws).outcome.Success?
    ensures var first := Initialise(studies, runs, studyName, id, numberOfUsers, dict, draws);
      Initialise(studies, first.runs, studyName, id, numberOfUsers2, dict2, draws2) == first
  {
  }

  /** `__init__` touches only its own run directory: it makes it when
      missing, never changes a conversation file, and changes the profile
      batch file only by writing a batch it generated successfully. */
  lemma InitialiseKeepsOtherFiles(
    studies: map<string, Study>, runs: map<string, RunFiles>, studyName: string, id: string,
    numberOfUsers: int, dict: Users.ProfileDict, draws: seq<Users.UserDraw>)
    ensures var setup := Initialise(studies, runs, studyName, id, numberOfUsers, dict, draws);
      var existing := if id in runs then runs[id].profiles else None;
      && id in setup.runs && setup.runs.Keys == runs.Keys + {id}
      && (forall other :: other in runs && other != id ==> setup.runs[other] == runs[other])
      && setup.runs[id].conversations == (if id in runs then runs[id].conversations else map[])
      && (setup.runs[id].profiles == existing
          || (existing.None? && setup.outcome.Success?
              && setup.runs[id].profiles == Some(setup.outcome.value.profiles)))
  {
  }

  /** What `__init__` yields: FileNotFoundError for a missing study; the
      batch file's profiles unchanged when it exists; otherwise a freshly
      generated batch of one profile per requested user, or the error of
      the first user whose generation failed. */
  lemma InitialiseOutcome(
    studies: map<string, Study>, runs: map<string, RunFiles>, studyName: string, id: string,
    numberOfUsers: int, dict: Users.ProfileDict, draws: seq<Users.UserDraw>)
    ensures var setup := Initialise(studies, runs, studyName, id, numberOfUsers, dict, draws);
      var existing := if id in runs then runs[id].profiles else None;
      var count := Users.UserCount(numberOfUsers);
      && (studyName !in studies ==>
            setup.outcome == Failure(FileNotFoundError("Study " + studyName + " not found")))
      && (studyName in studies && existing.Some? ==>
            setup.outcome == Success(Loaded(studies[studyName], existing.value)))
      && (studyName in studies && existing.None? ==>
            && (setup.outcome.Success? <==>
                  count <= |draws| && forall u :: 0 <= u < count ==> Users.NewUser(dict, draws[u]).Success?)
            && (setup.outcome.Success? ==>
                  && setup.outcome.value.study == studies[studyName]
                  && |setup.outcome.value.profiles| == count
                  && forall u :: 0 <= u < count ==>
                       setup.outcome.value.profiles[u] == Users.NewUser(dict, draws[u]).value))
  {
    Users.GeneratedFacts(dict, Users.UserCount(numberOfUsers), draws);
  }

  /** The interview `simulate_conversation(index)` runs, as a function of
      the simulator's study, population and profiles and of the backend's
      results: the dialogue when the researcher has finished every block,
      or the error raised. */
  function Conversation(
    study: Study, userPopulation: string, profiles: seq<Profile>, index: int, replies: seq<Replies>): (r: Result<seq<Message>>)
    ensures r.Success? ==> ProfileAt(profiles, index).Success?
                           && InitialContext(study, userPopulation, ProfileAt(profiles, index).value).Success?
  {
    match ProfileAt(profiles, index)
    case Failure(e) => Failure(e)
    case Success(profile) =>
      match InitialContext(study, userPopulation, profile)
      case Failure(e) => Failure(e)
      case Success(context) =>
        Outcome(Converse(GuideBlocks(study).value, Start(context), replies))
  }

  /** A finished interview alternates questions and answers and comes from
      a study whose name is present, so the saved record never carries the
      "Unknown Study" fallback and counts every turn; a failed one raised one
      of the errors the source can raise, or ran out of backend results
      (`RepliesExhausted`, a limit of the model). */
  lemma ConversationOutcome(
    study: Study, userPopulation: string, profiles: seq<Profile>, index: int, replies: seq<Replies>)
    ensures var r := Conversation(study, userPopulation, profiles, index, replies);
      && (r.Success? ==>
            && Alternates(r.value)
            && study.studyName.Some? && StudyLabel(study) == study.studyName.value
            && -|profiles| <= index < |profiles|
            && GuideBlocks(study).Success? && GuideBlocks(study).value != [])
      && (r.Failure? ==>
            r.error in {OutOfRange, KeyError("discussion_guide"), KeyError("blocks"),
                        KeyError("study_name"), KeyError("study_summary"), NoQuestion, BackendError,
                        RepliesExhausted})
  {
    var profile := ProfileAt(profiles, index);
    if profile.Success? {
      var context := InitialContext(study, userPopulation, profile.value);
      if context.Success? {
        ConversationTranscript(GuideBlocks(study).value, context.value, replies);
        ConverseRaises(GuideBlocks(study).value, Start(context.value), replies);
      }
    }
  }

  /** The simulator: the fields `__init__` sets. None of them changes after
      construction; what changes is the data directory. */
  class Simulator {
    const simulationId: string
    const numberOfUsers: int
    const userPopulation: string
    const profileDict: Users.ProfileDict
    const study: Study
    const userProfiles: seq<Profile>
    const data: DataRoot

    constructor(
      simulationId: string, numberOfUsers: int, userPopulation: string,
      profileDict: Users.ProfileDict, study: Study, userProfiles: seq<Profile>, data: DataRoot)
      ensures this.simulationId == simulationId && this.numberOfUsers == numberOfUsers
      ensures this.userPopulation == userPopulation && this.profileDict == profileDict
      ensures this.study == study && this.userProfiles == userProfiles && this.data == data
    {
      this.simulationId := simulationId;
      this.numberOfUsers := numberOfUsers;
      this.userPopulation := userPopulation;
      this.profileDict := profileDict;
      this.study := study;
      this.userProfiles := userProfiles;
      this.data := data;
    }

    /** `save_conversation`: writes the record under its file name in the
        run's conversations directory (replacing a file of the same name)
        and returns the name. */
    method SaveConversation(index: int, dialogue: seq<Message>, profile: Profile, timestamp: string, stamp: string)
      returns (filename: string)
      requires simulationId in data.runs
      modifies data
      ensures filename == ConversationFilename(index, stamp)
      ensures data.studies == old(data.studies)
      ensures var run := old(data.runs)[simulationId];
        data.runs == old(data.runs)[simulationId := run.(conversations := run.conversations[
          filename := ConversationRecordFor(simulationId, userPopulation, study, index, dialogue, profile, timestamp)])]
    {
      var conversationData := ConversationRecordFor(simulationId, userPopulation, study, index, dialogue, profile, timestamp);
      filename := ConversationFilename(index, stamp);
      var run := data.runs[simulationId];
      data.runs := data.runs[simulationId := run.(conversations := run.conversations[filename := conversationData])];
    }

    /** `simulate_conversation`: look up the profile, build the context,
        run the interview loop and save the dialogue, which happens only
        when the researcher has finished every block. */
    method SimulateConversation(index: int, replies: seq<Replies>, timestamp: string, stamp: string)
      returns (r: Result<seq<Message>>)
      requires simulationId in data.runs
      modifies data
      ensures r == Conversation(study, userPopulation, userProfiles, index, replies)
      ensures data.studies == old(data.studies)
      ensures r.Failure? ==> data.runs == old(data.runs)
      ensures r.Success? ==>
        var run := old(data.runs)[simulationId];
        var record := ConversationRecordFor(simulationId, userPopulation, study, index, r.value,
                                            ProfileAt(userProfiles, index).value, timestamp);
        data.runs == old(data.runs)[simulationId := run.(conversations := run.conversations[
          ConversationFilename(index, stamp) := record])]
    {
      var profile := ProfileAt(userProfiles, index);
      if profile.Failure? {
        return Failure(profile.error);
      }
      var initial := InitialContext(study, userPopulation, profile.value);
      if initial.Failure? {
        return Failure(initial.error);
      }
      var interview := InterviewLoop(GuideBlocks(study).value, initial.value, replies);
      if interview.Failure? {
        return Failure(interview.error);
      }
      var dialogue := interview.value;
      var _ := SaveConversation(index, dialogue, profile.value, timestamp, stamp);
      return Success(dialogue);
    }
  }

  /** `Simulator(study, number_of_users, user_population, simulation_id)`:
      `now` is the clock reading used when no id is given, and `draws` the
      random draws and backend answers profile generation would consume. */
  method NewSimulator(
    data: DataRoot, studyName: string, numberOfUsers: int, userPopulation: string,
    simulationId: Option<string>, now: string, profileDict: Users.ProfileDict, draws: seq<Users.UserDraw>)
    returns (r: Result<Simulator>)
    modifies data
    ensures var id := SimulationIdFor(simulationId, now);
      var setup := Initialise(old(data.studies), old(data.runs), studyName, id, numberOfUsers, profileDict, draws);
      && data.studies == old(data.studies)
      && data.runs == setup.runs
      && (r.Success? <==> setup.outcome.Success?)
      && (r.Failure? ==> r.error == setup.outcome.error)
      && (r.Success? ==>
            && fresh(r.value)
            && r.value.simulationId == id && r.value.numberOfUsers == numberOfUsers
            && r.value.userPopulation == userPopulation && r.value.profileDict == profileDict
            && r.value.study == setup.outcome.value.study
            && r.value.userProfiles == setup.outcome.value.profiles
            && r.value.data == data)
  {
    var id := SimulationIdFor(simulationId, now);
    if id !in data.runs {
      data.runs := data.runs[id := RunFiles(None, map[])];
    }
    if studyName !in data.studies {
      return Failure(FileNotFoundError("Study " + studyName + " not found"));
    }
    var study := data.studies[studyName];
    var userProfiles: seq<Profile>;
    if data.runs[id].profiles.Some? {
      userProfiles := data.runs[id].profiles.value;
    } else {
      var generated := Users.GenerateProfiles(profileDict, numberOfUsers, draws);
      if generated.Failure? {
        return Failure(generated.error);
      }
      userProfiles := generated.value;
      data.runs := data.runs[id := data.runs[id].(profiles := Some(userProfiles))];
    }
    var simulator := new Simulator(id, numberOfUsers, userPopulation, profileDict, study, userProfiles, data);
    return Success(simulator);
  }

  /** A one-block guide whose first researcher output says `finished`: the
      interview ends at once with an empty dialogue, and a question that
      comes with the `finished` signal is dropped. */
  lemma OneBlockFinishedAtOnce(study: Study, userPopulation: string, profiles: seq<Profile>,
                               block: Block, question: Option<string>)
    requires study.discussionGuide == Some(Guide(Some([block])))
    requires study.studyName.Some? && study.studySummary.Some? && profiles != []
    ensures Conversation(study, userPopulation, profiles, 0,
                         [Replies(Some(ResearcherOutput(question, true)), None, Returns)]) == Success([])
  {
  }

  /** A respondent call that raises after the first question makes the
      interview fail with the backend's exception, so nothing is saved. */
  lemma RespondentFailureRaises(study: Study, userPopulation: string, profiles: seq<Profile>,
                                question: string, replies: seq<Replies>)
    requires profiles != [] && InitialContext(study, userPopulation, profiles[0]).Success?
    requires question != "" && replies != []
    requires replies[0] == Replies(Some(ResearcherOutput(Some(question), false)), None, RespondentRaises)
    ensures Conversation(study, userPopulation, profiles, 0, replies) == Failure(BackendError)
  {
    var context := InitialContext(study, userPopulation, profiles[0]).value;
    var blocks := GuideBlocks(study).value;
    var last := IterateBackendRaises(blocks, Start(context), replies[0]);
    ConverseHaltsAt(blocks, Start(context), replies, 0, Raised(BackendError), last);
    assert replies[0..] == replies;
  }

  /** A researcher output with neither a question nor the `finished` signal
      makes the interview raise the ValueError, whatever the respondent would
      have said. */
  lemma MissingQuestionRaises(study: Study, userPopulation: string, profiles: seq<Profile>,
                              answer: Option<string>)
    requires profiles != [] && InitialContext(study, userPopulation, profiles[0]).Success?
    ensures Conversation(study, userPopulation, profiles, 0,
                         [Replies(Some(ResearcherOutput(None, false)), answer, Returns)]) == Failure(NoQuestion)
  {
  }
}

/** Profile-batch generation, `Simulator.generate_users`
    (user_simulator/simulator.py:57-93): one seed persona drawn per user
    from the demographic table, an age drawn inside the seed's range, the
    persona expanded by the profile backend, and a short descriptor
    attached under the key "profile". The random draws and the backend's
    answers are parameters. */
module Users {
  import opened Common
  import Format

  /** An `age` entry of the demographic table: `(low, high)`. */
  datatype AgeRange = AgeRange(low: int, high: int)

  /** `USER_PROFILE_DICT`: the lists each seed field is chosen from.
      user_simulator/constant.py is not part of this model, so the table's
      contents are a parameter. */
  datatype ProfileDict = ProfileDict(
    age: seq<AgeRange>, gender: seq<string>, urban: seq<string>,
    academic: seq<string>, state: seq<string>)

  /** The random draws one user consumes, in the order the source makes
      them, and the profile backend's answer (None when the call fails). */
  datatype UserDraw = UserDraw(
    ageRange: nat, gender: nat, urban: nat, academic: nat, state: nat,
    age: nat, generated: Option<Profile>)

  /** The seed persona (`profile_seed`; its `other_characteristics` is always None). */
  datatype Seed = Seed(ageRange: AgeRange, gender: string, urban: string, academic: string, state: string)

  const EmptyChoice := IndexError("Cannot choose from an empty sequence")

  /** `random.choice(xs)`, the draw `k` deciding which element. */
  function Choice<T>(xs: seq<T>, k: nat): (r: Result<T>)
    ensures r.Success? <==> xs != []
    ensures r.Success? ==> r.value in xs
    ensures r.Failure? ==> r.error == EmptyChoice
  {
    if xs == [] then Failure(EmptyChoice) else Success(xs[k % |xs|])
  }

  /** `random.randint(low, high)`, the draw `k` deciding which value; the
      message is the one Python 3.12 gives for an empty range. */
  function RandInt(low: int, high: int, k: nat): (r: Result<int>)
    ensures r.Success? <==> low <= high
    ensures r.Success? ==> low <= r.value <= high
  {
    if low > high then
      Failure(ValueError("empty range in randrange(" + Format.IntToString(low) + ", "
                         + Format.IntToString(high + 1) + ")"))
    else Success(low + k % (high - low + 1))
  }

  /** The seed persona; the fields are drawn in the order the dictionary
      display lists them, so the first empty list decides the error. */
  function DrawSeed(dict: ProfileDict, draw: UserDraw): Result<Seed>
  {
    match Choice(dict.age, draw.ageRange)
    case Failure(e) => Failure(e)
    case Success(ageRange) =>
    match Choice(dict.gender, draw.gender)
    case Failure(e) => Failure(e)
    case Success(gender) =>
    match Choice(dict.urban, draw.urban)
    case Failure(e) => Failure(e)
    case Success(urban) =>
    match Choice(dict.academic, draw.academic)
    case Failure(e) => Failure(e)
    case Success(academic) =>
    match Choice(dict.state, draw.state)
    case Failure(e) => Failure(e)
    case Success(state) => Success(Seed(ageRange, gender, urban, academic, state))
  }

  /** `profile_str`: "<age>yo <gender>, <urban>, <academic>, <state>". */
  function Descriptor(age: int, seed: Seed): string
  {
    Format.IntToString(age) + "yo " + seed.gender + ", " + seed.urban + ", "
      + seed.academic + ", " + seed.state
  }

  /** One user: seed, age, backend expansion, then the descriptor stored
      under "profile" (replacing any value the backend put there). */
  function NewUser(dict: ProfileDict, draw: UserDraw): (r: Result<Profile>)
    ensures r.Success? ==> draw.generated.Some? && "profile" in r.value
  {
    match DrawSeed(dict, draw)
    case Failure(e) => Failure(e)
    case Success(seed) =>
    match RandInt(seed.ageRange.low, seed.ageRange.high, draw.age)
    case Failure(e) => Failure(e)
    case Success(age) =>
    match draw.generated
    case None => Failure(BackendError)
    case Some(profile) => Success(profile["profile" := Descriptor(age, seed)])
  }

  /** What a generated user looks like: the backend's profile with the key
      "profile" set to a descriptor whose fields were chosen from the table
      and whose age lies inside the chosen range; and every failure is one
      the source raises (an empty list, an empty age range, the backend). */
  lemma NewUserShape(dict: ProfileDict, draw: UserDraw)
    ensures var r := NewUser(dict, draw);
      && (r.Success? ==>
            && draw.generated.Some?
            && r.value.Keys == draw.generated.value.Keys + {"profile"}
            && (forall key :: key in draw.generated.value && key != "profile" ==>
                  r.value[key] == draw.generated.value[key])
            && exists seed: Seed, age: int ::
                 && seed.ageRange in dict.age && seed.ageRange.low <= age <= seed.ageRange.high
                 && seed.gender in dict.gender && seed.urban in dict.urban
                 && seed.academic in dict.academic && seed.state in dict.state
                 && r.value["profile"] == Descriptor(age, seed))
      && (r.Failure? ==>
            || r.error == EmptyChoice
            || r.error.ValueError?
            || r.error == BackendError)
      && (r.Failure? <==>
            || dict.age == [] || dict.gender == [] || dict.urban == []
            || dict.academic == [] || dict.state == []
            || (DrawSeed(dict, draw).Success? && DrawSeed(dict, draw).value.ageRange.low > DrawSeed(dict, draw).value.ageRange.high)
            || draw.generated.None?)
  {
    var r := NewUser(dict, draw);
    if r.Success? {
      var seed := DrawSeed(dict, draw).value;
      var age := RandInt(seed.ageRange.low, seed.ageRange.high, draw.age).value;
      assert r.value["profile"] == Descriptor(age, seed);
    }
  }

  /** The descriptor starts with the age written in decimal, so the age
      can be read back from it. */
  lemma DescriptorStartsWithAge(age: int, seed: Seed)
    ensures var d := Descriptor(age, seed);
      var digits := Format.IntToString(age);
      && d[..|digits|] == digits
      && d[|digits|..|digits| + 3] == "yo "
      && Format.ParseInt(d[..|digits|]) == Some(age)
  {
    Format.IntToStringRoundTrip(age);
  }

  /** `range(number_of_users)` is empty for a negative count. */
  function UserCount(numberOfUsers: int): nat
  {
    if numberOfUsers < 0 then 0 else numberOfUsers
  }

  /** What each user's draw turns into, user by user. */
  function Outcomes(dict: ProfileDict, draws: seq<UserDraw>): (r: seq<Result<Profile>>)
    ensures |r| == |draws|
    ensures forall i :: 0 <= i < |draws| ==> r[i] == NewUser(dict, draws[i])
  {
    if draws == [] then [] else [NewUser(dict, draws[0])] + Outcomes(dict, draws[1..])
  }

  /** The profiles of the first `count` users, given what each user's draw
      turns into: the batch fails at the first user that fails, or when the
      draws run out. */
  function Batch(outcomes: seq<Result<Profile>>, count: nat): (r: Result<seq<Profile>>)
    ensures r.Success? ==> |r.value| == count <= |outcomes|
    decreases count
  {
    if count == 0 then Success([])
    else
      match Batch(outcomes, count - 1)
      case Failure(e) => Failure(e)
      case Success(profiles) =>
        if count - 1 >= |outcomes| then Failure(RepliesExhausted)
        else
          match outcomes[count - 1]
          case Failure(e) => Failure(e)
          case Success(profile) => Success(profiles + [profile])
  }

  /** What `generate_users` returns for `count` users. */
  function Generated(dict: ProfileDict, count: nat, draws: seq<UserDraw>): (r: Result<seq<Profile>>)
    ensures r.Success? ==> |r.value| == count
  {
    Batch(Outcomes(dict, draws), count)
  }

  /** User `j` is the first that fails, with `error`: every user before it
      succeeded, and either its own draw failed or there was no draw left. */
  predicate FailsFirstAt(outcomes: seq<Result<Profile>>, j: nat, error: Error)
  {
    && (forall i :: 0 <= i < j ==> i < |outcomes| && outcomes[i].Success?)
    && if j < |outcomes| then outcomes[j] == Failure(error) else error == RepliesExhausted
  }

  /** The batch succeeds exactly when every user does, and then holds one
      profile per user, in order; a failed batch reports the error of the
      first user that failed. */
  lemma {:induction false} BatchFacts(outcomes: seq<Result<Profile>>, count: nat)
    ensures var r := Batch(outcomes, count);
      && (r.Success? <==> count <= |outcomes| && forall i :: 0 <= i < count ==> outcomes[i].Success?)
      && (r.Success? ==> |r.value| == count
                         && forall i :: 0 <= i < count ==> r.value[i] == outcomes[i].value)
      && (r.Failure? ==> exists j :: 0 <= j < count && FailsFirstAt(outcomes, j, r.error))
    decreases count
  {
    if count > 0 {
      BatchFacts(outcomes, count - 1);
      var r := Batch(outcomes, count);
      var before := Batch(outcomes, count - 1);
      if before.Success? && r.Failure? {
        assert FailsFirstAt(outcomes, count - 1, r.error);
      }
    }
  }

  /** `generate_users` returns one profile per user, each the one that
      user's draw produced, or else the error of the first user that failed. */
  lemma GeneratedFacts(dict: ProfileDict, count: nat, draws: seq<UserDraw>)
    ensures var r := Generated(dict, count, draws);
      && (r.Success? <==> count <= |draws| && forall i :: 0 <= i < count ==> NewUser(dict, draws[i]).Success?)
      && (r.Success? ==> |r.value| == count
                         && forall i :: 0 <= i < count ==> r.value[i] == NewUser(dict, draws[i]).value)
      && (r.Failure? ==> exists j :: 0 <= j < count && FailsFirstAt(Outcomes(dict, draws), j, r.error))
  {
    BatchFacts(Outcomes(dict, draws), count);
  }

  /** Once a batch has failed, generating more users does not change the error. */
  lemma {:induction false} BatchFailureSticks(outcomes: seq<Result<Profile>>, n: nat, count: nat)
    requires n <= count && Batch(outcomes, n).Failure?
    ensures Batch(outcomes, count) == Batch(outcomes, n)
    decreases count
  {
    if count > n {
      BatchFailureSticks(outcomes, n, count - 1);
    }
  }

  /** The batch grows by one profile while every user succeeds, and stops
      with the error of the first user that fails. */
  lemma BatchStep(outcomes: seq<Result<Profile>>, n: nat, count: nat, profiles: seq<Profile>)
    requires n < count && Batch(outcomes, n) == Success(profiles)
    ensures n < |outcomes| && outcomes[n].Success? ==>
      Batch(outcomes, n + 1) == Success(profiles + [outcomes[n].value])
    ensures n >= |outcomes| ==> Batch(outcomes, count) == Failure(RepliesExhausted)
    ensures n < |outcomes| && outcomes[n].Failure? ==> Batch(outcomes, count) == Failure(outcomes[n].error)
  {
    if n >= |outcomes| || outcomes[n].Failure? {
      BatchFailureSticks(outcomes, n + 1, count);
    }
  }

  /** `generate_users` without the file write: the loop over
      `range(number_of_users)`, appending one profile per user. */
  method GenerateProfiles(dict: ProfileDict, numberOfUsers: int, draws: seq<UserDraw>)
    returns (r: Result<seq<Profile>>)
    ensures r == Generated(dict, UserCount(numberOfUsers), draws)
  {
    ghost var outcomes := Outcomes(dict, draws);
    var count := UserCount(numberOfUsers);
    var generatedProfiles: seq<Profile> := [];
    var n := 0;
    while n < count
      invariant 0 <= n <= count
      invariant Batch(outcomes, n) == Success(generatedProfiles)
    {
      BatchStep(outcomes, n, count, generatedProfiles);
      if n >= |draws| {
        return Failure(RepliesExhausted);
      }
      var profile := NewUser(dict, draws[n]);
      assert profile == outcomes[n];
      if profile.Failure? {
        return Failure(profile.error);
      }
      generatedProfiles := generatedProfiles + [profile.value];
      n := n + 1;
    }
    return Success(generatedProfiles);
  }
}

/** The pre-call hook of the respondent agent (user_simulator/hooks.py):
    before each backend call it puts a persona directive, and sometimes a
    "friction" directive, in front of the request's input items. The two
    random draws of the source are parameters here (`FrictionDraw`). */
module Hooks {
  import opened Common
  import opened Context
  import Format

  /** The twelve low-frequency directives, one of which is picked when the
      first draw fires. Each is written as a list of short pieces whose
      concatenation is the directive (the entries of the list at
      user_simulator/hooks.py:73-84, in order). The split into pieces of
      about sixteen characters has no counterpart in the source: it exists
      only to keep verification fast, since short literals let the verifier
      check piece by piece that no directive contains a newline. */
  const Directive0Pieces: seq<string> := [
    "Keep this ", "response SHORT ", "(1-2 sentences ", "max)"
  ]

  const Directive1Pieces: seq<string> := [
    "This is a ", "complex topic ", "for you - give ", "a longer, more ", "thoughtful ",
    "response with ", "specific ", "examples"
  ]

  const Directive2Pieces: seq<string> := [
    "In this ", "response, ", "include a brief ", "false start or ", "self-correction ",
    "(e.g., 'Well, I ", "usually... ", "actually, let ", "me think about ", "that ",
    "differently...')"
  ]

  const Directive3Pieces: seq<string> := [
    "For this ", "response, ", "reference a ", "very specific ", "recent case ", "with messy ",
    "details (exact ", "dates, specific ", "numbers, real ", "frustrations)"
  ]

  const Directive4Pieces: seq<string> := [
    "In this answer, ", "show some ", "uncertainty or ", "admit a ", "knowledge gap ",
    "rather than ", "being overly ", "confident"
  ]

  const Directive5Pieces: seq<string> := [
    "Reference a ", "specific ", "practice ", "constraint or ", "workaround ", "you've had to ",
    "develop (EMR ", "quirks, ", "insurance ", "hassles, ", "scheduling ", "issues)"
  ]

  const Directive6Pieces: seq<string> := [
    "Mention a ", "specific time ", "period or event ", "that anchors ", "your experience ",
    "('last winter ", "when COVID ", "cases spiked,' ", "'after the Epic ", "upgrade,' ",
    "'during the ", "formulary ", "change')"
  ]

  const Directive7Pieces: seq<string> := [
    "Show mild ", "emotion about ", "something in ", "your practice - ", "frustration, ",
    "satisfaction, ", "surprise, or ", "concern"
  ]

  const Directive8Pieces: seq<string> := [
    "Include a ", "specific detail ", "that reveals ", "your practice's ", "unique context ",
    "(rural patient ", "travel times, ", "academic ", "teaching load, ", "specific payer ",
    "mix, etc.)"
  ]

  const Directive9Pieces: seq<string> := [
    "Reference a ", "colleague ", "interaction or ", "case discussion ", "that influenced ",
    "your thinking"
  ]

  const Directive10Pieces: seq<string> := [
    "Mention a ", "patient outcome ", "that surprised ", "you or changed ", "your approach ",
    "slightly"
  ]

  const Directive11Pieces: seq<string> := [
    "Use some ", "colloquial ", "language or ", "sentence ", "fragments that ", "match your age ",
    "and background"
  ]

  const CataloguePieces: seq<seq<string>> := [
    Directive0Pieces, Directive1Pieces, Directive2Pieces, Directive3Pieces,
    Directive4Pieces, Directive5Pieces, Directive6Pieces, Directive7Pieces,
    Directive8Pieces, Directive9Pieces, Directive10Pieces, Directive11Pieces
  ]

  type CatalogueIndex = i: nat | i < 12

  /** Entry `i` of `low_frequency_friction`. */
  function Directive(i: CatalogueIndex): string
  {
    Format.Concat(CataloguePieces[i])
  }

  /** The high-frequency directive, a literal of its own in the source
      (user_simulator/hooks.py:91), in short pieces like the catalogue's;
      `ShortDirectiveIsFirstEntry` shows it is the same text as the first
      catalogue entry. */
  const ShortDirectivePieces: seq<string> := [
    "Keep this ", "response SHORT ", "(1-2 sentences ", "max)"
  ]
  const ShortDirective := Format.Concat(ShortDirectivePieces)

  /** The outcome of the two random draws of one call: whether the 30% draw
      fired and which catalogue entry `random.choice` took, and whether the
      50% draw fired. */
  datatype FrictionDraw = FrictionDraw(lowFrequency: bool, pick: CatalogueIndex, short: bool)

  /** The list `injected_list` as built by the two draws, in order. */
  function FrictionLines(draw: FrictionDraw): seq<string>
  {
    (if draw.lowFrequency then [Directive(draw.pick)] else [])
    + (if draw.short then [ShortDirective] else [])
  }

  /** `generate_friction_instruction`: the directives joined by newlines, or
      nothing when neither draw fired. */
  function GenerateFrictionInstruction(draw: FrictionDraw): (r: Option<string>)
    ensures r.None? <==> !draw.lowFrequency && !draw.short
  {
    var lines := FrictionLines(draw);
    if lines == [] then None else Some(Format.JoinLines(lines))
  }

  // One lemma per directive, one assertion per piece, keeps each check small.
  lemma Directive0HasNoNewline()
    ensures Format.NoNewline(Format.Concat(Directive0Pieces))
  {
    assert Format.NoNewline(Directive0Pieces[0]);
    assert Format.NoNewline(Directive0Pieces[1]);
    assert Format.NoNewline(Directive0Pieces[2]);
    assert Format.NoNewline(Directive0Pieces[3]);
    Format.ConcatNoNewline(Directive0Pieces);
  }

  lemma Directive1HasNoNewline()
    ensures Format.NoNewline(Format.Concat(Directive1Pieces))
  {
    assert Format.NoNewline(Directive1Pieces[0]);
    assert Format.NoNewline(Directive1Pieces[1]);
    assert Format.NoNewline(Directive1Pieces[2]);
    assert Format.NoNewline(Directive1Pieces[3]);
    assert Format.NoNewline(Directive1Pieces[4]);
    assert Format.NoNewline(Directive1Pieces[5]);
    assert Format.NoNewline(Directive1Pieces[6]);
    assert Format.NoNewline(Directive1Pieces[7]);
    Format.ConcatNoNewline(Directive1Pieces);
  }

  lemma Directive2HasNoNewline()
    ensures Format.NoNewline(Format.Concat(Directive2Pieces))
  {
    assert Format.NoNewline(Directive2Pieces[0]);
    assert Format.NoNewline(Directive2Pieces[1]);
    assert Format.NoNewline(Directive2Pieces[2]);
    assert Format.NoNewline(Directive2Pieces[3]);
    assert Format.NoNewline(Directive2Pieces[4]);
    assert Format.NoNewline(Directive2Pieces[5]);
    assert Format.NoNewline(Directive2Pieces[6]);
    assert Format.NoNewline(Directive2Pieces[7]);
    assert Format.NoNewline(Directive2Pieces[8]);
    assert Format.NoNewline(Directive2Pieces[9]);
    assert Format.NoNewline(Directive2Pieces[10]);
    Format.ConcatNoNewline(Directive2Pieces);
  }

  lemma Directive3HasNoNewline()
    ensures Format.NoNewline(Format.Concat(Directive3Pieces))
  {
    assert Format.NoNewline(Directive3Pieces[0]);
    assert Format.NoNewline(Directive3Pieces[1]);
    assert Format.NoNewline(Directive3Pieces[2]);
    assert Format.NoNewline(Directive3Pieces[3]);
    assert Format.NoNewline(Directive3Pieces[4]);
    assert Format.NoNewline(Directive3Pieces[5]);
    assert Format.NoNewline(Directive3Pieces[6]);
    assert Format.NoNewline(Directive3Pieces[7]);
    assert Format.NoNewline(Directive3Pieces[8]);
    assert Format.NoNewline(Directive3Pieces[9]);
    Format.ConcatNoNewline(Directive3Pieces);
  }

  lemma Directive4HasNoNewline()
    ensures Format.NoNewline(Format.Concat(Directive4Pieces))
  {
    assert Format.NoNewline(Directive4Pieces[0]);
    assert Format.NoNewline(Directive4Pieces[1]);
    assert Format.NoNewline(Directive4Pieces[2]);
    assert Format.NoNewline(Directive4Pieces[3]);
    assert Format.NoNewline(Directive4Pieces[4]);
    assert Format.NoNewline(Directive4Pieces[5]);
    assert Format.NoNewline(Directive4Pieces[6]);
    assert Format.NoNewline(Directive4Pieces[7]);
    Format.ConcatNoNewline(Directive4Pieces);
  }

  lemma Directive5HasNoNewline()
    ensures Format.NoNewline(Format.Concat(Directive5Pieces))
  {
    assert Format.NoNewline(Directive5Pieces[0]);
    assert Format.NoNewline(Directive5Pieces[1]);
    assert Format.NoNewline(Directive5Pieces[2]);
    assert Format.NoNewline(Directive5Pieces[3]);
    assert Format.NoNewline(Directive5Pieces[4]);
    assert Format.NoNewline(Directive5Pieces[5]);
    assert Format.NoNewline(Directive5Pieces[6]);
    assert Format.NoNewline(Directive5Pieces[7]);
    assert Format.NoNewline(Directive5Pieces[8]);
    assert Format.NoNewline(Directive5Pieces[9]);
    assert Format.NoNewline(Directive5Pieces[10]);
    assert Format.NoNewline(Directive5Pieces[11]);
    Format.ConcatNoNewline(Directive5Pieces);
  }

  lemma Directive6HasNoNewline()
    ensures Format.NoNewline(Format.Concat(Directive6Pieces))
  {
    assert Format.NoNewline(Directive6Pieces[0]);
    assert Format.NoNewline(Directive6Pieces[1]);
    assert Format.NoNewline(Directive6Pieces[2]);
    assert Format.NoNewline(Directive6Pieces[3]);
    assert Format.NoNewline(Directive6Pieces[4]);
    assert Format.NoNewline(Directive6Pieces[5]);
    assert Format.NoNewline(Directive6Pieces[6]);
    assert Format.NoNewline(Directive6Pieces[7]);
    assert Format.NoNewline(Directive6Pieces[8]);
    assert Format.NoNewline(Directive6Pieces[9]);
    assert Format.NoNewline(Directive6Pieces[10]);
    assert Format.NoNewline(Directive6Pieces[11]);
    assert Format.NoNewline(Directive6Pieces[12]);
    Format.ConcatNoNewline(Directive6Pieces);
  }

  lemma Directive7HasNoNewline()
    ensures Format.NoNewline(Format.Concat(Directive7Pieces))
  {
    assert Format.NoNewline(Directive7Pieces[0]);
    assert Format.NoNewline(Directive7Pieces[1]);
    assert Format.NoNewline(Directive7Pieces[2]);
    assert Format.NoNewline(Directive7Pieces[3]);
    assert Format.NoNewline(Directive7Pieces[4]);
    assert Format.NoNewline(Directive7Pieces[5]);
    assert Format.NoNewline(Directive7Pieces[6]);
    assert Format.NoNewline(Directive7Pieces[7]);
    Format.ConcatNoNewline(Directive7Pieces);
  }

  lemma Directive8HasNoNewline()
    ensures Format.NoNewline(Format.Concat(Directive8Pieces))
  {
    assert Format.NoNewline(Directive8Pieces[0]);
    assert Format.NoNewline(Directive8Pieces[1]);
    assert Format.NoNewline(Directive8Pieces[2]);
    assert Format.NoNewline(Directive8Pieces[3]);
    assert Format.NoNewline(Directive8Pieces[4]);
    assert Format.NoNewline(Directive8Pieces[5]);
    assert Format.NoNewline(Directive8Pieces[6]);
    assert Format.NoNewline(Directive8Pieces[7]);
    assert Format.NoNewline(Directive8Pieces[8]);
    assert Format.NoNewline(Directive8Pieces[9]);
    assert Format.NoNewline(Directive8Pieces[10]);
    Format.ConcatNoNewline(Directive8Pieces);
  }

  lemma Directive9HasNoNewline()
    ensures Format.NoNewline(Format.Concat(Directive9Pieces))
  {
    assert Format.NoNewline(Directive9Pieces[0]);
    assert Format.NoNewline(Directive9Pieces[1]);
    assert Format.NoNewline(Directive9Pieces[2]);
    assert Format.NoNewline(Directive9Pieces[3]);
    assert Format.NoNewline(Directive9Pieces[4]);
    assert Format.NoNewline(Directive9Pieces[5]);
    Format.ConcatNoNewline(Directive9Pieces);
  }

  lemma Directive10HasNoNewline()
    ensures Format.NoNewline(Format.Concat(Directive10Pieces))
  {
    assert Format.NoNewline(Directive10Pieces[0]);
    assert Format.NoNewline(Directive10Pieces[1]);
    assert Format.NoNewline(Directive10Pieces[2]);
    assert Format.NoNewline(Directive10Pieces[3]);
    assert Format.NoNewline(Directive10Pieces[4]);
    assert Format.NoNewline(Directive10Pieces[5]);
    Format.ConcatNoNewline(Directive10Pieces);
  }

  lemma Directive11HasNoNewline()
    ensures Format.NoNewline(Format.Concat(Directive11Pieces))
  {
    assert Format.NoNewline(Directive11Pieces[0]);
    assert Format.NoNewline(Directive11Pieces[1]);
    assert Format.NoNewline(Directive11Pieces[2]);
    assert Format.NoNewline(Directive11Pieces[3]);
    assert Format.NoNewline(Directive11Pieces[4]);
    assert Format.NoNewline(Directive11Pieces[5]);
    assert Format.NoNewline(Directive11Pieces[6]);
    Format.ConcatNoNewline(Directive11Pieces);
  }


  /** No catalogue entry contains a newline. */
  lemma DirectiveHasNoNewline(i: CatalogueIndex)
    ensures Format.NoNewline(Directive(i))
  {
    match i
    case 0 => Directive0HasNoNewline();
    case 1 => Directive1HasNoNewline();
    case 2 => Directive2HasNoNewline();
    case 3 => Directive3HasNoNewline();
    case 4 => Directive4HasNoNewline();
    case 5 => Directive5HasNoNewline();
    case 6 => Directive6HasNoNewline();
    case 7 => Directive7HasNoNewline();
    case 8 => Directive8HasNoNewline();
    case 9 => Directive9HasNoNewline();
    case 10 => Directive10HasNoNewline();
    case 11 => Directive11HasNoNewline();
  }

  /** No catalogue entry is empty. */
  lemma DirectiveNotEmpty(i: CatalogueIndex)
    ensures Directive(i) != ""
  {
    assert CataloguePieces[i][0] != "";
    Format.ConcatStartsWithFirst(CataloguePieces[i]);
  }

  /** The high-frequency directive is the text of the first catalogue entry. */
  lemma ShortDirectiveIsFirstEntry()
    ensures ShortDirective == Directive(0)
    ensures Format.NoNewline(ShortDirective) && ShortDirective != ""
  {
    assert ShortDirectivePieces == Directive0Pieces;
    Directive0HasNoNewline();
    DirectiveNotEmpty(0);
  }

  /** Read back line by line, a friction instruction is the catalogue pick
      (first, if drawn) followed by the short directive (last, if drawn):
      one or two lines, never empty text. */
  lemma FrictionInstructionLines(draw: FrictionDraw)
    requires GenerateFrictionInstruction(draw).Some?
    ensures var text := GenerateFrictionInstruction(draw).value;
      var lines := Format.SplitLines(text);
      && text != ""
      && lines == FrictionLines(draw)
      && 1 <= |lines| <= 2
      && (|lines| == 2 <==> draw.lowFrequency && draw.short)
      && (draw.lowFrequency ==> lines[0] == Directive(draw.pick))
      && (draw.short ==> lines[|lines| - 1] == ShortDirective)
      && (!draw.lowFrequency ==> lines == [ShortDirective])
  {
    DirectiveHasNoNewline(draw.pick);
    DirectiveNotEmpty(draw.pick);
    ShortDirectiveIsFirstEntry();
    FrictionNotEmpty(draw);
    Format.SplitJoinLines(FrictionLines(draw));
  }

  /** `list.insert(i, x)` moves a negative position `i` up by the length and
      clamps positions outside the list to its ends. */
  function InsertPosition(i: int, n: nat): (k: nat)
    ensures k <= n
    ensures 0 <= i <= n ==> k == i
  {
    if i < 0 then (if i + n < 0 then 0 else i + n) else if i > n then n else i
  }

  /** The list `xs` after `xs.insert(i, x)`. */
  function ListInsert(xs: seq<Message>, i: int, x: Message): seq<Message>
  {
    var k := InsertPosition(i, |xs|);
    xs[..k] + [x] + xs[k..]
  }

  /** A Python list of request input items, changed in place. */
  class InputList {
    var items: seq<Message>

    constructor(items: seq<Message>)
      ensures this.items == items
    {
      this.items := items;
    }

    method Insert(i: int, x: Message)
      modifies this
      ensures items == ListInsert(old(items), i, x)
    {
      var k := if i < 0 then (if i + |items| < 0 then 0 else i + |items|)
               else if i > |items| then |items| else i;
      items := items[..k] + [x] + items[k..];
    }
  }

  /** `style_note`: the profile's communication style, "Professional" when absent. */
  function StyleNote(profile: Profile): string
  {
    "Communication style: "
    + (if "communication_style" in profile then profile["communication_style"] else "Professional")
  }

  const InstructionOpening := "Respond as a real clinician. "

  /** `base_instruction`: the persona directive that embeds `style_note`. */
  function BaseInstruction(styleNote: string): string
  {
    InstructionOpening + styleNote
    + "\n\nAvoid AI patterns:\n"
    + "- Don't start with \"That's a good question\"\n"
    + "- Don't perfectly mirror question structure  \n"
    + "- Include natural speech patterns and minor imperfections\n"
    + "- Reference your actual practice context when relevant\n"
  }

  /** `profile_elements`: one line per profile key that is present, in a fixed key order. */
  function ProfileElements(profile: Profile): (elements: seq<string>)
    ensures |elements| <= 3
    ensures forall j :: 0 <= j < |elements| ==> elements[j] != ""
  {
    (if "professional_background" in profile
     then ["Professional background: " + profile["professional_background"]] else [])
    + (if "practice_setting" in profile
       then ["Practice setting: " + profile["practice_setting"]] else [])
    + (if "communication_style" in profile
       then ["Communication style: " + profile["communication_style"]] else [])
  }

  /** `profile_context`; the source computes it and then never uses it. */
  function ProfileContext(profile: Profile): (r: string)
    ensures r != ""
  {
    var elements := ProfileElements(profile);
    if elements == [] then "Medical professional"
    else Format.JoinLines(elements)
  }

  /** `profile_context` has one line per key present, background first,
      practice setting next and communication style last, and is the
      fallback text exactly when none of the three keys is present. Read
      back line by line it gives those lines when no value holds a newline. */
  lemma ProfileContextLines(profile: Profile)
    ensures var elements := ProfileElements(profile);
      && |elements| == (if "professional_background" in profile then 1 else 0)
                       + (if "practice_setting" in profile then 1 else 0)
                       + (if "communication_style" in profile then 1 else 0)
      && (ProfileContext(profile) == "Medical professional" <==> elements == [])
      && (elements != [] && (forall k :: k in profile ==> Format.NoNewline(profile[k]))
          ==> Format.SplitLines(ProfileContext(profile)) == elements)
      && ("professional_background" in profile
          ==> elements[0] == "Professional background: " + profile["professional_background"])
      && ("practice_setting" in profile
          ==> elements[if "professional_background" in profile then 1 else 0]
              == "Practice setting: " + profile["practice_setting"])
      && ("communication_style" in profile
          ==> elements[|elements| - 1] == "Communication style: " + profile["communication_style"])
  {
    ProfileContextFallback(profile);
    if ProfileElements(profile) != [] && (forall k :: k in profile ==> Format.NoNewline(profile[k])) {
      ProfileContextReadsBack(profile);
    }
  }

  /** With no newline in the profile's values, the context splits back into its lines. */
  lemma ProfileContextReadsBack(profile: Profile)
    requires ProfileElements(profile) != []
    requires forall k :: k in profile ==> Format.NoNewline(profile[k])
    ensures Format.SplitLines(ProfileContext(profile)) == ProfileElements(profile)
  {
    var elements := ProfileElements(profile);
    forall j | 0 <= j < |elements| ensures Format.NoNewline(elements[j]) {
        if "professional_background" in profile {
          Format.NoNewlineAppend("Professional background: ", profile["professional_background"]);
        }
        if "practice_setting" in profile {
          Format.NoNewlineAppend("Practice setting: ", profile["practice_setting"]);
        }
        if "communication_style" in profile {
          Format.NoNewlineAppend("Communication style: ", profile["communication_style"]);
        }
      }
    Format.SplitJoinLines(elements);
  }

  /** The fallback text is the profile context exactly when no key is present:
      every line starts with 'P' or 'C', and the fallback with 'M'. */
  lemma ProfileContextFallback(profile: Profile)
    ensures ProfileContext(profile) == "Medical professional" <==> ProfileElements(profile) == []
  {
    var elements := ProfileElements(profile);
    if elements != [] {
      var context := ProfileContext(profile);
      assert context[0] == elements[0][0];
      assert elements[0][0] == 'P' || elements[0][0] == 'C';
    }
  }

  /** The input items after the hook: the persona directive inserted at 0,
      then, when friction text exists, that text inserted at 1. */
  function InjectedItems(profile: Profile, draw: FrictionDraw, items: seq<Message>): (r: seq<Message>)
    ensures |r| == |items| + (if draw.lowFrequency || draw.short then 2 else 1)
  {
    var withBase := ListInsert(items, 0, Message(System, BaseInstruction(StyleNote(profile))));
    var friction := GenerateFrictionInstruction(draw);
    if friction.Some? && friction.value != "" then ListInsert(withBase, 1, Message(System, friction.value))
    else withBase
  }

  /** `SystemInstructionsHook.on_llm_start`: changes the caller's list in place. */
  method OnLlmStart(context: StudyContext, inputItems: InputList, draw: FrictionDraw)
    modifies inputItems
    ensures inputItems.items == InjectedItems(context.userProfile, draw, old(inputItems.items))
  {
    var profile := context.userProfile;
    var profileContext := ProfileContext(profile);  // unused, as in the source
    var styleNote := StyleNote(profile);
    var baseInstruction := BaseInstruction(styleNote);
    inputItems.Insert(0, Message(System, baseInstruction));
    var friction := GenerateFrictionInstruction(draw);
    if friction.Some? && friction.value != "" {
      inputItems.Insert(1, Message(System, friction.value));
    }
  }

  /** `insert` puts `x` at the clamped position and shifts what was there
      and after it by one place. */
  lemma ListInsertShape(xs: seq<Message>, i: int, x: Message)
    ensures var k := InsertPosition(i, |xs|);
      var r := ListInsert(xs, i, x);
      && |r| == |xs| + 1
      && r[k] == x
      && r[..k] == xs[..k]
      && r[k + 1..] == xs[k..]
  {
    var k := InsertPosition(i, |xs|);
    var r := ListInsert(xs, i, x);
    assert r[..k] == xs[..k];
    assert r[k + 1..] == xs[k..];
  }

  /** After the hook, item 0 is the persona directive, item 1 the friction
      text exactly when a draw fired, and the original items follow, in
      their order, shifted by one or two places. */
  lemma InjectedItemsShape(profile: Profile, draw: FrictionDraw, items: seq<Message>)
    ensures var r := InjectedItems(profile, draw, items);
      var friction := GenerateFrictionInstruction(draw);
      var shift := if draw.lowFrequency || draw.short then 2 else 1;
      && |r| == |items| + shift
      && r[0] == Message(System, BaseInstruction(StyleNote(profile)))
      && (friction.Some? ==> r[1] == Message(System, friction.value))
      && r[shift..] == items
  {
    var base := Message(System, BaseInstruction(StyleNote(profile)));
    var withBase := ListInsert(items, 0, base);
    ListInsertShape(items, 0, base);
    var friction := GenerateFrictionInstruction(draw);
    if friction.Some? {
      FrictionNotEmpty(draw);
      var r := ListInsert(withBase, 1, Message(System, friction.value));
      ListInsertShape(withBase, 1, Message(System, friction.value));
      assert r[..1] == withBase[..1];
      assert r[0] == r[..1][0];
      assert r[2..] == withBase[1..];
    }
  }

  /** A friction instruction, when there is one, is never empty text. */
  lemma FrictionNotEmpty(draw: FrictionDraw)
    ensures GenerateFrictionInstruction(draw).Some? ==> GenerateFrictionInstruction(draw).value != ""
  {
    var lines := FrictionLines(draw);
    if lines != [] {
      DirectiveNotEmpty(draw.pick);
      ShortDirectiveIsFirstEntry();
    }
  }

  predicate IsInfix(part: string, whole: string)
  {
    exists i :: 0 <= i <= |whole| && part <= whole[i..]
  }

  /** The persona directive mentions the profile's communication style, or
      "Professional" when the profile has none. */
  lemma BaseInstructionNamesStyle(profile: Profile)
    ensures var style := if "communication_style" in profile then profile["communication_style"] else "Professional";
      IsInfix("Communication style: " + style, BaseInstruction(StyleNote(profile)))
  {
    var note := StyleNote(profile);
    var whole := BaseInstruction(note);
    var i := |InstructionOpening|;
    assert note <= whole[i..];
  }
}

/** The tool recommender (src/analyzer/recommender.rs): each complexity
    signal is a weighted factor in favour of CUE or of Nickel, the heavier
    side wins, a tie goes to CUE when constraints were seen, and the
    rationale lists the winning side's reasons. */
module Recommender {
  import opened Wrappers
  import opened Complexity

  datatype Tool = Cue | Nickel

  /** The sentences the recommendation is made of; `Text` gives each one's
      wording. */
  datatype Reason =
    | LogicFound | FunctionsFound | GenerationFound | RepetitionFound
    | ConstraintsFound | ValidationFound | DeepNesting | SimpleStructure
    | CueDefault | NickelDefault | NickelAlternative | CueAlternative

  function Text(r: Reason): string {
    match r
    case LogicFound => "Complex logic detected (conditionals, branching)"
    case FunctionsFound => "Function definitions detected"
    case GenerationFound => "Configuration generation patterns detected"
    case RepetitionFound => "Repetitive patterns could benefit from abstraction"
    case ConstraintsFound => "Constraint validation patterns detected"
    case ValidationFound => "Schema validation requirements detected"
    case DeepNesting => "Deep nesting works well with CUE unification"
    case SimpleStructure => "Simple configuration structure"
    case CueDefault => "CUE provides good validation defaults"
    case NickelDefault => "Nickel provides flexible configuration"
    case NickelAlternative => "Consider Nickel if you need more abstraction"
    case CueAlternative => "CUE provides stronger constraint validation"
  }

  const CombinedAdvice := "Use Nickel to generate configurations, then CUE to validate them"

  datatype Alternative = Alternative(tool: Tool, reason: Reason)

  datatype Recommendation = Recommendation(
    primary: Tool,
    rationale: seq<Reason>,
    alternatives: seq<Alternative>,
    combinedApproach: Option<string>)

  function Weight(b: bool, w: nat): nat {
    if b then w else 0
  }

  function Say(b: bool, r: Reason): seq<Reason> {
    if b then [r] else []
  }

  /** The simple-structure signal for CUE. */
  predicate Simple(c: Complexity) {
    !c.hasLogic && !c.hasFunctions && c.lineCount < 50
  }

  /** Nickel's score: logic 3, functions 3, generation 2, repetition 1. */
  function NickelScore(c: Complexity): nat {
    Weight(c.hasLogic, 3) + Weight(c.hasFunctions, 3) + Weight(c.hasGeneration, 2) + Weight(c.hasRepetition, 1)
  }

  /** The reasons for Nickel, in the order the signals are checked. */
  function NickelReasons(c: Complexity): seq<Reason> {
    Say(c.hasLogic, LogicFound) + Say(c.hasFunctions, FunctionsFound)
    + Say(c.hasGeneration, GenerationFound) + Say(c.hasRepetition, RepetitionFound)
  }

  /** CUE's score: constraints 3, validation 2, nesting deeper than three
      1, a simple structure 1. */
  function CueScore(c: Complexity): nat {
    Weight(c.hasConstraints, 3) + Weight(c.hasValidation, 2) + Weight(c.nestingDepth > 3, 1) + Weight(Simple(c), 1)
  }

  function CueReasons(c: Complexity): seq<Reason> {
    Say(c.hasConstraints, ConstraintsFound) + Say(c.hasValidation, ValidationFound)
    + Say(c.nestingDepth > 3, DeepNesting) + Say(Simple(c), SimpleStructure)
  }

  /** The recommendation the scores call for. */
  function Recommend(c: Complexity): Recommendation {
    var nickel := NickelScore(c);
    var cue := CueScore(c);
    var primary := if nickel > cue || (nickel == cue && !c.hasConstraints) then Nickel else Cue;
    var reasons := if primary == Nickel then NickelReasons(c) else CueReasons(c);
    var alternatives :=
      if primary == Cue && (c.hasRepetition || c.lineCount > 100) then [Alternative(Nickel, NickelAlternative)]
      else if primary == Nickel && c.hasConstraints then [Alternative(Cue, CueAlternative)]
      else [];
    Recommendation(
      primary,
      if reasons == [] then [if primary == Cue then CueDefault else NickelDefault] else reasons,
      alternatives,
      if nickel >= 2 && cue >= 2 then Some(CombinedAdvice) else None)
  }

  /** `recommend_tool`: two running scores and reason lists, then the
      choice, the default reason, the alternative and the combined
      advice. */
  method RecommendTool(c: Complexity) returns (rec: Recommendation)
    ensures rec == Recommend(c)
  {
    var nickelScore, nickelReasons := ScoreNickel(c);
    var cueScore, cueReasons := ScoreCue(c);
    rec := Decide(c, nickelScore, cueScore, nickelReasons, cueReasons);
  }

  /** The four Nickel signals, accumulated. */
  method ScoreNickel(c: Complexity) returns (score: nat, reasons: seq<Reason>)
    ensures score == NickelScore(c) && reasons == NickelReasons(c)
  {
    score, reasons := 0, [];
    if c.hasLogic {
      score, reasons := score + 3, reasons + [LogicFound];
    }
    if c.hasFunctions {
      score, reasons := score + 3, reasons + [FunctionsFound];
    }
    if c.hasGeneration {
      score, reasons := score + 2, reasons + [GenerationFound];
    }
    if c.hasRepetition {
      score, reasons := score + 1, reasons + [RepetitionFound];
    }
  }

  /** The four CUE signals, accumulated. */
  method ScoreCue(c: Complexity) returns (score: nat, reasons: seq<Reason>)
    ensures score == CueScore(c) && reasons == CueReasons(c)
  {
    score, reasons := 0, [];
    if c.hasConstraints {
      score, reasons := score + 3, reasons + [ConstraintsFound];
    }
    if c.hasValidation {
      score, reasons := score + 2, reasons + [ValidationFound];
    }
    if c.nestingDepth > 3 {
      score, reasons := score + 1, reasons + [DeepNesting];
    }
    if !c.hasLogic && !c.hasFunctions && c.lineCount < 50 {
      score, reasons := score + 1, reasons + [SimpleStructure];
    }
  }

  /** The second half of `recommend_tool`, once both sides are scored. */
  method Decide(c: Complexity, nickelScore: nat, cueScore: nat, nickelReasons: seq<Reason>, cueReasons: seq<Reason>)
    returns (rec: Recommendation)
    requires nickelScore == NickelScore(c) && nickelReasons == NickelReasons(c)
    requires cueScore == CueScore(c) && cueReasons == CueReasons(c)
    ensures rec == Recommend(c)
  {
    var primary, rationale;
    if nickelScore > cueScore {
      primary, rationale := Nickel, nickelReasons;
    } else if cueScore > nickelScore {
      primary, rationale := Cue, cueReasons;
    } else if c.hasConstraints {
      primary, rationale := Cue, cueReasons;
    } else {
      primary, rationale := Nickel, nickelReasons;
    }
    if rationale == [] {
      rationale := [match primary case Cue => CueDefault case Nickel => NickelDefault];
    }
    var alternatives := [];
    match primary {
      case Cue =>
        if c.hasRepetition || c.lineCount > 100 {
          alternatives := alternatives + [Alternative(Nickel, NickelAlternative)];
        }
      case Nickel =>
        if c.hasConstraints {
          alternatives := alternatives + [Alternative(Cue, CueAlternative)];
        }
    }
    var combined := if nickelScore >= 2 && cueScore >= 2 then Some(CombinedAdvice) else None;
    rec := Recommendation(primary, rationale, alternatives, combined);
  }

  // ---------------------------------------------------------------------
  // Properties of the recommendation

  /** Every signal weighs at least one, so a side scores nothing exactly
      when it has no reasons; the scores are at most nine and seven. */
  lemma ScoreZeroIffNoReasons(c: Complexity)
    ensures NickelScore(c) == 0 <==> NickelReasons(c) == []
    ensures CueScore(c) == 0 <==> CueReasons(c) == []
    ensures |NickelReasons(c)| <= NickelScore(c) <= 9
    ensures |CueReasons(c)| <= CueScore(c) <= 7
  {
  }

  /** The side with the higher score is recommended; on a tie, CUE exactly
      when constraints were seen. */
  lemma PrimaryFollowsScores(c: Complexity)
    ensures Recommend(c).primary == Nickel <==> NickelScore(c) > CueScore(c) || (NickelScore(c) == CueScore(c) && !c.hasConstraints)
    ensures NickelScore(c) > CueScore(c) ==> Recommend(c).primary == Nickel
    ensures CueScore(c) > NickelScore(c) ==> Recommend(c).primary == Cue
  {
  }

  /** The rationale is never empty: it is the winning side's reasons, in
      the order they were found, or the tool's default reason when that
      side scored nothing. */
  lemma RationaleNeverEmpty(c: Complexity)
    ensures var r := Recommend(c);
      var reasons := if r.primary == Nickel then NickelReasons(c) else CueReasons(c);
      var score := if r.primary == Nickel then NickelScore(c) else CueScore(c);
      && |r.rationale| >= 1
      && (score > 0 ==> r.rationale == reasons)
      && (score == 0 ==> r.rationale == [if r.primary == Cue then CueDefault else NickelDefault])
  {
    ScoreZeroIffNoReasons(c);
  }

  /** At most one alternative is offered, and it is the other tool. */
  lemma AlternativeIsTheOtherTool(c: Complexity)
    ensures |Recommend(c).alternatives| <= 1
    ensures forall a :: a in Recommend(c).alternatives ==> a.tool != Recommend(c).primary
  {
  }

  /** The combined approach is suggested exactly when both sides score at
      least two. */
  lemma CombinedWhenBothStrong(c: Complexity)
    ensures Recommend(c).combinedApproach.Some? <==> NickelScore(c) >= 2 && CueScore(c) >= 2
  {
  }

  /** Constraints without logic or functions always lead to CUE: Nickel can
      then score at most three, which CUE's constraint signal alone
      matches, and a tie goes to CUE. */
  lemma ConstraintsWithoutLogicPickCue(c: Complexity)
    requires c.hasConstraints && !c.hasLogic && !c.hasFunctions
    ensures Recommend(c).primary == Cue
  {
  }

  /** Logic and functions without constraints always lead to Nickel: it
      scores at least six, CUE at most three. */
  lemma LogicAndFunctionsPickNickel(c: Complexity)
    requires c.hasLogic && c.hasFunctions && !c.hasConstraints
    ensures Recommend(c).primary == Nickel
  {
  }

  /** The three cases the module's own tests pin down. */
  lemma DocumentedCases()
    ensures Recommend(Complexity(false, false, true, true, false, 50, 2, false)).primary == Cue
    ensures Recommend(Complexity(true, true, false, false, true, 100, 3, true)).primary == Nickel
    ensures Recommend(Complexity(true, true, true, true, false, 100, 3, false)).combinedApproach.Some?
  {
  }
}

/**
 * The logic of `CharacterGeneratorApp` and `StatRoller` (app.js) that is not
 * page plumbing: rolling character stats, normalising and padding the prompt
 * variations, choosing the API key for the selected model, and the
 * per-character driver that plans, generates every part and finalizes.
 */
module App {
  import opened Wrappers
  import opened Shapes
  import opened CharacterModel
  import opened CharacterGeneration
  import opened LlmUtils

  // ------------------------------------------------------------ stats

  /**
   * `StatRoller.rollStat`. `roll` is the first draw times 1000, `draw` the
   * second draw in [0, 1): 1% of rolls land in 70-100, 9% in 40-80, the rest
   * in 1-50.
   */
  function RollStat(roll: real, draw: real): (v: int)
    requires 0.0 <= draw < 1.0
    ensures roll <= 10.0 ==> 70 <= v <= 100
    ensures 10.0 < roll <= 100.0 ==> 40 <= v <= 80
    ensures 100.0 < roll ==> 1 <= v <= 50
    ensures 1 <= v <= 100
  {
    assert 0.0 <= draw * 31.0 < 31.0 && 0.0 <= draw * 41.0 < 41.0 && 0.0 <= draw * 50.0 < 50.0;
    if roll <= 10.0 then (draw * 31.0).Floor + 70
    else if roll <= 100.0 then (draw * 41.0).Floor + 40
    else (draw * 50.0).Floor + 1
  }

  /** Each tier's range is exact: every value in it comes out of some draw. */
  lemma RollStatReachesTier(roll: real, v: int)
    requires if roll <= 10.0 then 70 <= v <= 100 else if roll <= 100.0 then 40 <= v <= 80 else 1 <= v <= 50
    ensures exists draw: real :: 0.0 <= draw < 1.0 && RollStat(roll, draw) == v
  {
    if roll <= 10.0 {
      var draw := (v - 70) as real / 31.0;
      assert (draw * 31.0).Floor == v - 70;
      assert RollStat(roll, draw) == v;
    } else if roll <= 100.0 {
      var draw := (v - 40) as real / 41.0;
      assert (draw * 41.0).Floor == v - 40;
      assert RollStat(roll, draw) == v;
    } else {
      var draw := (v - 1) as real / 50.0;
      assert (draw * 50.0).Floor == v - 1;
      assert RollStat(roll, draw) == v;
    }
  }

  /** The two draws behind one stat. */
  datatype StatRoll = StatRoll(roll: real, draw: real)

  datatype CharacterStats = CharacterStats(
    strength: int, dexterity: int, constitution: int,
    intelligence: int, wisdom: int, charisma: int)

  function StatList(s: CharacterStats): seq<int> {
    [s.strength, s.dexterity, s.constitution, s.intelligence, s.wisdom, s.charisma]
  }

  predicate ValidRolls(rolls: seq<StatRoll>) {
    |rolls| == 6 && forall i :: 0 <= i < 6 ==> 0.0 <= rolls[i].draw < 1.0
  }

  /** `StatRoller.generateStats`: six independent rolls, in the order of the fields. */
  function GenerateCharacterStats(rolls: seq<StatRoll>): (s: CharacterStats)
    requires ValidRolls(rolls)
    ensures forall i :: 0 <= i < 6 ==> StatList(s)[i] == RollStat(rolls[i].roll, rolls[i].draw)
    ensures forall i :: 0 <= i < 6 ==> 1 <= StatList(s)[i] <= 100
  {
    CharacterStats(
      RollStat(rolls[0].roll, rolls[0].draw), RollStat(rolls[1].roll, rolls[1].draw),
      RollStat(rolls[2].roll, rolls[2].draw), RollStat(rolls[3].roll, rolls[3].draw),
      RollStat(rolls[4].roll, rolls[4].draw), RollStat(rolls[5].roll, rolls[5].draw))
  }

  // ------------------------------------------------------------ prompt variations

  /**
   * The parsed reply of the variations query: a bare array, or an object
   * whose `variations` is an array (`Some`) or anything else (`None`).
   */
  datatype VariationsReply = Bare(items: seq<string>) | Wrapped(variations: Option<seq<string>>)

  /** The array the reply is read as; the original prompt alone when neither form holds. */
  function ReplyVariations(reply: VariationsReply, originalPrompt: string): (vs: seq<string>)
    ensures reply.Bare? ==> vs == reply.items
    ensures reply.Wrapped? && reply.variations.Some? ==> vs == reply.variations.value
    ensures reply.Wrapped? && reply.variations.None? ==> vs == [originalPrompt]
  {
    match reply
    case Bare(items) => items
    case Wrapped(Some(items)) => items
    case Wrapped(None) => [originalPrompt]
  }

  function Max(a: int, b: int): int {
    if a < b then b else a
  }

  /**
   * `generatePromptVariations` after the query: the reply's array is padded
   * with the original prompt up to ten entries and never cut; a failed query
   * gives ten copies of the original prompt.
   */
  method GeneratePromptVariations(originalPrompt: string, reply: Result<VariationsReply>)
    returns (variations: seq<string>)
    ensures reply.Failure? ==> variations == seq(10, _ => originalPrompt)
    ensures reply.Success? ==>
      var base := ReplyVariations(reply.value, originalPrompt);
      && |variations| == Max(10, |base|)
      && variations[..|base|] == base
      && forall i :: |base| <= i < |variations| ==> variations[i] == originalPrompt
  {
    if reply.Failure? {
      return seq(10, _ => originalPrompt);
    }
    variations := ReplyVariations(reply.value, originalPrompt);
    ghost var base := variations;
    if |variations| < 10 {
      while |variations| < 10
        invariant |base| <= |variations| <= 10
        invariant variations[..|base|] == base
        invariant forall i :: |base| <= i < |variations| ==> variations[i] == originalPrompt
        decreases 10 - |variations|
      {
        variations := variations + [originalPrompt];
      }
    }
  }

  // ------------------------------------------------------------ credentials

  /** The key the app hands to the generator: the Groq key for a `llama` model, else the OpenAI key. */
  function SelectCredential(selectedModel: string, openAiKey: string, groqKey: string): (key: string)
    ensures StartsWith(selectedModel, "llama") ==> key == groqKey
    ensures !StartsWith(selectedModel, "llama") ==> key == openAiKey
  {
    if StartsWith(selectedModel, "llama") then groqKey else openAiKey
  }

  /**
   * The app's choice of key agrees with the query's choice of endpoint: with
   * no stored Groq key, a Groq request carries the Groq key and an OpenAI
   * request the OpenAI key.
   */
  lemma CredentialMatchesEndpoint(selectedModel: string, openAiKey: string, groqKey: string, mergedModel: string)
    ensures var route := RouteFor(selectedModel, SelectCredential(selectedModel, openAiKey, groqKey), None, mergedModel);
      && (route.url == GroqUrl ==> route.apiKey == groqKey)
      && (route.url == OpenAiUrl ==> route.apiKey == openAiKey)
  {
  }

  // ------------------------------------------------------------ the driver

  /** Once a part has failed, the accumulated result stays that failure. */
  lemma {:induction false} PartShapesFailureSticks(parts: seq<Part>, replies: nat -> Result<seq<Shape>>,
                                                   enableCircles: bool, n: nat, m: nat)
    requires n <= m <= |parts| && PartShapes(parts, replies, enableCircles, n).Failure?
    ensures PartShapes(parts, replies, enableCircles, m) == PartShapes(parts, replies, enableCircles, n)
    decreases m
  {
    if m > n {
      PartShapesFailureSticks(parts, replies, enableCircles, n, m - 1);
    }
  }

  /**
   * What `generateSingleCharacter` makes of its replies: the final shape
   * list, or the error it rethrows. A plan without `parts` fails reading
   * `length`; an empty plan fails reading `name` of the missing first part
   * before any part is requested.
   */
  function DriverOutcome(planReply: Result<PlanReply>, partReplies: nat -> Result<seq<Shape>>,
                         finalReply: Result<Diff>, enableCircles: bool): (r: Result<seq<Shape>>)
    ensures planReply.Failure? ==> r == Failure(planReply.error)
    ensures planReply.Success? && planReply.value.parts.None? ==> r.Failure? && r.error.TypeError?
    ensures r.Success? ==>
      && planReply.Success? && planReply.value.parts.Some? && |planReply.value.parts.value| > 0
      && (forall i :: 0 <= i < |planReply.value.parts.value| ==> partReplies(i).Success?)
      && finalReply.Success?
  {
    match planReply
    case Failure(e) => Failure(e)
    case Success(plan) =>
      match plan.parts
      case None => Failure(TypeError("Cannot read properties of undefined (reading 'length')"))
      case Some(parts) =>
        match PartsOutcome(parts, partReplies, enableCircles)
          case Failure(e) => Failure(e)
          case Success(shapes) =>
            match finalReply
            case Failure(e) => Failure(e)
            case Success(diff) => Success(ApplyDiff(shapes, diff, enableCircles))
  }

  /**
   * What the part loop makes of the replies: every part's shapes in plan
   * order, the first failed reply, or, for an empty plan, the error of
   * reading `name` of the missing first part.
   */
  function PartsOutcome(parts: seq<Part>, partReplies: nat -> Result<seq<Shape>>, enableCircles: bool): (r: Result<seq<Shape>>)
    ensures |parts| == 0 ==> r.Failure? && r.error.TypeError?
    ensures |parts| > 0 ==> (r.Success? <==> forall i :: 0 <= i < |parts| ==> partReplies(i).Success?)
  {
    if |parts| == 0 then Failure(TypeError("Cannot read properties of undefined (reading 'name')"))
    else PartShapes(parts, partReplies, enableCircles, |parts|)
  }

  /** The character the first part creates, before the finalizer touches it. */
  function CreatedState(freshId: string, shapes: seq<Shape>, gridSize: int, prompt: string): CharacterState {
    CharacterState(freshId, shapes, "", gridSize, prompt, "", None, [], 0, None, None)
  }

  /**
   * The generator after `done` parts of a fresh plan: the cursor is at
   * `done`, the character exists once a part has been made and then holds
   * exactly the parts' shapes so far.
   */
  predicate PartsMade(gen: CharacterGenerator, parts: seq<Part>, partReplies: nat -> Result<seq<Shape>>,
                      freshId: string, enableCircles: bool, gridSize: int, prompt: string, done: nat)
    reads gen, gen.currentCharacter
  {
    && done <= |parts|
    && gen.currentParts == Some(parts) && gen.currentPartIndex == done
    && gen.enableCircles == enableCircles && gen.gridSize == gridSize
    && PartShapes(parts, partReplies, enableCircles, done) == Success(gen.CharacterShapes())
    && (done == 0 <==> gen.currentCharacter == null)
    && (gen.currentCharacter != null ==>
          gen.currentCharacter.State() == CreatedState(freshId, gen.currentCharacter.shapes, gridSize, prompt))
  }

  /** One turn of the part loop: `generateNextPart` for part `done`. */
  method NextPart(gen: CharacterGenerator, prompt: string, parts: seq<Part>, partReplies: nat -> Result<seq<Shape>>,
                  freshId: string, ghost enableCircles: bool, ghost gridSize: int, done: nat)
    returns (result: Result<PartResult>)
    requires done < |parts| && PartsMade(gen, parts, partReplies, freshId, enableCircles, gridSize, prompt, done)
    modifies gen, gen.currentCharacter
    ensures gen.enableCircles == enableCircles && gen.gridSize == gridSize
    ensures result.Failure? ==>
      PartShapes(parts, partReplies, enableCircles, done + 1) == Failure(result.error)
    ensures result.Success? ==>
      && PartsMade(gen, parts, partReplies, freshId, enableCircles, gridSize, prompt, done + 1)
      && (result.value.isComplete <==> done + 1 == |parts|)
      && (gen.currentCharacter == old(gen.currentCharacter) || fresh(gen.currentCharacter))
  {
    result := gen.GenerateNextPart(prompt, partReplies(done), freshId);
  }

  /**
   * The part loop of `generateSingleCharacter`, from a freshly planned
   * generator: `generateNextPart` until a result says complete, reply `i`
   * answering part `i`. An empty plan fails on the missing first part; a
   * failed part ends the loop with its error.
   */
  method GenerateParts(gen: CharacterGenerator, prompt: string, parts: seq<Part>,
                       partReplies: nat -> Result<seq<Shape>>, freshId: string)
    returns (r: Result<()>)
    requires gen.currentCharacter == null && gen.currentParts == Some(parts) && gen.currentPartIndex == 0
    modifies gen
    ensures gen.enableCircles == old(gen.enableCircles) && gen.gridSize == old(gen.gridSize)
    ensures r.Success? <==> PartsOutcome(parts, partReplies, old(gen.enableCircles)).Success?
    ensures r.Failure? ==> r.error == PartsOutcome(parts, partReplies, old(gen.enableCircles)).error
    ensures r.Success? ==>
      && gen.currentCharacter != null && fresh(gen.currentCharacter)
      && gen.currentCharacter.State() ==
           CreatedState(freshId, PartsOutcome(parts, partReplies, old(gen.enableCircles)).value, old(gen.gridSize), prompt)
  {
    ghost var ec := gen.enableCircles;
    ghost var gridSize := gen.gridSize;
    var isComplete := false;
    var currentPartIndex := 0;
    while !isComplete
      invariant PartsMade(gen, parts, partReplies, freshId, ec, gridSize, prompt, currentPartIndex)
      invariant currentPartIndex > 0 ==> (isComplete <==> currentPartIndex == |parts|)
      invariant currentPartIndex == 0 ==> !isComplete
      invariant gen.currentCharacter == null || fresh(gen.currentCharacter)
      decreases |parts| - currentPartIndex, !isComplete
    {
      if currentPartIndex >= |parts| {
        return Failure(TypeError("Cannot read properties of undefined (reading 'name')"));
      }
      var result := NextPart(gen, prompt, parts, partReplies, freshId, ec, gridSize, currentPartIndex);
      if result.Failure? {
        PartShapesFailureSticks(parts, partReplies, ec, currentPartIndex + 1, |parts|);
        return Failure(result.error);
      }
      isComplete := result.value.isComplete;
      currentPartIndex := currentPartIndex + 1;
    }
    r := Success(());
  }

  /**
   * `generateSingleCharacter` on a fresh generator: plan, run the part loop,
   * then `finalizeCharacter` once; any error is rethrown. `freshId` is the
   * UUID of the character the first part creates.
   */
  method GenerateSingleCharacter(gen: CharacterGenerator, prompt: string, planReply: Result<PlanReply>,
                                 partReplies: nat -> Result<seq<Shape>>, finalReply: Result<Diff>, freshId: string)
    returns (r: Result<Character>)
    requires gen.currentCharacter == null
    modifies gen
    ensures r.Success? <==> DriverOutcome(planReply, partReplies, finalReply, old(gen.enableCircles)).Success?
    ensures r.Failure? ==> r.error == DriverOutcome(planReply, partReplies, finalReply, old(gen.enableCircles)).error
    ensures r.Success? ==>
      && fresh(r.value) && gen.currentCharacter == r.value
      && r.value.State() == CreatedState(freshId,
           DriverOutcome(planReply, partReplies, finalReply, old(gen.enableCircles)).value, old(gen.gridSize), prompt)
  {
    var planned := gen.PlanCharacterParts(planReply);
    if planned.Failure? {
      return Failure(planned.error);
    }
    if planned.value.parts.None? {
      return Failure(TypeError("Cannot read properties of undefined (reading 'length')"));
    }
    var generated := GenerateParts(gen, prompt, planned.value.parts.value, partReplies, freshId);
    if generated.Failure? {
      return Failure(generated.error);
    }
    var finalized := gen.FinalizeCharacter(finalReply);
    if finalized.Failure? {
      return Failure(finalized.error);
    }
    r := Success(gen.currentCharacter);
  }

  /** With circles off, the finished character is all rectangles. */
  lemma {:induction false} DriverKeepsRectangles(planReply: Result<PlanReply>, partReplies: nat -> Result<seq<Shape>>,
                                                 finalReply: Result<Diff>)
    requires DriverOutcome(planReply, partReplies, finalReply, false).Success?
    ensures AllRectangles(DriverOutcome(planReply, partReplies, finalReply, false).value)
  {
    var parts := planReply.value.parts.value;
    PartShapesRectangles(parts, partReplies, |parts|);
    ApplyDiffKeepsRectangles(PartShapes(parts, partReplies, false, |parts|).value, finalReply.value);
  }

  lemma {:induction false} PartShapesRectangles(parts: seq<Part>, replies: nat -> Result<seq<Shape>>, n: nat)
    requires n <= |parts| && PartShapes(parts, replies, false, n).Success?
    ensures AllRectangles(PartShapes(parts, replies, false, n).value)
    decreases n
  {
    if n > 0 {
      PartShapesRectangles(parts, replies, n - 1);
    }
  }

  /** A plan with no parts never reaches the model for a part and fails. */
  lemma EmptyPlanFails(plan: PlanReply, partReplies: nat -> Result<seq<Shape>>, finalReply: Result<Diff>, ec: bool)
    requires plan.parts == Some([])
    ensures DriverOutcome(Success(plan), partReplies, finalReply, ec).Failure?
    ensures DriverOutcome(Success(plan), partReplies, finalReply, ec).error.TypeError?
  {
  }
}

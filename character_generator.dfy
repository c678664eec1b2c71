/**
 * The part-generation state machine (character-generator.js): a cursor over a
 * planned list of parts, one LLM call per part whose shapes are namespaced,
 * type-forced and appended, and a finalizing add/modify/remove diff. Each LLM
 * reply is a parameter: `Success` with the parsed payload, or the error the
 * gateway threw.
 */
module CharacterGeneration {
  import opened Wrappers
  import opened Shapes
  import opened CharacterModel

  /** One planned part. */
  datatype Part = Part(
    id: string,
    name: string,
    description: string,
    designGuidance: string,
    suggestedColors: seq<string>,
    zIndexMin: real,
    zIndexMax: real)

  /** The planner's reply; a field that is `None` was missing from it. */
  datatype PlanReply = PlanReply(
    parts: Option<seq<Part>>,
    designNotes: Option<string>,
    colorStrategy: Option<string>,
    styleGuide: Option<string>)

  /** The finalizer's reply (`updates` is its `modify` list); a missing list is the empty list. */
  datatype Diff = Diff(add: seq<Shape>, updates: seq<Shape>, remove: seq<string>)

  /** What `generateNextPart` returns (token usage aside). */
  datatype PartResult = PartResult(part: Part, shapes: seq<Shape>, isComplete: bool)

  // ------------------------------------------------------- part namespacing

  function NamespacedId(partId: string, shapeId: string): string {
    partId + "_" + shapeId
  }

  /**
   * The shapes of one part as they are appended: id prefixed with the part id,
   * `type` forced to rectangle when circles are disabled, every other field copied.
   */
  function NamespaceShapes(partId: string, shapes: seq<Shape>, enableCircles: bool): (r: seq<Shape>)
    ensures |r| == |shapes|
    ensures forall i :: 0 <= i < |r| ==>
      r[i].id == NamespacedId(partId, shapes[i].id) &&
      r[i].kind == (if enableCircles then shapes[i].kind else Rectangle) &&
      r[i] == shapes[i].(id := r[i].id, kind := r[i].kind)
  {
    seq(|shapes|, i requires 0 <= i < |shapes| =>
      ForceKind(shapes[i].(id := NamespacedId(partId, shapes[i].id)), enableCircles))
  }

  predicate DistinctIds(shapes: seq<Shape>) {
    forall i, j :: 0 <= i < j < |shapes| ==> shapes[i].id != shapes[j].id
  }

  lemma PrefixCancel(p: string, a: string, b: string)
    requires p + a == p + b
    ensures a == b
  {
    assert a == (p + a)[|p|..];
    assert b == (p + b)[|p|..];
  }

  /** Within one part, distinct shape ids stay distinct after namespacing. */
  lemma NamespacePreservesDistinctIds(partId: string, shapes: seq<Shape>, enableCircles: bool)
    requires DistinctIds(shapes)
    ensures DistinctIds(NamespaceShapes(partId, shapes, enableCircles))
  {
    var r := NamespaceShapes(partId, shapes, enableCircles);
    forall i, j | 0 <= i < j < |r| ensures r[i].id != r[j].id {
      if r[i].id == r[j].id {
        PrefixCancel(partId + "_", shapes[i].id, shapes[j].id);
      }
    }
  }

  /**
   * Across parts, namespaced ids cannot collide when the part ids differ and
   * contain no underscore: the first underscore recovers the part id.
   */
  lemma NamespacedIdsOfDistinctPartsDiffer(p1: string, p2: string, s1: string, s2: string)
    requires p1 != p2
    requires forall j :: 0 <= j < |p1| ==> p1[j] != '_'
    requires forall j :: 0 <= j < |p2| ==> p2[j] != '_'
    ensures NamespacedId(p1, s1) != NamespacedId(p2, s2)
  {
    var a, b := NamespacedId(p1, s1), NamespacedId(p2, s2);
    if |p1| < |p2| {
      assert a[|p1|] != b[|p1|];
    } else if |p2| < |p1| {
      assert a[|p2|] != b[|p2|];
    } else {
      var j :| 0 <= j < |p1| && p1[j] != p2[j];
      assert a[j] != b[j];
    }
  }

  /** When part ids may contain underscores, two parts can produce the same id. */
  lemma NamespacedIdsCanCollide()
    ensures NamespacedId("a_b", "c") == NamespacedId("a", "b_c")
  {
  }

  // ------------------------------------------------------- finalizer diff

  /** `filter(shape => !remove.includes(shape.id))`. */
  function RemoveIds(shapes: seq<Shape>, remove: seq<string>): (r: seq<Shape>)
    ensures |r| <= |shapes|
    ensures forall i :: 0 <= i < |r| ==> r[i].id !in remove && r[i] in shapes
    ensures forall s :: s in shapes && s.id !in remove ==> s in r
  {
    if |shapes| == 0 then []
    else if shapes[0].id in remove then RemoveIds(shapes[1..], remove)
    else [shapes[0]] + RemoveIds(shapes[1..], remove)
  }

  /** Filtering a single shape keeps it exactly when its id is not listed. */
  lemma RemoveIdsSingle(s: Shape, remove: seq<string>)
    ensures RemoveIds([s], remove) == if s.id in remove then [] else [s]
  {
    assert [s][1..] == [];
  }

  /**
   * Filtering distributes over concatenation: together with the one-shape
   * case this pins RemoveIds down as an order-preserving filter.
   */
  lemma {:induction false} RemoveIdsAppend(a: seq<Shape>, b: seq<Shape>, remove: seq<string>)
    ensures RemoveIds(a + b, remove) == RemoveIds(a, remove) + RemoveIds(b, remove)
    decreases |a|
  {
    if |a| == 0 {
      assert a + b == b;
    } else {
      assert (a + b)[0] == a[0];
      assert (a + b)[1..] == a[1..] + b;
      RemoveIdsAppend(a[1..], b, remove);
    }
  }

  lemma RemoveNoIds(shapes: seq<Shape>)
    ensures RemoveIds(shapes, []) == shapes
  {
  }

  /** One modify entry: the first shape with the entry's id is replaced wholesale; an unknown id is ignored. */
  function ModifyOne(shapes: seq<Shape>, m: Shape, enableCircles: bool): (r: seq<Shape>)
    ensures |r| == |shapes| && Ids(r) == Ids(shapes)
    ensures IndexOfId(shapes, m.id) == -1 ==> r == shapes
    ensures IndexOfId(shapes, m.id) != -1 ==>
      r == shapes[IndexOfId(shapes, m.id) := ForceKind(m, enableCircles)]
  {
    var index := IndexOfId(shapes, m.id);
    if index == -1 then shapes else shapes[index := ForceKind(m, enableCircles)]
  }

  /** The modify entries applied one after the other, in list order. */
  function ModifyAll(shapes: seq<Shape>, updates: seq<Shape>, enableCircles: bool): (r: seq<Shape>)
    ensures |r| == |shapes| && Ids(r) == Ids(shapes)
  {
    if |updates| == 0 then shapes
    else ModifyOne(ModifyAll(shapes, updates[..|updates| - 1], enableCircles), updates[|updates| - 1], enableCircles)
  }

  /** The finalizer's diff in its fixed order: remove, then modify, then add. */
  function ApplyDiff(shapes: seq<Shape>, diff: Diff, enableCircles: bool): (r: seq<Shape>)
    ensures |r| == |RemoveIds(shapes, diff.remove)| + |diff.add|
    ensures Ids(r[..|RemoveIds(shapes, diff.remove)|]) == Ids(RemoveIds(shapes, diff.remove))
    ensures r[|RemoveIds(shapes, diff.remove)|..] == ForceKinds(diff.add, enableCircles)
  {
    ModifyAll(RemoveIds(shapes, diff.remove), diff.updates, enableCircles) + ForceKinds(diff.add, enableCircles)
  }

  /** Length: the survivors of removal plus the added shapes. */
  lemma ApplyDiffLength(shapes: seq<Shape>, diff: Diff, enableCircles: bool)
    ensures |ApplyDiff(shapes, diff, enableCircles)| == |RemoveIds(shapes, diff.remove)| + |diff.add|
  {
  }

  /**
   * Every added shape ends up at the end of the list, so an id that is both
   * removed and added is present afterwards.
   */
  lemma AddedShapesArePresent(shapes: seq<Shape>, diff: Diff, enableCircles: bool)
    ensures forall a :: a in diff.add ==> ForceKind(a, enableCircles) in ApplyDiff(shapes, diff, enableCircles)
    ensures forall a :: a in diff.add && a.id in diff.remove ==>
      exists s :: s in ApplyDiff(shapes, diff, enableCircles) && s.id == a.id
  {
    var r := ApplyDiff(shapes, diff, enableCircles);
    var kept := ModifyAll(RemoveIds(shapes, diff.remove), diff.updates, enableCircles);
    forall a | a in diff.add ensures ForceKind(a, enableCircles) in r {
      var i :| 0 <= i < |diff.add| && diff.add[i] == a;
      assert r[|kept| + i] == ForceKind(a, enableCircles);
    }
    forall a | a in diff.add && a.id in diff.remove
      ensures exists s :: s in r && s.id == a.id
    {
      assert ForceKind(a, enableCircles) in r;
    }
  }

  /** Modify never brings back a removed id: a removed id that is not added is absent. */
  lemma RemovedIdsStayRemoved(shapes: seq<Shape>, diff: Diff, enableCircles: bool, id: string)
    requires id in diff.remove
    requires forall a :: a in diff.add ==> a.id != id
    ensures forall s :: s in ApplyDiff(shapes, diff, enableCircles) ==> s.id != id
  {
    var removed := RemoveIds(shapes, diff.remove);
    var r := ApplyDiff(shapes, diff, enableCircles);
    forall s | s in r ensures s.id != id {
      var i :| 0 <= i < |r| && r[i] == s;
      if i < |removed| {
        assert Ids(r[..|removed|])[i] == Ids(removed)[i];
        assert removed[i].id !in diff.remove;
      } else {
        assert r[|removed|..][i - |removed|] == ForceKind(diff.add[i - |removed|], enableCircles);
      }
    }
  }

  /** A diff whose shapes are forced to rectangles keeps an all-rectangle drawing all-rectangle. */
  lemma {:induction false} ApplyDiffKeepsRectangles(shapes: seq<Shape>, diff: Diff)
    requires AllRectangles(shapes)
    ensures AllRectangles(ApplyDiff(shapes, diff, false))
  {
    var removed := RemoveIds(shapes, diff.remove);
    assert AllRectangles(removed);
    ModifyAllKeepsRectangles(removed, diff.updates);
  }

  lemma {:induction false} ModifyAllKeepsRectangles(shapes: seq<Shape>, updates: seq<Shape>)
    requires AllRectangles(shapes)
    ensures AllRectangles(ModifyAll(shapes, updates, false))
  {
    if |updates| > 0 {
      ModifyAllKeepsRectangles(shapes, updates[..|updates| - 1]);
    }
  }

  /** All parts' shapes, appended in plan order, or the first failing reply. */
  function PartShapes(parts: seq<Part>, replies: nat -> Result<seq<Shape>>, enableCircles: bool, n: nat): (r: Result<seq<Shape>>)
    requires n <= |parts|
    ensures r.Success? <==> forall i :: 0 <= i < n ==> replies(i).Success?
    ensures r.Failure? ==> exists i :: 0 <= i < n && replies(i) == Failure(r.error)
  {
    if n == 0 then Success([])
    else
      match PartShapes(parts, replies, enableCircles, n - 1)
      case Failure(e) => Failure(e)
      case Success(acc) =>
        match replies(n - 1)
        case Failure(e) => Failure(e)
        case Success(shapes) => Success(acc + NamespaceShapes(parts[n - 1].id, shapes, enableCircles))
  }

  /** A failed outcome carries the error of the FIRST failed reply: every earlier reply succeeded. */
  lemma {:induction false} PartShapesFirstFailure(parts: seq<Part>, replies: nat -> Result<seq<Shape>>, enableCircles: bool, n: nat)
    requires n <= |parts| && PartShapes(parts, replies, enableCircles, n).Failure?
    ensures var e := PartShapes(parts, replies, enableCircles, n).error;
      exists i :: 0 <= i < n && replies(i) == Failure(e) && forall j :: 0 <= j < i ==> replies(j).Success?
  {
    var e := PartShapes(parts, replies, enableCircles, n).error;
    if PartShapes(parts, replies, enableCircles, n - 1).Failure? {
      PartShapesFirstFailure(parts, replies, enableCircles, n - 1);
    } else {
      assert replies(n - 1) == Failure(e);
    }
  }

  // ------------------------------------------------------- the generator

  class CharacterGenerator {
    var currentCharacter: Character?
    var currentParts: Option<seq<Part>>
    var currentPartIndex: nat
    var gridSize: int
    var enableCircles: bool
    var designNotes: Option<string>
    var colorStrategy: Option<string>
    var styleGuide: Option<string>

    /** The shapes accumulated so far (none before the first part). */
    function CharacterShapes(): seq<Shape>
      reads this, currentCharacter
    {
      if currentCharacter == null then [] else currentCharacter.shapes
    }

    /** The guard of `generateNextPart`: parts are known and the cursor is before their end. */
    predicate HasNextPart()
      reads this
    {
      currentParts.Some? && currentPartIndex < |currentParts.value|
    }

    constructor ()
      ensures currentCharacter == null && currentParts == Some([]) && currentPartIndex == 0
      ensures gridSize == 128 && enableCircles
      ensures designNotes == None && colorStrategy == None && styleGuide == None
    {
      currentCharacter := null;
      currentParts := Some([]);
      currentPartIndex := 0;
      gridSize := 128;
      enableCircles := true;
      designNotes, colorStrategy, styleGuide := None, None, None;
    }

    /**
     * `planCharacterParts`: a failed planning call rethrows and changes nothing;
     * otherwise the parts and notes are stored and the cursor restarts at 0.
     * The current character is not cleared.
     */
    method PlanCharacterParts(reply: Result<PlanReply>) returns (r: Result<PlanReply>)
      modifies this
      ensures r == reply
      ensures reply.Failure? ==> unchanged(this)
      ensures reply.Success? ==>
        && currentParts == reply.value.parts
        && currentPartIndex == 0
        && designNotes == reply.value.designNotes
        && colorStrategy == reply.value.colorStrategy
        && styleGuide == reply.value.styleGuide
        && currentCharacter == old(currentCharacter)
        && gridSize == old(gridSize) && enableCircles == old(enableCircles)
    {
      if reply.Failure? {
        return reply;
      }
      var plan := reply.value;
      currentParts := plan.parts;
      currentPartIndex := 0;
      designNotes := plan.designNotes;
      colorStrategy := plan.colorStrategy;
      styleGuide := plan.styleGuide;
      r := reply;
    }

    /**
     * `generateNextPart`: past the end of the plan it throws "No more parts to
     * generate", and a failed LLM call rethrows; neither changes any state.
     * Otherwise the reply's shapes are namespaced and type-forced, the first
     * call creates the character from them (`freshId` is its UUID) and later
     * calls append them, and the cursor advances by one.
     */
    method GenerateNextPart(prompt: string, reply: Result<seq<Shape>>, freshId: string)
      returns (r: Result<PartResult>)
      modifies this, currentCharacter
      ensures gridSize == old(gridSize) && enableCircles == old(enableCircles)
      ensures currentParts == old(currentParts)
      ensures designNotes == old(designNotes) && colorStrategy == old(colorStrategy) && styleGuide == old(styleGuide)
      ensures !old(HasNextPart()) ==> r == Failure(NoMoreParts)
      ensures old(HasNextPart()) && reply.Failure? ==> r == Failure(reply.error)
      ensures r.Failure? ==>
        && currentCharacter == old(currentCharacter)
        && currentPartIndex == old(currentPartIndex)
        && (currentCharacter != null ==> currentCharacter.State() == old(currentCharacter.State()))
      ensures old(HasNextPart()) && reply.Success? ==>
        var part := old(currentParts.value[currentPartIndex]);
        var added := NamespaceShapes(part.id, reply.value, enableCircles);
        && r == Success(PartResult(part, added, currentPartIndex >= |currentParts.value|))
        && currentPartIndex == old(currentPartIndex) + 1
        && currentCharacter != null
        && CharacterShapes() == old(CharacterShapes()) + added
        && (old(currentCharacter) == null ==>
              fresh(currentCharacter) &&
              currentCharacter.State() == CharacterState(freshId, added, "", gridSize, prompt, "",
                                                         None, [], 0, None, None))
        && (old(currentCharacter) != null ==>
              currentCharacter == old(currentCharacter) &&
              currentCharacter.State() == old(currentCharacter.State()).(shapes := currentCharacter.shapes))
    {
      if currentParts.None? || currentPartIndex >= |currentParts.value| {
        return Failure(NoMoreParts);
      }
      var part := currentParts.value[currentPartIndex];
      var previousShapes := if currentCharacter != null then currentCharacter.shapes else [];
      if reply.Failure? {
        return Failure(reply.error);
      }
      var newShapes := NamespaceShapes(part.id, reply.value, enableCircles);
      if currentCharacter == null {
        currentCharacter := new Character(freshId, newShapes, "", gridSize, prompt, "");
      } else {
        currentCharacter.shapes := previousShapes + newShapes;
      }
      currentPartIndex := currentPartIndex + 1;
      r := Success(PartResult(part, newShapes, currentPartIndex >= |currentParts.value|));
    }

    /**
     * `finalizeCharacter`: without a character it throws "No character to
     * finalize"; a failed LLM call rethrows; otherwise the diff is applied in
     * the order remove, modify, add and becomes the character's shape list.
     */
    method FinalizeCharacter(reply: Result<Diff>) returns (r: Result<Diff>)
      modifies currentCharacter
      ensures currentCharacter == old(currentCharacter)
      ensures old(currentCharacter) == null ==> r == Failure(NoCharacter)
      ensures old(currentCharacter) != null ==> r == reply
      ensures currentCharacter != null ==>
        currentCharacter.State() == old(currentCharacter.State()).(shapes := currentCharacter.shapes)
      ensures currentCharacter != null && r.Failure? ==> currentCharacter.shapes == old(currentCharacter.shapes)
      ensures r.Success? ==>
        currentCharacter != null &&
        currentCharacter.shapes == ApplyDiff(old(currentCharacter.shapes), reply.value, enableCircles)
    {
      if currentCharacter == null {
        return Failure(NoCharacter);
      }
      if reply.Failure? {
        return reply;
      }
      var diff := reply.value;
      var finalShapes := currentCharacter.shapes;
      if |diff.remove| > 0 {
        finalShapes := RemoveIds(finalShapes, diff.remove);
      }
      ghost var removed := finalShapes;
      RemoveNoIds(currentCharacter.shapes);
      if |diff.updates| > 0 {
        for i := 0 to |diff.updates|
          invariant finalShapes == ModifyAll(removed, diff.updates[..i], enableCircles)
        {
          var modified := diff.updates[i];
          ghost var before := finalShapes;
          var index := IndexOfId(finalShapes, modified.id);
          if index != -1 {
            finalShapes := finalShapes[index := ForceKind(modified, enableCircles)];
          }
          assert finalShapes == ModifyOne(before, modified, enableCircles);
          assert diff.updates[..i + 1][..i] == diff.updates[..i];
        }
        assert diff.updates[..|diff.updates|] == diff.updates;
      }
      if |diff.add| > 0 {
        finalShapes := finalShapes + ForceKinds(diff.add, enableCircles);
      }
      currentCharacter.shapes := finalShapes;
      r := reply;
    }

    /** `reset`: no character, no parts, cursor at 0; notes and settings are kept. */
    method Reset()
      modifies this
      ensures currentCharacter == null && currentParts == Some([]) && currentPartIndex == 0
      ensures gridSize == old(gridSize) && enableCircles == old(enableCircles)
      ensures designNotes == old(designNotes) && colorStrategy == old(colorStrategy) && styleGuide == old(styleGuide)
    {
      currentCharacter := null;
      currentParts := Some([]);
      currentPartIndex := 0;
    }
  }
}

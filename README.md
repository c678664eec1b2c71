# Pixel-character generator: a Dafny model of its core

The application asks a language model to design pixel-art characters as
lists of coloured rectangles and circles, one planned body part at a time.
It rolls stats for characters and items, and lets the user equip generated
items. Equipping merges an item's shapes onto the character through a
scale/rotate/translate transform the model proposes. This project models
the parts of that program that are logic rather than page plumbing:

- **`CharacterGeneration`** (character-generator.js). The `CharacterGenerator`
  class is the state machine that plans the parts and then generates them one
  at a time:
  - it keeps a cursor over the plan;
  - it namespaces each part's shape ids (`part_shape`);
  - it forces every shape to a rectangle when circles are disabled;
  - it appends each part's shapes to the character it builds;
  - it applies the finalizer's diff in the order remove, modify, add.
- **`CharacterModel`** (character.js). The `Character` class:
  - constructor defaults;
  - `toJSON`/`fromJSON`;
  - rescaling to another grid with JavaScript's `Math.round`;
  - the stable draw order by `z_index` used when rendering;
  - the version history (`addVersion`, `revertToVersion`).
- **`ItemModel`** (item.js). Items as values with their JSON form, and the item
  stat roller: a rarity tier, then six stats in that tier's range.
- **`CharacterDetails`** (character-details.js):
  - the equip compositor `applyTransformation`: center resolution, bounding box,
    rotation, scaling, rounding, and z-index and scale stamping;
  - the merge onto the version-0 base;
  - the version and slot bookkeeping of `confirmImageSelection` and
    `unequipItem`, and the version-0 seeding on load;
  - the overall grade.
- **`App`** (app.js):
  - the character stat roller;
  - the normalisation and padding of prompt variations;
  - the choice of API key;
  - `generateSingleCharacter`, which plans, generates every part, then finalizes once.
- **`LlmUtils`** (llm-utils.js):
  - option merging, the schema suffix of the system prompt and endpoint/model/key routing in `query`;
  - the four text passes `parseJsonResponse` applies before `JSON.parse`;
  - the recursive schema formatter of `createJsonFormatInstructions`.
- **`Shapes`** and **`Wrappers`** hold what the modules share:
  - the shape record;
  - `Math.round` as `(v + 0.5).Floor`;
  - `Option`, which stands for `undefined`/`null`;
  - `Result`, which stands for a thrown error.

Every outside input is a parameter:
- each language-model reply, as the parsed payload or the error the call threw;
- every `Math.random()` draw;
- every `crypto.randomUUID()` id;
- every timestamp;
- the cosine and sine of the rotation;
- the user's answer to the unequip confirmation.

Numbers are mathematical reals and integers.

Behaviour of the code that the model keeps and proves:

- **Unequipping goes back one version too far.** `confirmImageSelection`
  saves the current shapes as a new version before it shows the equipped
  image (the comment at character-details.js:553). That version becomes
  current. `unequipItem` means to revert to the version it saved (the
  comments at character-details.js:603 and 612), but it reverts to
  `currentVersion - 1`, the version before that snapshot. On a freshly
  seeded character this happens to restore the pre-equip shapes, because
  version 0 duplicates the current shapes
  (`CharacterDetails.EquipThenUnequipOnSeeded`). After two equips, however,
  unequipping the second item reverts to the shapes from before the first
  equip, while the first item's slot still records that item
  (`CharacterDetails.SecondUnequipDropsFirstItemImage`). The model keeps
  this as-written `CharacterDetails.UnequipItem`. It also has the corrected
  `CharacterDetails.UnequipItemToSnapshot`, which reverts to the index
  `currentVersion`; see "## Findings".
- **Namespaced ids can collide.** They are distinct for distinct part ids
  that contain no `_`. With underscores two different (part, shape) pairs can
  produce the same id (`CharacterGeneration.NamespacedIdsCanCollide`).
- **An empty plan fails before any part is requested.** The driver reads
  `name` of the missing first part (`App.EmptyPlanFails`).
- **The trailing-comma pass is a single pass.** `,,]` becomes `,]`
  (`LlmUtils.TrailingCommaPassIsSinglePass`).

## Model

| member | source | states |
|---|---|---|
| Shapes.JsRound | character.js:48-51 | `Math.round(v)` is the integer r with r - 0.5 <= v < r + 0.5 (halves round up) |
| Shapes.Round | character.js:48-51 | `Math.round` as a number: an integer r with r - 0.5 <= v < r + 0.5 |
| Shapes.JsRoundOfInteger | character.js:48-51 | rounding an integer gives the integer back |
| Shapes.ForceKind | character-generator.js:208 | with circles disabled the type becomes `'rectangle'`, with them enabled it is passed through; no other field changes |
| Shapes.ForceKinds | character-generator.js:364-367 | the added shapes keep their length and order, each one type-forced |
| Shapes.IndexOfId | character-generator.js:352 | `findIndex` by id: -1 iff no shape has the id, otherwise the first index whose shape has it |
| ItemModel.NewItem | item.js:2-9 | `shapes` is kept only when it is an array (otherwise `[]`), `metadata` starts null, the other arguments are stored |
| ItemModel.ItemFromJson | item.js:88-93 | the stored id and metadata replace the fresh ones; undefined shapes and grid size default to `[]` and 128 |
| ItemModel.ItemJsonRoundTrip | item.js:77-93 | `fromJSON(toJSON(i))` equals `i` field for field, whatever UUID the constructor drew |
| ItemModel.RarityFromRoll | item.js:97-110 | Mythical iff roll <= 1, Legendary iff 1 < roll <= 10, Rare iff 10 < roll <= 100, Common iff 100 < roll <= 500, Mundane iff roll > 500: exactly one tier per roll |
| ItemModel.RarityMonotone | item.js:97-110 | a larger roll never gives a rarer tier |
| ItemModel.FloorOfDraw | item.js:120-128 | `Math.floor(draw * n)` with a draw in [0, 1) lies in [0, n) |
| ItemModel.RollStatForRarity | item.js:112-133 | Mythical in [20,60], Legendary in [10,20], Rare in [4,10], Common in [-4,-1] or [1,4] and never 0 (positive iff the sign draw is below 0.5), Mundane and unknown tiers 0 |
| ItemModel.RollStatReachesRange | item.js:112-133 | each tier's range is exact: every value in it comes out of some draw |
| ItemModel.GenerateItemStats | item.js:135-151 | one rarity draw is recorded and all six stats lie in that rarity's range; a Mundane item has six zeros |
| CharacterModel.DecodeCharacter | character.js:33-41 | `fromJSON` copies id, shapes and metadata, defaults a missing history to `[]`, version index to 0 and parents to null, and leaves `interactionType` null |
| CharacterModel.Character.constructor | character.js:2-14 | a new character has the given fields, null metadata/parents/interactionType, an empty history and version 0 |
| CharacterModel.Character.ToJSON | character.js:17-30 | reading back what `toJSON` stores gives the same character except `interactionType`, which comes back null |
| CharacterModel.Character.FromJSON | character.js:33-41 | the object `fromJSON` builds is a fresh character whose fields are the decoded record |
| CharacterModel.Character.ScaleShapes | character.js:44-53 | same length and order, every non-geometric field kept, each coordinate and size the rounded `v * target / gridSize` and an integer |
| CharacterModel.ScaleToSameGridIsIdentity | character.js:44-53 | rescaling to the character's own grid is the identity on integer geometry |
| CharacterModel.Character.AddVersion | character.js:145-152 | exactly one entry is appended, earlier entries unchanged, it becomes current and its shapes become the shapes; nothing else changes |
| CharacterModel.Character.RevertToVersion | character.js:155-160 | an index in range makes that version's shapes and index current; out of range nothing changes; the history is never altered |
| CharacterModel.InsertByZSorted | character.js:68-70 | inserting into a list sorted by `z_index` keeps it sorted |
| CharacterModel.InsertByZMultiset | character.js:68-70 | insertion adds exactly the inserted shape |
| CharacterModel.InsertByZWithKey | character.js:68-70 | insertion puts the shape after every shape with its key, so shapes sharing a key keep their order |
| CharacterModel.WithKeyAbsent | character.js:68-70 | a sorted list whose first key exceeds k has no shape with key k |
| CharacterModel.WithKeySnoc | character.js:68-70 | the shapes of key k in `s + [x]` are those of `s` followed by `x` when its key is k |
| CharacterModel.InsertByZLength | character.js:68-70 | insertion adds exactly one element |
| CharacterModel.DrawOrder | character.js:68-70 | the draw order has as many shapes as the list |
| CharacterModel.DrawOrderIsStableSort | character.js:68-70 | the draw order is sorted by `z_index` (missing read as 0), a permutation of the shapes, and stable: each key's shapes keep their list order |
| CharacterModel.InsertKeepsStableSort | character.js:68-70 | inserting one more shape into a stably sorted draw order of the others leaves it sorted by `z_index`, a permutation of all the shapes, and stable per key |
| CharacterGeneration.NamespaceShapes | character-generator.js:205-209 | same length and order; each shape's id becomes `part.id + "_" + shape.id`, its type is forced, every other field is kept |
| CharacterGeneration.PrefixCancel | character-generator.js:207 | equal ids under the same part prefix come from equal shape ids |
| CharacterGeneration.NamespacePreservesDistinctIds | character-generator.js:205-209 | distinct shape ids stay distinct after namespacing |
| CharacterGeneration.NamespacedIdsOfDistinctPartsDiffer | character-generator.js:207 | shapes of two different parts whose ids contain no `_` never share an id |
| CharacterGeneration.NamespacedIdsCanCollide | character-generator.js:207 | part `a_b` with shape `c` and part `a` with shape `b_c` get the same id |
| CharacterGeneration.RemoveIds | character-generator.js:345-347 | keeps exactly the shapes whose id is not in `remove`, in order |
| CharacterGeneration.RemoveIdsSingle | character-generator.js:345-347 | one shape is kept iff its id is not in `remove` |
| CharacterGeneration.RemoveIdsAppend | character-generator.js:345-347 | the filter distributes over concatenation, so with the one-shape case it keeps each survivor once, in list order |
| CharacterGeneration.RemoveNoIds | character-generator.js:345-347 | an empty remove list keeps every shape, so the skipped filter changes nothing |
| CharacterGeneration.ModifyOne | character-generator.js:351-358 | the first shape with the update's id is replaced wholesale by the type-forced update; an unknown id changes nothing; ids and length stay |
| CharacterGeneration.ModifyAll | character-generator.js:350-360 | the updates never change the id list or the length |
| CharacterGeneration.ApplyDiff | character-generator.js:342-372 | the result is the survivors of the removal, with their ids in order and possibly modified, followed by exactly the type-forced added shapes |
| CharacterGeneration.PartShapes | app.js:250-271 | the accumulated part shapes exist iff every part's reply succeeded; otherwise the error is one of the replies' errors |
| CharacterGeneration.PartShapesFirstFailure | app.js:250-271 | a failed outcome carries the error of the first failed reply: every earlier reply succeeded |
| CharacterGeneration.ApplyDiffLength | character-generator.js:342-372 | the final count is the survivors of the removal plus the added shapes |
| CharacterGeneration.AddedShapesArePresent | character-generator.js:362-369 | every added shape is present type-forced, even when its id was also removed |
| CharacterGeneration.RemovedIdsStayRemoved | character-generator.js:344-360 | a removed id that is not re-added is absent at the end, whatever the updates say |
| CharacterGeneration.ApplyDiffKeepsRectangles | character-generator.js:342-372 | with circles disabled, an all-rectangle character stays all rectangles after the diff |
| CharacterGeneration.ModifyAllKeepsRectangles | character-generator.js:350-360 | the same for the modify step |
| CharacterGeneration.CharacterGenerator.constructor | character-generator.js:2-8 | no character, no parts, cursor 0, grid 128, circles enabled |
| CharacterGeneration.CharacterGenerator.PlanCharacterParts | character-generator.js:94-98 | a failed plan rethrows and changes nothing; otherwise parts and notes are stored and the cursor restarts at 0, without clearing the character |
| CharacterGeneration.CharacterGenerator.GenerateNextPart | character-generator.js:114-230 | without a next part it fails with "No more parts" and changes nothing; a failed reply rethrows unchanged; otherwise the first call creates the character from the namespaced shapes and later calls append them, keeping the old prefix; the cursor advances by one and `isComplete` iff it reaches the part count |
| CharacterGeneration.CharacterGenerator.FinalizeCharacter | character-generator.js:232-385 | without a character it fails with "No character to finalize"; a failed reply leaves the shapes; otherwise the shapes become the diff applied in the order remove, modify, add, and no other field changes |
| CharacterGeneration.CharacterGenerator.Reset | character-generator.js:387-391 | no character, no parts, cursor 0; settings and notes are kept |
| CharacterDetails.ResolveCenter | character-details.js:413-426 | both absolute coordinates win; else both offsets give `gridSize/2 + offset * gridSize`; no center iff neither pair is complete |
| CharacterDetails.OffsetToCenterMeaning | character-details.js:417-422 | offset 0 is the grid center and one unit of offset moves the center by one grid size |
| CharacterDetails.BoundingBox | character-details.js:435-441 | a box exists iff there is a shape |
| CharacterDetails.BoundingBoxIsTight | character-details.js:435-441 | every shape lies inside the box and each of its four edges is some shape's edge |
| CharacterDetails.Scaled | character-details.js:468-473 | `v * scale * gridScale` is `v` times the combined factor |
| CharacterDetails.Placed | character-details.js:451-477 | top-left plus scaled offset plus half the scaled size is the center plus the scaled offset |
| CharacterDetails.TransformShape | character-details.js:458-496 | only x, y, width, height, scale and z_index change; scale and z_index are the transform's; every coordinate is the rounding of `center + rotated offset * scale * gridSize/128` and every size the rounding of `size * scale * gridSize/128` |
| CharacterDetails.TransformAll | character-details.js:458-497 | same length and order, shape i mapped by `TransformShape` |
| CharacterDetails.Transformed | character-details.js:411-497 | the output has the input's length |
| CharacterDetails.ApplyTransformation | character-details.js:411-498 | the method that accumulates the box shape by shape computes `Transformed` |
| CharacterDetails.TransformedShapewise | character-details.js:414-497 | without a usable center the input comes back unchanged; with one, shape i is transformed under the whole list's box |
| CharacterDetails.ZeroRotationShapeInScaledBox | character-details.js:455-477 | at 0 degrees a shape inside the item's box lands inside the scaled box about the requested center on both axes, up to rounding |
| CharacterDetails.ZeroRotationX | character-details.js:455-477 | the same on the x axis |
| CharacterDetails.ZeroRotationY | character-details.js:455-477 | the same on the y axis |
| CharacterDetails.AxisInScaledSpan | character-details.js:468-477 | a segment inside a span, scaled about the span's middle and rounded, stays within the scaled span widened by the rounding |
| CharacterDetails.RoundedEdges | character-details.js:476-492 | rounded left and right edges of a segment inside a span stay within the span widened by the rounding |
| CharacterDetails.EdgeBounds | character-details.js:468-473 | scaling by a non-negative factor keeps an offset segment inside the scaled span |
| CharacterDetails.GenerateCombinedImage | character-details.js:363-409 | the merged list is version 0's shapes followed by the transformed item shapes; no version 0, a failed call or a reply without a transform yields null |
| CharacterDetails.CombinedImage | character-details.js:366-404 | a merge exists iff there is a version 0 and a transform, and it is the base unchanged followed by one shape per item shape |
| CharacterDetails.EquipScenario | character-details.js:411-497 | a 48-unit item scaled by 0.2 to center (64, 30) at 0 degrees becomes one 10x10 shape at (59, 25) with z-index 80, after the base |
| CharacterDetails.IndexOfSlot | character-details.js:560 | `findIndex` by slot id: -1 iff no slot has the id, otherwise the first such slot |
| CharacterDetails.SetSlotEquipment | character-details.js:560-567 | only the first slot with the id gets the equipment; an unknown id changes no slot |
| CharacterDetails.EquipThenClearSlot | character-details.js:560-567 | filling an empty slot and clearing it again leaves the slot list as it was |
| CharacterDetails.SlotIdsKept | character-details.js:560-567 | setting equipment never moves slot ids, so every later lookup finds the same slot |
| CharacterDetails.SecondSlotSurvivesClear | character-details.js:596-616 | clearing one slot leaves another slot's record |
| CharacterDetails.SeedInitialVersion | character-details.js:47-50 | a character without history gets its current shapes as version 0; one with history is unchanged |
| CharacterDetails.ConfirmImageSelection | character-details.js:552-567 | the pre-equip shapes are appended as one version that becomes current, the chosen shapes become current, the matching slot records the item, and without metadata the call fails after the first two steps |
| CharacterDetails.UnequipItem | character-details.js:590-616 | declined, missing slot, empty slot, or `currentVersion - 1` outside the history change nothing; otherwise the character reverts to `currentVersion - 1` and the slot is cleared; the history is never shortened |
| CharacterDetails.EquipThenUnequipOnSeeded | character-details.js:47-50 | on a freshly seeded character, equip then unequip restores the shapes and slots and keeps both snapshots |
| CharacterDetails.EquipTwoItems | character-details.js:552-567 | two equips leave the second image current, three versions, and both slots filled |
| CharacterDetails.SecondUnequipDropsFirstItemImage | character-details.js:604-613 | after two equips, unequipping the second item restores the shapes from before the first equip while the first slot still records its item |
| CharacterDetails.UnequipItemToSnapshot | character-details.js:603-613 | the corrected unequip: the same checks and outcomes as `UnequipItem`, but it reverts to the version at `currentVersion`, the snapshot the equip saved |
| CharacterDetails.EquipThenUnequipRestores | character-details.js:552-613 | on any history, equip then the corrected unequip restores the pre-equip shapes, clears the slot (restoring the slot list when it was empty) and keeps the snapshot in the history |
| CharacterDetails.SecondUnequipKeepsFirstItemImage | character-details.js:552-613 | with the corrected unequip, unequipping the second of two items gives back the image with the first item, whose slot still records it |
| CharacterDetails.GetGrade | character-details.js:141-147 | A iff >= 80, B iff in [60, 80), C iff in [40, 60), D iff in [20, 40), F below 20 |
| CharacterDetails.GradeMonotone | character-details.js:141-147 | a higher average never gets a worse grade |
| CharacterDetails.OverallGrade | character-details.js:79-81 | no stats (an average of NaN) grade F; otherwise the grade is that of the rounded average of the stat values |
| CharacterDetails.SumBounds | character-details.js:80 | the sum of n values in [lo, hi] lies in [n*lo, n*hi] |
| CharacterDetails.AverageWithinBounds | character-details.js:79-80 | the rounded average of stats in an integer range stays in that range |
| CharacterDetails.MeanAtLeast | character-details.js:80 | a total of at least n*lo over n > 0 values averages at least lo |
| CharacterDetails.MeanAtMost | character-details.js:80 | a total of at most n*hi over n > 0 values averages at most hi |
| CharacterDetails.SumAtLeast | character-details.js:80 | the sum of n values each at least lo is at least n*lo |
| CharacterDetails.AverageAtLeast | character-details.js:79-80 | the rounded average of stats all at least an integer lo is at least lo |
| CharacterDetails.OverallGradeAtLeast | character-details.js:79-81 | stats all at least lo grade no worse than lo itself |
| CharacterDetails.AllHighStatsGradeA | character-details.js:79-81 | stats all at 80 or above grade A |
| App.RollStat | app.js:446-461 | roll <= 10 gives [70,100], roll <= 100 gives [40,80], otherwise [1,50]; always in [1,100] |
| App.RollStatReachesTier | app.js:446-461 | each tier's range is exact: every value in it comes out of some draw |
| App.GenerateCharacterStats | app.js:463-472 | six fields, each its own `rollStat`, each in [1,100] |
| App.ReplyVariations | app.js:150-152 | an array reply is used as is, else `variations` when it is an array, else `[originalPrompt]` |
| App.GeneratePromptVariations | app.js:150-166 | the array is padded with the original prompt to max(10, n) entries, its own entries kept in order and never cut; a failure gives ten copies of the original prompt |
| App.SelectCredential | app.js:240 | the Groq key iff the selected model starts with `llama`, else the OpenAI key |
| App.CredentialMatchesEndpoint | app.js:256-260 | with no stored Groq key, a Groq request carries the Groq key and an OpenAI request the OpenAI key |
| App.PartShapesFailureSticks | app.js:250-271 | once a part has failed, the accumulated outcome stays that failure |
| App.NextPart | app.js:256-270 | one turn of the loop keeps the loop invariant, or reports the failure the accumulated outcome shows |
| App.GenerateParts | app.js:247-271 | the loop yields the character built from every part's shapes in plan order, or the first failed reply, or, for an empty plan, the TypeError of reading the missing first part |
| App.PartsOutcome | app.js:247-271 | an empty plan fails with a TypeError; otherwise the outcome succeeds iff every part's reply succeeded |
| App.DriverOutcome | app.js:232-293 | a failed plan call gives its error, a plan without `parts` a TypeError, and success needs a non-empty plan, every part's reply and the finalizer's reply to succeed |
| App.GenerateSingleCharacter | app.js:232-293 | succeeds iff the plan, every part and the finalizer succeed; otherwise rethrows exactly that error; on success the fresh character has the finalized shapes and the constructor's defaults |
| App.DriverKeepsRectangles | app.js:232-293 | with circles disabled the finished character is all rectangles |
| App.PartShapesRectangles | app.js:250-271 | with circles disabled the accumulated part shapes are all rectangles |
| App.EmptyPlanFails | app.js:248-253 | a plan with no parts fails with a TypeError |
| LlmUtils.Spaces | llm-utils.js:105 | `' '.repeat(n)` is n spaces |
| LlmUtils.MergeOptions | llm-utils.js:3-11 | each of model, temperature and max_tokens comes from `options` when given, else from the argument; JSON parsing is on unless turned off; the schema is the option's |
| LlmUtils.EmptyOptionsGiveDefaults | llm-utils.js:3-11 | with no options the settings are exactly the defaults |
| LlmUtils.SystemPromptFor | llm-utils.js:13-17 | without a schema the prompt is unchanged; with one it is the prompt, a blank line, then the format instructions |
| LlmUtils.RouteFor | llm-utils.js:20-31 | the Groq URL iff the model starts with `llama`, with the stored Groq key when it is non-empty, else the given key, and `meta-llama/` prepended when the name contains `llama-4`; otherwise the OpenAI URL, the given key and the merged model |
| LlmUtils.NormalizeUserContent | llm-utils.js:45 | an array is sent as is; a string becomes one text part |
| LlmUtils.BuildRequest | llm-utils.js:11-50 | the request carries the routed URL, key and model, the system prompt with its suffix, the normalised content and the merged temperature and token limit |
| LlmUtils.RoutingIgnoresModelOption | llm-utils.js:22-31 | routing looks at the model argument: an OpenAI request uses the `options.model` override, but a `llama-4` argument sends `meta-llama/` + the argument |
| LlmUtils.IndexOfChar | llm-utils.js:82 | `indexOf`: -1 iff the character is absent, otherwise its first position |
| LlmUtils.DropBeforeBrace | llm-utils.js:82 | with a `{` the result is the suffix starting at the first `{`; without one the text is kept whole (`substring(-1)`) |
| LlmUtils.DropBeforeBraceIdempotent | llm-utils.js:82 | applying the pass twice is applying it once |
| LlmUtils.StripToken | llm-utils.js:85-86 | removing a token never lengthens the text |
| LlmUtils.StripTokenKeepsHead | llm-utils.js:85-86 | a text not starting like the token keeps its first character |
| LlmUtils.NoDoubleTickHead | llm-utils.js:86 | removing fences from a text that does not start with two backticks leaves one that does not either |
| LlmUtils.NoFenceRemains | llm-utils.js:86 | after the fence pass no triple backtick remains |
| LlmUtils.StripTokenKeepsPlain | llm-utils.js:85-86 | text without the token's first character is kept as it is, in front of what the rest becomes |
| LlmUtils.StripTokenDeletesToken | llm-utils.js:85-86 | a token is deleted together with one newline right after it, and only that |
| LlmUtils.StripTokenWithoutTicks | llm-utils.js:85-86 | a text without backticks passes through the fence passes unchanged |
| LlmUtils.LineEnd | llm-utils.js:89 | the end of a `//` comment is the first line terminator or the end of the text |
| LlmUtils.CloseOfComment | llm-utils.js:89 | the lazy `/* ... */` match ends at the first `*/` from the given position; -1 iff there is none |
| LlmUtils.StripComments | llm-utils.js:89 | removing comments never lengthens the text |
| LlmUtils.StripCommentsKeepsHead | llm-utils.js:89 | a text not starting with `/` keeps its first character |
| LlmUtils.ConsNoDoubleSlash | llm-utils.js:89 | a kept character before comment-free text makes no `//` unless it is a `/` before a `/` |
| LlmUtils.NoLineCommentRemains | llm-utils.js:89 | after the comment pass no `//` remains anywhere, including inside string values |
| LlmUtils.StripCommentsPlainStep | llm-utils.js:89 | a first character other than `/` is kept and the pass goes on after it |
| LlmUtils.StripCommentsKeepsSlashFree | llm-utils.js:89 | text without a `/` is kept as it is, in front of what the rest becomes |
| LlmUtils.BlockCommentDeleted | llm-utils.js:89 | a block comment up to its first `*/` is deleted whole, and nothing after it |
| LlmUtils.LineEndAt | llm-utils.js:89 | the end of a `//` comment is its first line terminator |
| LlmUtils.LineCommentDeleted | llm-utils.js:89 | a `//` comment is deleted up to its line terminator, which stays |
| LlmUtils.StripCommentsAddsNoCloser | llm-utils.js:89 | the comment pass never creates a `*/` where its input had none |
| LlmUtils.UnclosedOpenerKept | llm-utils.js:89 | a `/*` the pass keeps, having no closer, has no `*/` after it in the output |
| LlmUtils.NoBlockCommentRemains | llm-utils.js:89 | after the comment pass no `/*` is followed anywhere by a `*/`, so no complete block comment remains |
| LlmUtils.SpaceRun | llm-utils.js:92 | the run of JavaScript white space at the head of the text |
| LlmUtils.StripTrailingCommas | llm-utils.js:92 | deleting trailing commas never lengthens the text; `StripTrailingCommasIsDropTrailing` states which commas go |
| LlmUtils.DropTrailingKeepsCommaFree | llm-utils.js:92 | text without commas passes through the character-by-character deletion unchanged |
| LlmUtils.SkippedRunHasNoComma | llm-utils.js:92 | the white space and closer kept after a deleted comma hold no comma |
| LlmUtils.DroppedCommaAgrees | llm-utils.js:92 | where the pass deletes a comma, it agrees with the character-by-character deletion |
| LlmUtils.StripTrailingCommasDropStep | llm-utils.js:92 | at a comma followed by white space and a closer, the pass deletes the comma, keeps the white space and closer, and goes on after the closer |
| LlmUtils.DropTrailingDropStep | llm-utils.js:92 | at such a comma, the character-by-character definition deletes only that comma |
| LlmUtils.DropTrailingKeepsPrefix | llm-utils.js:92 | a comma-free prefix passes through the character-by-character definition unchanged |
| LlmUtils.KeptCharAgrees | llm-utils.js:92 | where the pass keeps a character, it agrees with the character-by-character deletion |
| LlmUtils.StripTrailingCommasIsDropTrailing | llm-utils.js:92 | the scanning pass deletes exactly the commas followed by JavaScript white space and then `}` or `]`, and keeps every other character in order |
| LlmUtils.WithoutCommas | llm-utils.js:92 | the text with every comma dropped has no comma |
| LlmUtils.WithoutCommasAppend | llm-utils.js:92 | dropping commas distributes over concatenation |
| LlmUtils.DropCommaStep | llm-utils.js:92 | deleting the leading comma of a match keeps the comma-free text |
| LlmUtils.KeepStep | llm-utils.js:92 | keeping a character keeps the comma-free text |
| LlmUtils.DroppedCommaCase | llm-utils.js:92 | where the pass deletes a comma, the comma-free text is kept |
| LlmUtils.KeptCharCase | llm-utils.js:92 | where the pass keeps a character, the comma-free text is kept |
| LlmUtils.StripTrailingCommasOnlyDropsCommas | llm-utils.js:92 | the trailing-comma pass deletes commas and nothing else |
| LlmUtils.TrailingCommaPassIsSinglePass | llm-utils.js:92 | one pass turns `,,]` into `,]`, and only a second pass gives `]` |
| LlmUtils.CleanJsonText | llm-utils.js:79-92 | the four passes never lengthen the text |
| LlmUtils.ParseJsonResponse | llm-utils.js:79-101 | the parse succeeds iff `JSON.parse` accepts the cleaned text, with its value; any failure is "Failed to parse LLM response as JSON" |
| LlmUtils.AnswerFor | llm-utils.js:65-72 | with parsing off the raw content is returned; with it on the outcome is the parse's |
| LlmUtils.CreateJsonFormatInstructions | llm-utils.js:103-142 | the fixed header, the formatted schema, then the fixed footer |
| LlmUtils.JoinBalanced | llm-utils.js:115 | joining balanced entries with a bracket-free separator is balanced |
| LlmUtils.JoinNoBrackets | llm-utils.js:122 | joining bracket-free parts with a bracket-free separator is bracket-free |
| LlmUtils.SpacesNoBrackets | llm-utils.js:105 | indentation holds no brackets |
| LlmUtils.BalancedConcat | llm-utils.js:106-127 | two balanced texts concatenate to a balanced text |
| LlmUtils.NoBracketsBalanced | llm-utils.js:106-127 | a bracket-free text is balanced |
| LlmUtils.NoBracketsConcat | llm-utils.js:106-127 | two bracket-free texts concatenate to a bracket-free text |
| LlmUtils.EntryBalanced | llm-utils.js:112-113 | a property line with a plain key, a balanced body and a plain description is balanced |
| LlmUtils.DescriptionSuffixPlain | llm-utils.js:112 | a plain description gives a plain comment |
| LlmUtils.WrapBalanced | llm-utils.js:110-118 | matching openers and closers around a balanced text give a balanced text |
| LlmUtils.ClosingCounts | llm-utils.js:116 | the closing line holds exactly one `}` and no other bracket |
| LlmUtils.ObjectFormatBalanced | llm-utils.js:109-116 | an object whose property formats are balanced formats balanced |
| LlmUtils.ChoicesLabelPlain | llm-utils.js:122 | the `(one of:` label holds no braces or square brackets |
| LlmUtils.ChoicesSuffixPlain | llm-utils.js:121-123 | plain enum values give a plain choices suffix |
| LlmUtils.ScalarFormatBalanced | llm-utils.js:119-124 | a scalar with plain names formats balanced |
| LlmUtils.FormatSchemaBalanced | llm-utils.js:104-128 | for a schema whose keys, type names, enum values and descriptions hold no brackets, the formatted schema has as many `{` as `}` and as many `[` as `]` |

## Left out

- DOM, canvas and storage. The page code (`initializeUI`, the `display*` functions, modals, previews, downloads, `alert`) is not modelled. Neither is canvas drawing, of which only the draw order of `Character.render` is kept. All `localStorage` reads and writes are out too: saving characters, removing an equipped item from the inventory, and the item-restore branch of `unequipItem`. These are side effects with nothing to state. The stored Groq key enters `LlmUtils.RouteFor` as a parameter.
- The network. `fetch`, HTTP status handling, the response body and token usage are not modelled. Each language-model reply is a parameter: the parsed payload, or the error the call threw. `JSON.parse` is a parameter of `LlmUtils.ParseJsonResponse`.
- Concurrency. Generating six characters, ten items and ten combined images with `Promise.all` is not modelled. Each call is modelled on its own.
- Floating point. Numbers are exact reals and integers, so IEEE rounding, NaN and infinities are not modelled. The one exception is the average of no stats, which is NaN in the program and `None` in the model. `Math.cos`/`Math.sin` of the rotation are given as a pair of inputs.
- Prompt texts, the schema literals (prompts.js) and the progress text the driver displays are not modelled.
- item-generator.js is not part of this model; it only calls the item stat roller and the gateway.
- `undefined` and `null` are told apart only where the code treats them differently. A missing field that the code tolerates is `None`. A field the code dereferences without a check is a required field of the model's record, and a field of the wrong JSON type is not modelled.
- `CharacterGeneration.CharacterGenerator.GenerateNextPart`: a planned part without `z_index_range` or `suggested_colors` makes `generateNextPart` throw a TypeError while it builds the prompt (character-generator.js:152, 163), before its `try` and with the cursor unchanged. The model's `Part` record always has these fields, so this error path is not modelled.
- A shape's `z_index` is kept as an optional number. Extra JSON fields of shapes, parts and replies are not modelled.
- `App.GenerateSingleCharacter`: the program returns the finalizer's result object. The model returns its `character` field, because the other two fields are the reply itself and token usage.
- `CharacterModel.Character.ScaleShapes`: requires a non-zero grid size; a division by zero would give infinities or NaN.
- `CharacterDetails.ZeroRotationShapeInScaledBox`: states the 0-degree placement for one shape and a non-negative factor; placement under other rotations is stated only through `CharacterDetails.TransformShape`.
- `CharacterDetails.ResolveCenter`: the program tests `!== undefined`, so a JSON `null` center or offset counts as present there and reads as 0 in the arithmetic. The model treats `null` like `undefined` (`None`), so such a transform leaves the shapes unchanged instead of placing them at 0.
- `CharacterDetails.Transformed`: the transform's `scale` is taken as a number. An absent `scale` (NaN geometry in the program) is not modelled.
- `LlmUtils.CreateJsonFormatInstructions`: balance is proved for the formatted schema (`LlmUtils.FormatSchemaBalanced`), not for the fixed header and footer text around it.
- Schemas that are not objects: `formatSchema` turns any such value into the empty text. The model represents only a missing `items` this way; other non-object schema values are not modelled.

## Findings

| source | as written | input that shows it | evidently intended | confidence | as-written member | corrected member |
|---|---|---|---|---|---|---|
| character-details.js:603-613 | `unequipItem` reverts to `currentVersion - 1`, the version before the snapshot that `confirmImageSelection` saved | a seeded character equips item A, then item B in another slot, then unequips B | revert to `currentVersion`, the saved pre-equip snapshot, so the image with A comes back | not executed | CharacterDetails.SecondUnequipDropsFirstItemImage | CharacterDetails.SecondUnequipKeepsFirstItemImage |

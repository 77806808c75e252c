# ScalaTree topic graph, modelled in Dafny

ScalaTree draws a dependency graph of Scala learning topics. Nearly all of
its `data.js` is literal text. The logic it holds is a small builder:

- **`defineTopic`** registers a topic in the module-level `topics` table:
  - the id is the topic name, lower-cased, with each run of characters
    outside `[a-z]` replaced by one `-`;
  - omitted arguments take their defaults;
  - the level is one above the highest level among the topic's
    prerequisites, or 1 for a root;
  - `hsort` starts at 0;
  - the call returns the id.
- **One direct write**, `topics[builder].level = 4`, forces a level.
- **`reorderLevel(head, ...tail)`** gives each follower on the head's level
  a sort hint that the renderer uses. For any other follower it only logs
  an "Expected the same levels" line.
- **The build script** is 38 `defineTopic` calls, the direct write and six
  `reorderLevel` calls.

The project's modules:

| module | what it models |
|---|---|
| `TopicId` | the id normaliser |
| `Topics` | the topic record, the argument defaults and the level expression, as functions |
| `TopicGraph` | the `topics` table, as class `Registry` |
| `Reorder` | what a `reorderLevel` pass means, as functions |
| `Decimal` | the number-to-text conversion that JavaScript's `+` applies when it builds the hint |
| `Scenario` | a generic build script, run on a `Registry`, with an outcome claimed for it |
| `ScalaTree` | `Scenario` instantiated with the script of `data.js` |
| `ScalaTreeNames` | the script's 38 topic names, their ids, and the build run on them |

`Registry` has three methods: `DefineTopic`, `SetLevel` and `ReorderLevel`.
`ReorderLevel` is a loop proved equal to `Reorder.Run`.

`ScalaTree.Build` runs the whole script on any 38 names that normalise to
distinct ids. `ScalaTreeNames.BuildScalaTree` runs it on the script's own
names, after proving that those names do normalise to distinct ids. Together
they prove the following:
- every topic is stored under its own id, with its own data;
- every topic is on the level the outcome claims;
- every follower carries the hint its reorder call gives it;
- no reorder call reports a mismatch;
- every prerequisite sits on a lower level than the topic that requires it.

Among the levels the script produces, stated about the built registry by
their ids, are:

| topic | level |
|---|---|
| Function | 1 |
| Currying | 2 |
| Function Types | 3 |
| Monad | 5 |
| Free Monad | 6 |
| Collections | 3 |
| Builder (after the direct write) | 4 |
| Iterable | 4 |
| Seq | 5 |
| Variance | 5 |
| For-comprehension | 6 |
| Collection builders | 7 |

The model follows the code wherever a reader might expect otherwise:

- **The id is not trimmed.** `'Simple for "loop"'` becomes
  `simple-for-loop-`, with a trailing `-`. Applying the normaliser to its
  own output returns it unchanged.
- **The sort hint is text, not a number.** `for (idx in tail)` yields
  string keys, so `left.hsort + idx + 1` concatenates. An anchor of 0 gives
  follower `i` the text `"0" + i + "1"`, for example `"001"` and `"011"`.
  Read as a number this is `10 * i + 1`. Compared as text, the hints stop
  following position order from the eleventh follower (index 10) on:
  `"0101"` sorts before `"011"`. No call in the
  script has more than six followers.
- **A repeated id silently replaces the earlier entry.** `defineTopic`
  does not check for one.
- **A missing prerequisite throws.** The throw happens before the table is
  written, so the table is left unchanged.
- **`Category.collections` is undefined.** It is passed at `data.js:495`
  and does not exist in the table. It therefore falls back to
  `Category.language`. The `patterns` category's text is
  `'design patters'`, as written.

## Model

| member | source | states |
|---|---|---|
| `TopicId.LowerChar` | data.js:18 | `toLowerCase` on one character, ASCII only: `A`-`Z` move to `a`-`z`; every other character is kept |
| `TopicId.Lower` | data.js:18 | `toLowerCase` on a name, character by character through `LowerChar`; same length |
| `TopicId.RunEnd` | data.js:18 | the length of the maximal leading run of non-`[a-z]` characters: all before it are non-letters; it is followed by a letter or the end |
| `TopicId.RunEndUnique` | data.js:18 | any length with the maximal-run property is `RunEnd` |
| `TopicId.Collapse` | data.js:18 | `replace(/[^a-z]+/g, '-')`: the output holds only `a-z` and `-`; it never holds `--`; it is empty iff the input is; it starts with `-` iff the input starts with a non-letter; it is no longer than the input |
| `TopicId.Slug` | data.js:18 | the id: only `a-z` and `-`, no `--`, no longer than the name |
| `TopicId.CollapseIsScan` | data.js:18 | `Collapse` equals the left-to-right automaton that emits `-` on entering a run of non-letters: an independent definition of the regular-expression replacement |
| `TopicId.CollapseKeepsLetters` | data.js:18 | the letters of the input survive, in order, and no others appear |
| `TopicId.CollapseLast` | data.js:18 | the id ends in `-` iff the name ends in a non-letter: nothing is trimmed |
| `TopicId.CollapseIdempotent` | data.js:18 | replacing twice is replacing once |
| `TopicId.SlugIdempotent` | data.js:18 | normalising an id returns it unchanged |
| `TopicId.CollapseWord` | data.js:18 | a string of letters is its own replacement |
| `TopicId.CollapseAppend` | data.js:18 | the replacement splits at any boundary that follows a letter |
| `TopicId.CollapseRun` | data.js:18 | a leading run of non-letters before a letter becomes exactly one `-` |
| `TopicId.TwoWords` | data.js:18 | two words around a run of non-letters are joined by one `-` |
| `TopicId.SlugOfWord` | data.js:18 | a name that lower-cases to one word has that word as its id |
| `TopicId.SlugOfTwoWords` | data.js:18 | a two-word name has the lower-cased words, joined by `-`, as its id |
| `TopicId.TrailingRun` | data.js:18 | a run of non-letters at the end is kept as one `-` |
| `TopicId.SlugOfFlatMap` | data.js:472 | `'flatMap'` gets the id `flatmap` |
| `TopicId.SlugOfSimpleFor` | data.js:482 | `'Simple for "loop"'` gets the id `simple-for-loop-`, with a trailing `-` |
| `Topics.OrElse` | data.js:19-22 | the `x \|\| d` default: `None` stands for an omitted argument or one that reads as `undefined`, and gives `d`; a present value is kept |
| `Topics.NewTopic` | data.js:24-36 | the record literal: id from the name, `label` = name, `group` = category, defaults applied, the given level, `hsort` 0 |
| `Topics.FirstMissing` | data.js:23 | none iff every prerequisite is registered; otherwise the first unregistered one in order, which is where `requires.map(...)` throws |
| `Topics.MaxLevel` | data.js:23 | `Math.max` over the prerequisite levels: an upper bound that one of them reaches |
| `Topics.LevelOf` | data.js:23 | succeeds iff every prerequisite is registered, else names a missing one; 1 for a root; above every prerequisite level; exactly one above some prerequisite; at least 1 when all levels are |
| `Topics.LevelIs` | data.js:23 | with the highest prerequisite at position `top`, the level is its level plus one |
| `Topics.InsertKeepsMonotone` | data.js:37 | inserting a fresh topic whose prerequisites are registered and below it keeps every edge pointing downwards |
| `Topics.DefineKeepsMonotone` | data.js:17-39 | a successful definition under a fresh id keeps every edge pointing downwards |
| `Topics.RaiseKeepsMonotone` | data.js:409 | raising a topic that nobody requires, above its own prerequisites, keeps every edge pointing downwards |
| `TopicGraph.Registry.constructor` | data.js:10 | the table starts empty |
| `TopicGraph.Registry.DefineTopic` | data.js:17-39 | succeeds iff every prerequisite is registered. On failure: the table is unchanged and the error names the first missing prerequisite. On success: returns the id of the name; stores the full record (defaults applied, `label` = name, `group` = category, computed level, `hsort` 0) under it, overwriting any earlier entry; leaves every other entry alone; puts every prerequisite below the new level; keeps the edges pointing downwards when the id is fresh |
| `TopicGraph.Registry.SetLevel` | data.js:409 | fails iff the id is unregistered, leaving the table unchanged; otherwise replaces only that topic's level; keeps the edges pointing downwards when nobody requires the topic and the new level is above its prerequisites |
| `TopicGraph.Registry.ReorderLevel` | data.js:575-585 | the loop leaves exactly the table, log and failure of `Reorder.Run` over all followers; keeps the edges pointing downwards |
| `Reorder.HSortText` | data.js:580 | the text of an `hsort` value under `+`: a number's decimal text, or the string itself |
| `Reorder.Hint` | data.js:580 | `left.hsort + idx + 1` with `idx` a string key: the anchor's text, the index's digits and `"1"`, concatenated |
| `Reorder.Step` | data.js:578-583 | one loop iteration: throws when the head or the follower is missing; otherwise rewrites the follower's `hsort` on an equal level, or appends a `Mismatch` |
| `Reorder.Run` | data.js:576-584 | the pass over the first `n` followers, stopping at the first throw. It re-reads `topics[head]` on each step, which is what the shared `left` object amounts to when the head is itself a follower |
| `Reorder.RunFrame` | data.js:575-585 | a pass keeps the set of keys and changes only `hsort` fields, and only those of followers |
| `Reorder.RunStops` | data.js:575-585 | after a throw, later followers change nothing |
| `Reorder.RunFails` | data.js:576-579 | the pass throws iff there is a follower and the head is missing, or some follower is missing; a missing head is the error reported |
| `Reorder.RunStopsAtMissing` | data.js:578-580 | a missing follower stops the pass: earlier followers keep their new hints, later ones are never read |
| `Reorder.MismatchesAppend` | data.js:582 | the reference diagnostics of two lists of followers, one after the other, are the two logs concatenated |
| `Reorder.RunLog` | data.js:579-582 | with every key present, the loop does not throw and logs exactly the reference diagnostics: one per follower on another level, in order |
| `Reorder.LogStep` | data.js:579-582 | one more follower appends its own diagnostic, if any |
| `Reorder.NoMismatches` | data.js:579-582 | no diagnostic iff every follower shares the head's level |
| `Reorder.StepEffect` | data.js:578-583 | one iteration with both keys present: a follower on the head's level gets the hint for its index; any other follower is kept as it is; nothing else changes |
| `Reorder.RunHints` | data.js:577-580 | with the head not among the followers, each follower on the head's level holds the hint for the last position at which it appears |
| `Reorder.HintsStep` | data.js:577-580 | one more iteration preserves the hints of earlier last occurrences |
| `Reorder.RunKeepsOtherLevels` | data.js:581-583 | a follower on another level keeps its whole record |
| `Reorder.KeepOtherLevelsStep` | data.js:581-583 | one more iteration keeps the followers on other levels untouched |
| `Reorder.RunKeepsMonotone` | data.js:575-585 | a pass keeps every edge pointing downwards |
| `Reorder.ReorderAligned` | data.js:575-585 | when the head and distinct followers are registered on one level: no throw, no diagnostic, follower `i` gets the hint for position `i`, every other record is kept |
| `Reorder.AlignedHints` | data.js:577-580 | the hint part of `ReorderAligned` |
| `Reorder.HintFromZero` | data.js:580 | the hint under anchor 0 is the text `"0" + i + "1"`, made of digits, whose numeric value is `10 * i + 1` |
| `Reorder.HintInjective` | data.js:580 | one anchor never gives two positions the same hint |
| `Reorder.HeadAmongFollowers` | data.js:576-580 | when the head is also a follower, `left` and `right` are one object: with head `a`, followers `[a, b]`, one level and hints 0, `a` gets `"001"` and then `b` gets `"00111"`, built from `a`'s new hint |
| `Decimal.NatToString` | data.js:580 | JavaScript's text for a natural number below 10^21: non-empty digits, with no leading zero except for 0 itself |
| `Decimal.IntToString` | data.js:580 | JavaScript's text for an integer of magnitude below 10^21: for a non-negative number, digits whose value is the number, with no leading zero except for 0; for a negative one, `-` followed by such digits for its magnitude |
| `Decimal.ValueOfNatToString` | data.js:580 | reading the text back as a number gives the number |
| `Decimal.NatToStringInjective` | data.js:580 | distinct numbers have distinct texts |
| `Decimal.ValueLeadingZero` | data.js:580 | a leading `0` does not change the value of a digit string |
| `Decimal.ValueAppendDigit` | data.js:580 | appending a digit multiplies the value by ten and adds the digit |
| `Scenario.FitsIntro` | data.js:43-593 | a claimed outcome that fits every definition and every reorder call, checked one at a time, fits the whole script, and the script only requires earlier topics |
| `Scenario.KeySetSize` | data.js:37 | distinct ids give a table of exactly that many keys |
| `Scenario.DefineFresh` | data.js:37 | with distinct ids, the next topic's id is not yet registered |
| `Scenario.DefineLevel` | data.js:23 | levels that fit the recurrence are the ones `LevelOf` computes |
| `Scenario.DefineStep` | data.js:17-39 | in the script, each definition's id is fresh and its computed level is the claimed one (or the value to be forced, before the direct write) |
| `Scenario.DefineStepAfter` | data.js:37 | storing that record extends the registered prefix by one |
| `Scenario.DefineOne` | data.js:17-39 | one `defineTopic` call of the script succeeds, returns the next id, keeps the edges pointing downwards and extends the registered prefix |
| `Scenario.DefineRange` | data.js:43-572 | a run of consecutive `defineTopic` calls returns their ids in order and registers them all |
| `Scenario.RaiseStep` | data.js:409 | the forced topic is registered, is a root and is nobody's prerequisite, and forcing its level gives the claimed state |
| `Scenario.RaiseOne` | data.js:409 | the direct write does not throw (its returned failure is `None`), keeps the edges pointing downwards and gives the claimed state |
| `Scenario.DefineAll` | data.js:43-572 | a fresh table after all definitions and the direct write holds every topic on its claimed level |
| `Scenario.ReorderArguments` | data.js:588-593 | each reorder call's followers are distinct ids and exclude the head |
| `Scenario.ReorderEntry` | data.js:575-585 | one reorder call leaves each topic with the hint the outcome records for it after that call |
| `Scenario.ReorderStep` | data.js:588-593 | each reorder call of the script succeeds without a diagnostic and advances the claimed state by one call |
| `Scenario.StartReorder` | data.js:409-588 | the state after the definitions is the claimed state before the first reorder call |
| `Scenario.ReorderAll` | data.js:588-593 | no reorder call throws (one `None` failure per call), all together log nothing, and they reach the claimed final state |
| `Scenario.RunScript` | data.js:43-593 | the whole script logs nothing, keeps the edges pointing downwards and ends in the claimed state |
| `ScalaTree.DefinitionAt` | data.js:43-572 | the script's data, not a claim: the `category_` and `requires_` arguments of the `k`-th `defineTopic` call, prerequisites as positions of earlier calls; `None` for the undefined `Category.collections` at data.js:495 |
| `ScalaTree.ScalaTreeScript` | data.js:43-593 | the script's data, not a claim: the 38 definitions of `DefinitionAt` in call order, the write `topics[builder].level = 4` of data.js:409 as position and level, and the six `reorderLevel` calls of data.js:588-593 as head and follower positions, in order |
| `ScalaTree.FunctionsFit` | data.js:43-94 | these definitions' claimed levels follow the level recurrence; their follower places are right |
| `ScalaTree.TypesFit` | data.js:95-160 | likewise for these definitions |
| `ScalaTree.AlgebraFits` | data.js:162-253 | likewise for these definitions |
| `ScalaTree.MonadsFit` | data.js:254-348 | likewise for these definitions |
| `ScalaTree.StandardLibraryFits` | data.js:350-409 | likewise for these definitions, with `builder` forced to 4 |
| `ScalaTree.CollectionsFit` | data.js:411-460 | likewise for these definitions |
| `ScalaTree.CollectionBuildersFit` | data.js:461-503 | likewise for these definitions |
| `ScalaTree.VarianceToActorsFit` | data.js:505-572 | likewise for these definitions |
| `ScalaTree.EarlyReordersFit` | data.js:588-589 | both calls pair topics of equal level |
| `ScalaTree.MiddleReordersFit` | data.js:590-591 | both calls pair topics of equal level |
| `ScalaTree.LateReordersFit` | data.js:592-593 | both calls pair topics of equal level |
| `ScalaTree.ScalaTreeFits` | data.js:43-593 | the claimed outcome fits the whole script |
| `ScalaTree.ClaimedLevels` | data.js:43-572 | the levels listed above for Function, Currying, Function Types, Monad, Free Monad, Collections, Builder, Iterable, Seq, Variance, For-comprehension and Collection builders |
| `ScalaTree.Build` | data.js:43-593 | the build logs no mismatch; it registers exactly 38 topics with every edge pointing downwards; each topic is stored under its name's id with its own name, description and sources, on its claimed level, with the hint of its reorder call |
| `ScalaTreeNames.NameAt` | data.js:44-565 | the script's data, not a claim: the `name` argument of the `k`-th `defineTopic` call, as written |
| `ScalaTreeNames.Names` | data.js:44-565 | the script's data, not a claim: the 38 `name` arguments in call order |
| `ScalaTreeNames.IdOfFunctions` | data.js:44 | `Function` gets the id `function` |
| `ScalaTreeNames.IdOfCurrying` | data.js:52 | `Currying` gets the id `currying` |
| `ScalaTreeNames.IdOfStandardLibrary` | data.js:62 | `Standard Library` gets the id `standard-library` |
| `ScalaTreeNames.IdOfTypes` | data.js:74 | `Types` gets the id `types` |
| `ScalaTreeNames.IdOfFunctionTypes` | data.js:82 | `Function Types` gets the id `function-types` |
| `ScalaTreeNames.IdOfParametricTypes` | data.js:96 | `Parametric Types` gets the id `parametric-types` |
| `ScalaTreeNames.IdOfImplicits` | data.js:110 | `Implicits` gets the id `implicits` |
| `ScalaTreeNames.IdOfTypeClasses` | data.js:126 | `Type Classes` gets the id `type-classes` |
| `ScalaTreeNames.IdOfLifting` | data.js:148 | `Lifting` gets the id `lifting` |
| `ScalaTreeNames.IdOfAlgebra` | data.js:163 | `Algebra` gets the id `algebra` |
| `ScalaTreeNames.IdOfSemigroup` | data.js:178 | `Semigroup` gets the id `semigroup` |
| `ScalaTreeNames.IdOfMonoid` | data.js:192 | `Monoid` gets the id `monoid` |
| `ScalaTreeNames.IdOfFunctor` | data.js:206 | `Functor` gets the id `functor` |
| `ScalaTreeNames.IdOfContravariant` | data.js:234 | `Contravariant Functor` gets the id `contravariant-functor` |
| `ScalaTreeNames.IdOfApplicative` | data.js:255 | `Applicative Functor` gets the id `applicative-functor` |
| `ScalaTreeNames.IdOfMonad` | data.js:271 | `Monad` gets the id `monad` |
| `ScalaTreeNames.IdOfFreeAlgebra` | data.js:297 | `Free Algebra` gets the id `free-algebra` |
| `ScalaTreeNames.IdOfFreeMonoid` | data.js:314 | `Free Monoid` gets the id `free-monoid` |
| `ScalaTreeNames.IdOfFreeMonad` | data.js:333 | `Free Monad` gets the id `free-monad` |
| `ScalaTreeNames.IdOfTuple` | data.js:351 | `Tuple` gets the id `tuple` |
| `ScalaTreeNames.IdOfEither` | data.js:361 | `Either` gets the id `either` |
| `ScalaTreeNames.IdOfOption` | data.js:371 | `Option` gets the id `option` |
| `ScalaTreeNames.IdOfTryScala` | data.js:381 | `Try` gets the id `try` |
| `ScalaTreeNames.IdOfCollections` | data.js:391 | `Collections` gets the id `collections` |
| `ScalaTreeNames.IdOfBuilder` | data.js:403 | `Builder` gets the id `builder` |
| `ScalaTreeNames.IdOfIterable` | data.js:412 | `Iterable` gets the id `iterable` |
| `ScalaTreeNames.IdOfSeq` | data.js:422 | `Seq` gets the id `seq` |
| `ScalaTreeNames.IdOfSet` | data.js:432 | `Set` gets the id `set` |
| `ScalaTreeNames.IdOfMap` | data.js:442 | `Map` gets the id `map` |
| `ScalaTreeNames.IdOfVector` | data.js:452 | `Vector` gets the id `vector` |
| `ScalaTreeNames.IdOfList` | data.js:462 | `List` gets the id `list` |
| `ScalaTreeNames.IdOfCollectionBuilders` | data.js:492 | `Collection builders` gets the id `collection-builders` |
| `ScalaTreeNames.IdOfVariance` | data.js:506 | `Variance` gets the id `variance` |
| `ScalaTreeNames.IdOfForComprehension` | data.js:532 | `For-comprehension` gets the id `for-comprehension` |
| `ScalaTreeNames.IdOfActor` | data.js:557 | `Actor` gets the id `actor` |
| `ScalaTreeNames.IdOfAkkaActor` | data.js:565 | `Akka Actor` gets the id `akka-actor` |
| `ScalaTreeNames.FunctionNames` | data.js:43-94 | each name defined in these lines normalises to its listed id |
| `ScalaTreeNames.TypeNames` | data.js:95-160 | each name defined in these lines normalises to its listed id |
| `ScalaTreeNames.AlgebraNames` | data.js:162-253 | each name defined in these lines normalises to its listed id |
| `ScalaTreeNames.MonadNames` | data.js:254-348 | each name defined in these lines normalises to its listed id |
| `ScalaTreeNames.StandardLibraryNames` | data.js:350-409 | each name defined in these lines normalises to its listed id |
| `ScalaTreeNames.CollectionNames` | data.js:411-460 | each name defined in these lines normalises to its listed id |
| `ScalaTreeNames.CollectionBuilderNames` | data.js:461-503 | each name defined in these lines normalises to its listed id |
| `ScalaTreeNames.VarianceToActorNames` | data.js:505-572 | each name defined in these lines normalises to its listed id |
| `ScalaTreeNames.NameIds` | data.js:44-565 | every name of the script normalises to its listed id |
| `ScalaTreeNames.IdsDiffer` | data.js:44-565 | the 38 listed ids are pairwise different |
| `ScalaTreeNames.NamesDistinct` | data.js:18-37 | no two names of the script share an id, so no definition overwrites another |
| `ScalaTreeNames.HeadlineLevels` | data.js:43-572 | a table holding every topic on its claimed level puts Function at 1, Currying at 2, Function Types at 3, Monad at 5, Free Monad at 6, Collections at 3, Builder at 4, Iterable at 4, Seq at 5, Variance at 5, For-comprehension at 6 and Collection builders at 7 |
| `ScalaTreeNames.BuildScalaTree` | data.js:43-593 | the build on the script's own names logs no mismatch and registers exactly 38 topics, each under its listed id with its name, every edge pointing downwards; the registry then holds `for-comprehension` at level 6, `collection-builders` at 7, `builder` at 4 and the other headline levels |

## Left out

- `ScalaTreeNames.BuildScalaTree`: the descriptions and source lists are parameters, not the literal texts of `data.js`. They are inert data that the build only copies into the records.
- `ScalaTree.Build`: its `ensures` does not restate each topic's category, prerequisite list, `label` (`displayLabel`) or `group`. `Scenario.RunScript` states all four, through the records that `Scenario.Entry` builds.
- `Decimal.IntToString`: exponent notation (`String(1e21)` is `"1e+21"`) and the limits of double precision are not modelled. Every number is written out in plain digits. The only numbers `data.js` turns into text are the initial `hsort` 0, the array indices and the literal `1` at data.js:580, and the two levels in the log line at data.js:582, which the model keeps as numbers in `Mismatch`. All of them are far below both limits.
- `defineSource` (data.js:12-15) and the description texts are inert link and markup data. Sources are an opaque `seq<Source>`.
- The `console.log` of data.js:582 is I/O. It is modelled as the returned list of `Mismatch` values.
- vis.js rendering, and what `label` and `group` mean to it: an external library. These fields are kept as plain copies.
- `toLowerCase` is modelled for ASCII only. Non-ASCII letters fall outside `[a-z]` either way, except the few that lower-case into it, such as the Kelvin sign.
- `Math.max` is modelled on unbounded integers. Floating point and `NaN` do not arise for these levels.
- The TypeError is modelled as `NotFound(key)`, not as its message text.
- Keys inherited from the object prototype, such as `constructor`, are not modelled. A JavaScript `topics[...]` lookup would find them; here a key that was never defined is always missing.
- The implicit global `idx` that `for (idx in tail)` creates in sloppy mode is a scoping artefact. It has no bearing on the data.
- The build script is modelled as data, a `Script` value, run by `Scenario`'s methods in source order. It is not 38 separate straight-line calls.

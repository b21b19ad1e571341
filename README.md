# AstroQuiz question engine and quiz session, in Dafny

This project models the quiz core of AstroQuiz, a multiple-choice astrology
quiz:

- the static dataset of 11 planets, 12 signs, 12 houses and 11 aspects;
- the question generators for the four categories in the easy and hard modes;
- the answer-option synthesiser `getUniqueOptions`;
- the shared helpers: shuffle, capitalisation and ordinal suffixes;
- the assembler `generateQuiz`;
- the session state of the `Quiz` component, the answer card `QuizCard` and
  the `CategorySelector` toggle.

The modules follow the program's structure:

- `Prelude` holds sequences, string joining, decimal numerals and deduplication.
- `Database` holds the dataset as constants. It also has predicates that
  state the data invariants the generators rely on, and lemmas that prove
  them of the shown data.
- `CategorySelector` models the selection toggle, the button captions and
  the button icons.
- `QuizHelpers` models `shuffleArray`, `capitalizeFirstLetter`,
  `getUniqueOptions` and `getOrdinalSuffix`.
- `QuizDrafts` holds what each `forEach` callback computes for one entity:
  the prompt, the answer, and either a candidate pool or a fixed option list.
  All of this is pure.
- `QuizGenerator` holds the imperative part. A loop per block pushes
  questions with a running id. One method per generator runs its blocks, and
  `generateQuiz` assembles the pool, shuffles it and cuts it.
- `QuizCard` models the card state: a `class Card` with the selection and
  the answered flag. The rendered class names, the feedback and the caption
  of the next button are pure functions.
- `QuizSession` holds `class Session`, the React state of `Quiz` with one
  method per handler. It also holds `class Screen`, which couples the session
  with the card that is mounted while a question is shown.

`Math.random()` becomes a tape of natural numbers read from a cursor. A draw
among `n` alternatives at cursor `p` is `tape(p) % n`. Every method that
draws takes the tape and the cursor, and returns the advanced cursor. The
contracts therefore hold for every possible sequence of draws.

Over the shown data every generator yields at least 11 questions in either
mode, for any draws. So every non-empty category selection yields a full
quiz of ten.

Where the code and the intent stated by its own names and comments
disagree, the model follows the code:

- `getUniqueOptions` (quizGenerator.ts:30-31) is named and commented as
  returning `count + 1` unique options with the answer among them. The code
  guarantees uniqueness, and the answer occurring once, only when no input
  looks like one of its own filler strings (see "Left out"). Over the shown
  data no value looks like a filler, so every question the quiz asks does
  have distinct options with the answer exactly once.
- `CategorySelector` (CategorySelector.tsx:14-22) treats the selection as a
  set: one button per category, membership checked with `includes`. The code
  stores a list, and removing a category from a list with a repeated entry
  can empty it. The selection the app starts with has no repeats, and the
  picker never adds one.

## Model

| member | source | states |
|---|---|---|
| QuizHelpers.Pick | src/utils/quizGenerator.ts:18 | a random pick among `n` alternatives is below `n` |
| QuizHelpers.Shuffle | src/utils/quizGenerator.ts:15-22 | the result is a rearrangement of the input: same length, same multiset; one draw per position above 0 |
| QuizHelpers.UpperCase | src/utils/quizGenerator.ts:27 | ASCII lower-case letters map to their upper-case letter, every other character is unchanged |
| QuizHelpers.Capitalize | src/utils/quizGenerator.ts:25-28 | the empty string is returned unchanged; otherwise only the first character is upper-cased and the rest is kept |
| QuizHelpers.CapitalizeIdempotent | src/utils/quizGenerator.ts:25-28 | capitalising twice is the same as capitalising once |
| QuizHelpers.OptionFillers | src/utils/quizGenerator.ts:51-54 | each `Option n` filler with 1 <= n <= count belongs to the filler set |
| QuizHelpers.AdditionalFillers | src/utils/quizGenerator.ts:63-66 | each `Additional Option n` filler with 1 <= n <= count belongs to the filler set |
| QuizHelpers.TakeDistinct | src/utils/quizGenerator.ts:40-48 | the greedy pass keeps at most `count` distinct candidates, and keeps all of them when it stops short |
| QuizHelpers.EnoughCandidates | src/utils/quizGenerator.ts:40-48 | with at least `count` distinct candidates the greedy pass keeps exactly `count` |
| QuizHelpers.PadWithOptions | src/utils/quizGenerator.ts:51-54 | the kept candidates are followed by `Option k+1` at every missing position k, up to `count` |
| QuizHelpers.PadWithAdditional | src/utils/quizGenerator.ts:63-66 | the deduplicated options are followed by `Additional Option k` at every position k, up to `count + 1` |
| QuizHelpers.GetUniqueOptions | src/utils/quizGenerator.ts:31-70 | the result is an option set: exactly `count + 1` options including the answer; every other option is a pool candidate or a filler; no filler when the pool has `count` distinct candidates; the answer occurs once and there are no duplicates unless an input looks like a filler |
| QuizHelpers.OptionSetHolds | src/utils/quizGenerator.ts:31-70 | the stages of the synthesiser (filter, shuffle, greedy pass, padding, mix, `Set`, second padding, shuffle) together produce an option set |
| QuizHelpers.OptionSetMembers | src/utils/quizGenerator.ts:33-69 | the options number `count + 1`, include the answer, and come from the pool or the filler series |
| QuizHelpers.OptionSetMultiplicity | src/utils/quizGenerator.ts:57-69 | the answer occurs once unless it is an `Additional Option` filler; no duplicates unless an input is an `Option` filler |
| QuizHelpers.CorrectOnce | src/utils/quizGenerator.ts:60-69 | once deduplicated, the answer stays unique through the second padding and the final shuffle |
| QuizHelpers.CandidatesOfPool | src/utils/quizGenerator.ts:33-37 | the shuffled candidates are exactly the pool without the answer |
| QuizHelpers.DistractorsFrom | src/utils/quizGenerator.ts:50-54 | every distractor is a kept candidate or an `Option n` filler |
| QuizHelpers.OptionsFrom | src/utils/quizGenerator.ts:57-66 | every final option is the answer, a distractor or an `Additional Option n` filler, and the answer survives deduplication |
| QuizHelpers.NoPaddingWhenDistinct | src/utils/quizGenerator.ts:60-66 | a duplicate-free mix loses nothing to `Set`, and no second padding happens |
| QuizHelpers.FillersDistinct | src/utils/quizGenerator.ts:50-57 | answer, candidates and `Option n` fillers are pairwise different when no input looks like an `Option n` filler |
| QuizHelpers.DistinctFillersStep | src/utils/quizGenerator.ts:50-57 | any two positions of answer plus distractors differ, under the same condition |
| QuizHelpers.DistinctWithCorrect | src/utils/quizGenerator.ts:57 | distinct candidates other than the answer, with the answer in front, are duplicate-free |
| QuizHelpers.OnceInPadded | src/utils/quizGenerator.ts:63-66 | appending `Additional Option n` fillers keeps the answer's multiplicity at one |
| QuizHelpers.JsRem | src/utils/quizGenerator.ts:969-970 | JavaScript `%`: the Euclidean remainder for non-negative dividends, and the negated remainder of the magnitude for negative ones |
| QuizHelpers.OrdinalSuffix | src/utils/quizGenerator.ts:968-982 | the suffix is one of st, nd, rd, th |
| QuizHelpers.OrdinalSuffixByDigits | src/utils/quizGenerator.ts:968-982 | st, nd or rd exactly when the last digit is 1, 2 or 3 and the tens digit is not 1; th otherwise, and always th for negative numbers |
| QuizHelpers.HouseOrdinals | src/utils/quizGenerator.ts:724 | houses 1 to 12 read 1st, 2nd, 3rd, then 4th to 12th |
| Database.MajorAspects | src/utils/quizGenerator.ts:828-830 | the major aspects are exactly the aspects flagged major |
| Database.ShownPlanetsWellFormed | src/utils/database.ts:49-150 | 11 planets with distinct names, each with archetypes, needs and descriptors |
| Database.ShownArchetypesListed | src/utils/database.ts:49-150 | every shown planet has at least one archetype and none is empty |
| Database.ShownPlanetRelationships | src/utils/database.ts:120-149 | Chiron has none of the four relationship lists; Uranus, Neptune and Pluto have no exaltation and no fall; all other lists are present and non-empty |
| Database.ShownSignsWellFormed | src/utils/database.ts:153-298 | 12 signs with distinct names, canonical polarity, element and modality, and a non-empty first domicile entry |
| Database.ShownHousesWellFormed | src/utils/database.ts:301-378 | houses numbered 1 to 12 in order, each of one of the three types, the first three Angular, Succedent and Cadent, so every type is classified |
| Database.ShownTypesClassified | src/utils/database.ts:301-378 | houses of the three shown types are classified by their kind prefix |
| Database.ShownAspectsWellFormed | src/utils/database.ts:381-492 | 11 aspects with distinct names and degrees between 0 and 180 |
| Database.ShownMajorAspects | src/utils/database.ts:381-492 | the major aspects are Conjunction, Sextile, Square, Trine and Opposition, in that order |
| CategorySelector.Without | src/components/CategorySelector.tsx:18 | removing a category keeps exactly the other entries, and removing an absent category changes nothing |
| CategorySelector.ToggleCategory | src/components/CategorySelector.tsx:14-23 | a selected category is removed unless it is the only entry, which leaves the selection unchanged; an unselected category is appended |
| CategorySelector.ToggleNeverEmpties | src/components/CategorySelector.tsx:16-19 | a non-empty, duplicate-free selection never becomes empty |
| CategorySelector.DuplicateSelectionEmpties | src/components/CategorySelector.tsx:17-18 | a selection with a repeated entry can be emptied: `[planet, planet]` toggled on planet gives `[]` |
| CategorySelector.ToggleKeepsDistinct | src/components/CategorySelector.tsx:14-23 | a duplicate-free selection stays duplicate-free |
| CategorySelector.WithoutDistinct | src/components/CategorySelector.tsx:18 | removing a category from a duplicate-free selection keeps it duplicate-free |
| CategorySelector.DisabledIffNoChange | src/components/CategorySelector.tsx:52 | a button is disabled exactly when clicking it would change nothing |
| CategorySelector.CategoryLabel | src/components/CategorySelector.tsx:25-32 | the caption is one of Planets, Signs, Houses, Aspects |
| CategorySelector.CategoryIcon | src/components/CategorySelector.tsx:34-41 | the icon is one of the four category emoji |
| CategorySelector.CategoryLabelsDistinct | src/components/CategorySelector.tsx:25-41 | captions and icons in display order, with no caption or icon shared by two categories |
| QuizDrafts.BlocksCategories | src/utils/quizGenerator.ts:73-965 | every block of a generator asks about that generator's category |
| QuizDrafts.Filtered | src/utils/quizGenerator.ts:828-830 | hard mode asks about all aspects; easy mode asks only about the major ones |
| QuizDrafts.PickItem | src/utils/quizGenerator.ts:287-289 | the hard-mode pick is the item at `draw % length`, or none when the list is empty or the item is the empty string |
| QuizDrafts.PlanetName | src/utils/quizGenerator.ts:94 | "the " is put before Sun and Moon and before no other planet |
| QuizDrafts.EasyPlanetDraft | src/utils/quizGenerator.ts:77-272 | an easy planet callback yields no question or one with a candidate pool, in the planet category |
| QuizDrafts.HardPlanetDraft | src/utils/quizGenerator.ts:274-505 | a hard planet callback yields no question or one with a candidate pool, in the planet category |
| QuizDrafts.RulerOf | src/utils/quizGenerator.ts:521 | the ruler answer is the first domicile entry, or "Unknown" without one |
| QuizDrafts.SignDraft | src/utils/quizGenerator.ts:511-699 | sign questions are in the sign category; fixed option lists have at least two entries and hold the answer when the sign's values are canonical |
| QuizDrafts.KindExample | src/utils/quizGenerator.ts:791-793 | the type of the first house of that kind, or the bare kind when no house has it |
| QuizDrafts.HouseTypeOptions | src/utils/quizGenerator.ts:790-804 | three different options, one per kind in the order Angular, Succedent, Cadent, holding the asked type whenever it is classified |
| QuizDrafts.HouseDraft | src/utils/quizGenerator.ts:702-820 | house questions are in the house category; the type question offers three options that hold the answer when the type is classified |
| QuizDrafts.AspectDraft | src/utils/quizGenerator.ts:823-965 | an aspect callback yields no question or one with a candidate pool, in the aspect category |
| QuizDrafts.DraftCategory | src/utils/quizGenerator.ts:73-965 | every question a block's callback yields carries the block's category |
| QuizDrafts.PlanetDraftOutcome | src/utils/quizGenerator.ts:131-505 | a planet callback returns early exactly on an empty descriptor list or an absent or empty relationship list; otherwise easy mode always asks, and hard mode asks exactly when its pick is non-empty |
| QuizDrafts.ShownPlanetSkips | src/utils/quizGenerator.ts:161-248 | with the shown planets only relationship blocks skip: Chiron in all four, Uranus, Neptune and Pluto in exaltation and fall |
| QuizDrafts.ShownPlanetNames | src/utils/quizGenerator.ts:94 | with the shown planets only the first two, Sun and Moon, get the article |
| QuizDrafts.PlanetPromptNames | src/utils/quizGenerator.ts:94 | the displayed name starts with "the " exactly for Sun, Moon, or a name already starting with "the " |
| QuizDrafts.RulerDraft | src/utils/quizGenerator.ts:519-535 | the ruler question's answer is the first domicile entry or "Unknown", and its candidate pool has no duplicates |
| QuizDrafts.ShownRulers | src/utils/database.ts:153-298 | every shown sign has a ruler, so the "Unknown" fallback is never taken |
| QuizDrafts.SignFixedOptions | src/utils/quizGenerator.ts:641-695 | the modality, element and polarity questions offer the same unshuffled list for every sign, holding the answer when the values are canonical |
| QuizDrafts.ShownHouseTypeOptions | src/utils/quizGenerator.ts:788-816 | with the shown houses every type question offers the three shown types in order, and no substitution happens |
| QuizDrafts.CyclingHouseTypes | src/utils/quizGenerator.ts:790-804 | houses of the three shown types, starting with one of each kind, offer exactly these types for every house |
| QuizDrafts.QualityIndex | src/utils/quizGenerator.ts:884-893 | the answer's position lies within the list of all combinations |
| QuizDrafts.QualitiesCombination | src/utils/quizGenerator.ts:873-893 | the shared-qualities answer is the list entry for exactly the flags that hold |
| QuizDrafts.QualitiesNone | src/utils/quizGenerator.ts:878-881 | "No shared qualities" exactly when no flag holds |
| QuizDrafts.QualitiesInjective | src/utils/quizGenerator.ts:873-881 | different flags always give different answers |
| QuizDrafts.QualitiesPool | src/utils/quizGenerator.ts:884-899 | the answer is one of the combinations, and the candidates are exactly the other seven |
| QuizDrafts.EasyAspectsMajor | src/utils/quizGenerator.ts:828-830 | easy mode asks only about major aspects of the collection |
| QuizDrafts.NeverSkipped | src/utils/quizGenerator.ts:73-965 | the blocks without an early return or a pick guard always yield a question |
| QuizDrafts.ListedArchetypesAsk | src/utils/quizGenerator.ts:276-306 | the hard archetype callback passes its `if (randomArchetype)` guard for any draw when the planet's archetypes are all non-empty |
| QuizGenerator.Pushes | src/utils/quizGenerator.ts:96-102 | one callback pushes at most one question |
| QuizGenerator.Planned | src/utils/quizGenerator.ts:81-103 | a block pushes at most one question per entity |
| QuizGenerator.Realise | src/utils/quizGenerator.ts:91-102 | the pushed question has the given id, the draft's text, answer and category, and an option set built from its pool |
| QuizGenerator.EmitEntity | src/utils/quizGenerator.ts:81-103 | one callback pushes its draft's question, or nothing: at most one question, carrying the current id |
| QuizGenerator.EmitBlock | src/utils/quizGenerator.ts:81-103 | a block's loop pushes its plan in entity order with consecutive ids, and the counter ends past the last one |
| QuizGenerator.EmitBlocks | src/utils/quizGenerator.ts:73-508 | a generator's blocks push their plans one after another and share one id counter |
| QuizGenerator.RunBlocks | src/utils/quizGenerator.ts:73-508 | a generator's questions realise its plan, the k-th carrying id base + k |
| QuizGenerator.PlanetQuestionsFrom | src/utils/quizGenerator.ts:73-508 | the questions realise the blocks' plan with ids 1, 2, ...; over clean collections each is well shaped (the answer exactly once among two to four different options, four for planets and aspects, at least three for houses); at most 7 times as many questions as planets in total, and at least as many as planets in easy mode or when every archetype list is non-empty with no empty entry |
| QuizGenerator.SignQuestionsFrom | src/utils/quizGenerator.ts:511-699 | the questions realise the blocks' plan with ids 1000, 1001, ...; over clean collections each is well shaped; in total between 1 and 4 times as many questions as signs |
| QuizGenerator.HouseQuestionsFrom | src/utils/quizGenerator.ts:702-820 | the questions realise the blocks' plan with ids 2000, 2001, ...; over clean collections each is well shaped with at least three options; in total between 1 and 3 times as many questions as houses |
| QuizGenerator.AspectQuestionsFrom | src/utils/quizGenerator.ts:823-965 | the questions realise the blocks' plan with ids 3000, 3001, ...; over clean collections each is well shaped with four options; in total at most 4 times as many questions as aspects, at least as many as the aspects of the mode, and exactly 4 times the number of major aspects in easy mode |
| QuizGenerator.GeneratePlanetQuestions | src/utils/quizGenerator.ts:73-508 | over the shown planets: between 11 and 77 planet questions with ids 1, 2, ..., each with four different options holding the answer exactly once |
| QuizGenerator.GenerateSignQuestions | src/utils/quizGenerator.ts:511-699 | over the shown signs: between 12 and 48 sign questions with ids 1000, 1001, ..., each with two to four different options holding the answer exactly once |
| QuizGenerator.GenerateHouseQuestions | src/utils/quizGenerator.ts:702-820 | over the shown houses: between 12 and 36 house questions with ids 2000, 2001, ..., each with three or four different options holding the answer exactly once |
| QuizGenerator.GenerateAspectQuestions | src/utils/quizGenerator.ts:823-965 | over the shown aspects: between 11 and 44 aspect questions with ids from 3000, exactly 20 in easy mode, each with four different options holding the answer exactly once |
| QuizGenerator.OfCategory | src/utils/quizGenerator.ts:1009 | the questions of one category: exactly the members of that category |
| QuizGenerator.CollectPool | src/utils/quizGenerator.ts:991-1009 | split by category the pool gives back, in the order planet, sign, house, aspect, exactly the output of each selected generator and nothing of the others; so it holds only well-shaped questions of the selected categories, in increasing id order, 20 aspect questions in easy mode, and at least 11 whenever a category is selected |
| QuizGenerator.SomeCategory | src/utils/quizGenerator.ts:991-1009 | a non-empty selection names one of the four generators |
| QuizGenerator.GenerateQuiz | src/utils/quizGenerator.ts:985-1014 | `min(questionCount, pool size)` questions (slice semantics for negative counts), drawn from the pool without repetition and with distinct ids, all of the selected categories and well shaped; the pool is exactly the selected generators' outputs in order, with at least 11 questions whenever a category is selected |
| QuizGenerator.AscendingDistinct | src/utils/quizGenerator.ts:1013 | questions with increasing ids are pairwise different |
| QuizGenerator.CutOfShuffle | src/utils/quizGenerator.ts:1013 | a prefix of the shuffled pool is a sub-multiset of the pool without repeated questions |
| QuizGenerator.DrawnIdsUnique | src/utils/quizGenerator.ts:1013 | different questions drawn from an ascending pool have different ids |
| QuizGenerator.AppendDelivered | src/utils/quizGenerator.ts:993-1007 | appending a generator's questions above the current ids keeps the ids increasing |
| QuizGenerator.PlannedShape | src/utils/quizGenerator.ts:73-965 | every draft a block pushes is in the block's category and, when fixed, well shaped |
| QuizGenerator.CallbackSound | src/utils/quizGenerator.ts:73-965 | every callback of a block returns no question or a sound one |
| QuizGenerator.PlannedSound | src/utils/quizGenerator.ts:81-103 | a loop over a callback that yields only sound drafts pushes only sound drafts |
| QuizGenerator.PlanStep | src/utils/quizGenerator.ts:73-508 | a generator's plan is its first blocks' plan followed by the last block's |
| QuizGenerator.PlannedBlocksShape | src/utils/quizGenerator.ts:73-508 | every draft of a generator is sound for its category |
| QuizGenerator.PlannedBlocksSound | src/utils/quizGenerator.ts:73-508 | blocks with sound plans make a sound plan together |
| QuizGenerator.EmittedDelivers | src/utils/quizGenerator.ts:96-102 | questions realising a sound plan are delivered well shaped with consecutive ids |
| QuizGenerator.BlocksDeliver | src/utils/quizGenerator.ts:73-965 | a generator's questions are delivered well shaped, at most one per entity and block |
| QuizGenerator.PlannedNeverSkips | src/utils/quizGenerator.ts:81-103 | a block that never returns early pushes one question per entity |
| QuizGenerator.PlannedListedArchetypes | src/utils/quizGenerator.ts:276-306 | in hard mode the archetype block pushes one question per planet when the archetypes are listed |
| QuizGenerator.PlanCovers | src/utils/quizGenerator.ts:73-965 | a generator pushes at least as many questions as any one of its blocks |
| QuizGenerator.PlannedBlocksCover | src/utils/quizGenerator.ts:73-965 | the drafts of a run of blocks are at least as many as those of any one block |
| QuizGenerator.PlannedAll | src/utils/quizGenerator.ts:81-103 | a callback that always asks pushes one draft per draw |
| QuizGenerator.PlannedBlocksAtMost | src/utils/quizGenerator.ts:73-508 | blocks with at most `n` entities push at most `n` questions each |
| QuizGenerator.PlannedBlocksExact | src/utils/quizGenerator.ts:833-961 | blocks over exactly `n` entities that never return early push exactly `n` each |
| QuizGenerator.PlannedBlocksEach | src/utils/quizGenerator.ts:833-961 | blocks that push `n` drafts each push `n` per block together |
| QuizSession.Screen.ToggleCategoryButton | src/components/CategorySelector.tsx:14-23 | a category click on the start or results page leaves the selection as the picker's toggle makes it; the selection stays non-empty and duplicate-free, the clicked category is selected afterwards exactly when it was not before or was the only one, and nothing else changes |
| QuizGenerator.PoolAssembled | src/utils/quizGenerator.ts:991-1009 | four generator outputs concatenated form an assembled pool of selected, well-shaped questions with increasing ids, at least 11 when a category is selected |
| QuizGenerator.PoolOrdered | src/utils/quizGenerator.ts:991-1009 | the concatenated outputs are all of the selected categories and well shaped, with increasing ids |
| QuizGenerator.PoolParts | src/utils/quizGenerator.ts:991-1009 | the part of each category of the concatenation is exactly that category's generator output |
| QuizGenerator.OnlyPart | src/utils/quizGenerator.ts:1009 | the part of one category is the middle piece when only it carries the category |
| QuizGenerator.OfCategoryAppend | src/utils/quizGenerator.ts:1009 | selecting a category distributes over concatenation |
| QuizGenerator.RealisedWellShaped | src/utils/quizGenerator.ts:31-70 | a sound draft realised as a question gives the answer exactly once among different options, four for a synthesised option set |
| QuizDrafts.PlanetDraftSources | src/utils/quizGenerator.ts:77-505 | the answer of a planet question is the planet's own value (joined list, or an item in hard mode); every candidate is a value of another planet, and every non-empty value of another planet that the block does not skip is a candidate |
| QuizDrafts.OtherPlanetsAre | src/utils/quizGenerator.ts:86-480 | the other planets of a block are exactly those with another name that the block does not skip |
| QuizDrafts.EasyPlanetSources | src/utils/quizGenerator.ts:77-272 | easy planet questions take their answer from the planet and their candidates from exactly the other planets' values |
| QuizDrafts.HardPlanetSources | src/utils/quizGenerator.ts:274-505 | hard planet questions take their answer from the planet's items and their candidates from exactly the other planets' items |
| QuizDrafts.HardPlanetPoolFrom | src/utils/quizGenerator.ts:274-505 | every hard-mode candidate is an item of another planet |
| QuizDrafts.HardPlanetPoolHas | src/utils/quizGenerator.ts:274-505 | every non-empty item of another planet that takes part is a hard-mode candidate |
| QuizDrafts.PoolOfValues | src/utils/quizGenerator.ts:86-88 | mapping the other entities gives exactly their values |
| QuizDrafts.PoolOfItems | src/utils/quizGenerator.ts:380-386 | flattening the other entities' lists gives exactly their items |
| QuizDrafts.CapitalizedItems | src/utils/quizGenerator.ts:25-28 | the capitalised items are exactly the capitalised forms of the items |
| QuizDrafts.PoolOfCapitalizedItems | src/utils/quizGenerator.ts:588-590 | flattening the other entities' capitalised lists gives exactly the capitalised items |
| QuizDrafts.SignDraftSources | src/utils/quizGenerator.ts:511-699 | the answer of a sign question is the sign's own value; every candidate is a value of another sign (with a ruler, for the ruler question), and every such value is a candidate |
| QuizDrafts.RulerSources | src/utils/quizGenerator.ts:519-535 | the ruler question asks for the sign's ruler and offers exactly the rulers of the other signs that have one |
| QuizDrafts.RulerPool | src/utils/quizGenerator.ts:524-525 | the deduplicated rulers of the other signs are exactly those rulers |
| QuizDrafts.CategoriesSources | src/utils/quizGenerator.ts:538-557 | the categories question asks for the sign's polarity, element and modality and offers exactly the other signs' |
| QuizDrafts.EasySignDescriptorSources | src/utils/quizGenerator.ts:560-579 | the easy descriptor question asks for the sign's joined descriptors and offers exactly the other signs' |
| QuizDrafts.HardSignDescriptorSources | src/utils/quizGenerator.ts:612-638 | the hard descriptor question asks for one of the sign's descriptors and offers exactly the other signs' descriptors |
| QuizDrafts.SignNeedSources | src/utils/quizGenerator.ts:581-606 | the needs question asks for one of the sign's needs and offers exactly the other signs' needs |
| QuizDrafts.HouseDraftSources | src/utils/quizGenerator.ts:702-820 | the answer of a house question is the house's own value; every candidate is a value of a house with another number, and every such value is a candidate |
| QuizDrafts.EasyPrimarySources | src/utils/quizGenerator.ts:710-727 | the easy topics question asks for the house's joined primary topics and offers exactly the other houses' |
| QuizDrafts.HardPrimarySources | src/utils/quizGenerator.ts:734-758 | the hard topics question asks for one primary topic and offers exactly the other houses' primary topics |
| QuizDrafts.SecondarySources | src/utils/quizGenerator.ts:761-785 | the secondary topics question asks for one of the house's secondary topics and offers exactly the other houses' |
| QuizDrafts.AspectDraftSources | src/utils/quizGenerator.ts:823-965 | the answer of an aspect question is the aspect's own value; except for shared qualities, every candidate is a value of another aspect asked about, and every such value is a candidate |
| QuizDrafts.RelationshipSources | src/utils/quizGenerator.ts:833-849 | the relationship question asks for the aspect's relationship and offers exactly the other aspects' |
| QuizDrafts.DegreeSources | src/utils/quizGenerator.ts:852-868 | the degrees question asks for the aspect's degrees in decimal and offers exactly the other aspects' |
| QuizDrafts.EasyFunctionSources | src/utils/quizGenerator.ts:942-961 | the easy function question asks for the aspect's joined functions and offers exactly the other aspects' |
| QuizDrafts.HardFunctionSources | src/utils/quizGenerator.ts:910-939 | the hard function question asks for one of the aspect's functions and offers exactly the other aspects' functions |
| QuizDrafts.FillerFreeNotFiller | src/utils/quizGenerator.ts:51-66 | a filler-free string is neither an `Option n` nor an `Additional Option n` filler of a three-distractor set |
| QuizDrafts.CapitalizeFillerFree | src/utils/quizGenerator.ts:25-28 | capitalising keeps a string filler-free |
| QuizDrafts.JoinedFillerFree | src/utils/quizGenerator.ts:83 | joining filler-free items with ", " gives a filler-free string |
| QuizDrafts.IntToStringFillerFree | src/utils/quizGenerator.ts:853 | a number written in decimal is never a filler |
| QuizDrafts.CombinationsFillerFree | src/utils/quizGenerator.ts:884-893 | no shared-qualities combination is a filler |
| QuizDrafts.ListFillerFree | src/utils/database.ts:49-492 | every entry of a list with no filler-like entry is filler-free |
| QuizDrafts.PlanetValueFillerFree | src/utils/quizGenerator.ts:77-505 | every answer or candidate drawn from a planet without filler-like values is filler-free |
| QuizDrafts.SignValueFillerFree | src/utils/quizGenerator.ts:511-638 | every synthesised answer or candidate drawn from a sign without filler-like values is filler-free |
| QuizDrafts.HouseValueFillerFree | src/utils/quizGenerator.ts:702-785 | every synthesised answer or candidate drawn from a house without filler-like values is filler-free |
| QuizDrafts.AspectValueFillerFree | src/utils/quizGenerator.ts:823-965 | every answer or candidate drawn from an aspect without filler-like values is filler-free |
| QuizDrafts.DraftSound | src/utils/quizGenerator.ts:73-965 | over clean collections every callback asks nothing or gives a sound draft: filler-free answer and candidates, or a fixed list of different options holding the answer |
| QuizDrafts.PlanetDraftSound | src/utils/quizGenerator.ts:73-508 | over clean collections every planet callback asks nothing or gives a sound draft |
| QuizDrafts.SignDraftSound | src/utils/quizGenerator.ts:511-699 | over clean collections every sign callback asks nothing or gives a sound draft; the fixed lists hold the answer among two to four different options |
| QuizDrafts.HouseDraftSound | src/utils/quizGenerator.ts:702-820 | over clean collections every house callback asks nothing or gives a sound draft; the type question offers three different options |
| QuizDrafts.AspectDraftSound | src/utils/quizGenerator.ts:823-965 | over clean collections every aspect callback asks nothing or gives a sound draft |
| Database.ShownPlanetsUnlikeFillers | src/utils/database.ts:49-150 | no shown planet value looks like an option filler |
| Database.ShownSignsUnlikeFillers | src/utils/database.ts:153-298 | no shown sign value that a question synthesises from looks like an option filler |
| Database.ShownHousesUnlikeFillers | src/utils/database.ts:301-378 | no shown house topic looks like an option filler |
| Database.ShownAspectsUnlikeFillers | src/utils/database.ts:381-492 | no shown aspect relationship or function looks like an option filler |
| Prelude.MapWitness | src/utils/quizGenerator.ts:87 | every element of a mapped list is the image of some element |
| Prelude.MapImage | src/utils/quizGenerator.ts:87 | the image of every element is in the mapped list |
| Prelude.FlattenWitness | src/utils/quizGenerator.ts:385-386 | every item of a flattened list sits in one of the flattened lists |
| Prelude.DedupeMembers | src/utils/quizGenerator.ts:524 | deduplicating keeps exactly the same members |
| Prelude.NatToStringLeadingDigit | src/utils/quizGenerator.ts:853 | a number written in decimal starts with a digit |
| QuizCard.OptionClassName | src/components/QuizCard.tsx:46-56 | only the chosen option of an answered card is highlighted: "option correct" exactly when it is the answer, "option incorrect" otherwise |
| QuizCard.HighlightedIsSelected | src/components/QuizCard.tsx:46-56 | at most one option is highlighted, and it is green exactly when the feedback says correct |
| QuizCard.Feedback | src/components/QuizCard.tsx:79-92 | feedback appears exactly once answered, and says correct exactly when the chosen option is the answer |
| QuizCard.NextButtonLabel | src/components/QuizCard.tsx:94-101 | the next button appears exactly when allowed, and reads "See Results" on the last question and an arrow before it |
| QuizCard.Card.constructor | src/components/QuizCard.tsx:20-21 | a mounted card has nothing selected |
| QuizCard.Card.ShowQuestion | src/components/QuizCard.tsx:25-28 | a question with a new id clears the selection and the answered flag; the same id keeps them |
| QuizCard.Card.HandleOptionClick | src/components/QuizCard.tsx:30-38 | once answered, clicks are ignored; the first click records the option and reports whether it is the answer, matching the feedback and colour shown |
| QuizSession.CorrectCount | src/components/Quiz.tsx:59-61 | the number of correct records is at most the number of records, and equals it exactly when all are correct |
| QuizSession.ScoreMessage | src/components/Quiz.tsx:148-152 | perfect exactly at full marks, praise for at least half, encouragement below half |
| QuizSession.ScoreMessageMonotone | src/components/Quiz.tsx:148-152 | a higher score out of the same total never earns a lesser message |
| QuizSession.DrawQuiz | src/components/Quiz.tsx:28 | ten questions, or the whole pool when smaller, none repeated and no id twice, each of a selected category with different options and the answer exactly once; the pool is what the selected generators yield; always ten when a category is selected |
| QuizSession.Session.constructor | src/components/Quiz.tsx:14-46 | the initial state after the mount effect: no questions, easy mode, all categories, not started, not loading |
| QuizSession.Session.GenerateQuizQuestions | src/components/Quiz.tsx:26-37 | new questions as DrawQuiz promises, and progress reset: index 0, score 0, no records, not complete, started |
| QuizSession.Session.ResetProgress | src/components/Quiz.tsx:30-36 | the progress fields are reset and the questions, mode and categories kept |
| QuizSession.Session.HandleAnswer | src/components/Quiz.tsx:48-64 | appends the record of the current question, scores a correct answer, marks it answered, and keeps score and records in step |
| QuizSession.Session.HandleNextQuestion | src/components/Quiz.tsx:66-73 | advances before the last question and completes on it; on completion there is one record per question |
| QuizSession.Session.RestartQuiz | src/components/Quiz.tsx:75-77 | a fresh quiz with the current mode and categories |
| QuizSession.Session.StartQuiz | src/components/Quiz.tsx:40-46 | the start button sets `quizStarted`, and the effect generates a fresh quiz |
| QuizSession.Session.HandleModeChange | src/components/Quiz.tsx:79-83 | sets the mode; re-selecting the current mode changes nothing |
| QuizSession.Session.HandleCategoriesChange | src/components/Quiz.tsx:85-87 | takes the reported selection, and nothing else changes |
| QuizSession.Screen.constructor | src/components/Quiz.tsx:93-139 | the start page: not started, no card, every category selected |
| QuizSession.Screen.Remount | src/components/Quiz.tsx:235-245 | the card is mounted on the first question exactly while a started, unfinished quiz has questions |
| QuizSession.Screen.Start | src/components/Quiz.tsx:132-137 | starting shows a fresh card on a fresh quiz of ten questions with no records |
| QuizSession.Screen.Restart | src/components/Quiz.tsx:213-214 | "Take Quiz Again" shows a fresh card on a fresh quiz with no records |
| QuizSession.Screen.Click | src/components/Quiz.tsx:237-243 | only the first click per question adds a record, and the record holds the chosen option and its verdict |
| QuizSession.Screen.Next | src/components/Quiz.tsx:237-243 | the next button completes the quiz with one record per question in order, or moves the card to the next question unanswered |

## Left out

- Randomness: the model says nothing about how the draws are distributed,
  only that every result holds for every sequence of draws.
- Rendering: JSX, CSS class application, scroll effects (`feedbackRef`),
  the theme, the star backgrounds and the mode selector are not modelled.
  The mode badges with their emoji and the results list are display only.
- Prompt texts are modelled as string concatenation with the same
  wording; `IntToString` renders house numbers and degrees in decimal.
- QuizHelpers.Capitalize: `toUpperCase` is modelled only for the ASCII
  letters a-z; other characters are left unchanged, not Unicode-cased.
- QuizHelpers.GetUniqueOptions: the answer is promised to occur exactly
  once only when it is not itself an `Additional Option n` string. This is
  weaker than the unconditional promise of the function's name and comment because the code does not
  keep it: with answer "Additional Option 3", pool `["Option 2"]` and count
  3, the second padding adds another "Additional Option 3". Likewise the
  options are promised duplicate-free only when no input looks like an
  `Option n` filler.
- QuizGenerator.PlanetQuestionsFrom, QuizGenerator.SignQuestionsFrom,
  QuizGenerator.HouseQuestionsFrom and QuizGenerator.AspectQuestionsFrom
  promise well-shaped questions only over clean collections: canonical sign
  values, classified house types and no value that looks like a filler. The
  shown data is proved clean, so the `Generate...Questions` methods promise
  it unconditionally.
- CategorySelector.ToggleNeverEmpties: requires a duplicate-free
  selection, because the code filters every copy of a category out of the
  list (`DuplicateSelectionEmpties` shows the counterexample).
- QuizGenerator.GenerateQuiz: the default arguments of `generateQuiz`
  (quizGenerator.ts:985-989) are not modelled; the only caller, `Quiz`
  (Quiz.tsx:28), passes all three.
- QuizGenerator.GenerateQuiz: `questionCount` is an integer. JavaScript
  would also accept fractions and `NaN`; those are not modelled.
- The generators model only the collections each callback reads: planet
  questions read only planets, sign questions only signs, and so on.
- QuizSession.Session.HandleModeChange: the effect in `Quiz` depends only
  on `quizStarted`, so a mode change does not regenerate the questions.
  The model keeps this as written.
- React batching: each handler's `set...` calls are applied as one
  sequential update. Rendering with stale intermediate state is not modelled.
- QuizSession.Session.HandleAnswer: requires a non-empty question list. The
  card that calls it is rendered only while there are questions.
- QuizCard: the optional `onNextQuestion` callback is always present in the
  session, so `handleNextClick` is modelled as calling it.
- ModeSelector.tsx, App.tsx, ThemeContext.tsx and the background and scroll
  utilities are not part of this model.

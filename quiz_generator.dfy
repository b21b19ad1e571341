/** The question generators and the quiz assembler. Each generator runs its
    `forEach` blocks in order, pushing one question per callback that does not
    return early, with an id counter that starts at the generator's base and
    goes up by one per pushed question. `GenerateQuiz` concatenates the
    generators of the selected categories, shuffles the pool and keeps a
    prefix. */
module QuizGenerator {
  import opened Prelude
  import opened Database
  import opened QuizHelpers
  import opened CategorySelector
  import opened QuizDrafts

  datatype QuizQuestion = QuizQuestion(id: int, question: string, options: seq<string>, correctAnswer: string, category: Category)

  /** `q` is the question that `d` becomes when pushed: the draft's text,
      answer and category, and for a synthesised draft an option set built from
      its pool with the default three distractors. */
  predicate Realises(q: QuizQuestion, d: Draft) {
    match d
    case NoQuestion => false
    case Synthesised(cat, prompt, correct, pool) =>
      q.category == cat && q.question == prompt && q.correctAnswer == correct
      && IsOptionSet(correct, pool, 3, q.options)
    case Fixed(cat, prompt, correct, options) =>
      q.category == cat && q.question == prompt && q.correctAnswer == correct && q.options == options
  }

  /** `qs` are the drafts of `plan` realised in order, numbered one by one from `id0`. */
  predicate Emitted(qs: seq<QuizQuestion>, plan: seq<Draft>, id0: int) {
    && |qs| == |plan|
    && (forall k :: 0 <= k < |qs| ==> qs[k].id == id0 + k)
    && (forall k {:trigger Realises(qs[k], plan[k])} :: 0 <= k < |qs| ==> Realises(qs[k], plan[k]))
  }

  lemma EmittedAppend(qs1: seq<QuizQuestion>, p1: seq<Draft>, qs2: seq<QuizQuestion>, p2: seq<Draft>, id0: int)
    requires Emitted(qs1, p1, id0) && Emitted(qs2, p2, id0 + |qs1|)
    ensures Emitted(qs1 + qs2, p1 + p2, id0)
  {
    forall k | 0 <= k < |qs1 + qs2| ensures (qs1 + qs2)[k].id == id0 + k && Realises((qs1 + qs2)[k], (p1 + p2)[k]) {
      if k < |qs1| {
        assert Realises(qs1[k], p1[k]);
      } else {
        assert qs2[k - |qs1|].id == id0 + |qs1| + (k - |qs1|);
        assert Realises(qs2[k - |qs1|], p2[k - |qs1|]);
      }
    }
  }

  /** What one callback pushes: nothing when it returns early. */
  function Pushes(d: Draft): (r: seq<Draft>)
    ensures |r| <= 1
  {
    if d.NoQuestion? then [] else [d]
  }

  /** A `forEach` callback as a pure function of the entity's index and the
      draw it picks with: the question it pushes, or `NoQuestion`. */
  type Callback = (nat, nat) -> Draft

  /** The drafts a block pushes, in entity order, when entity `i` picks with
      `draws[i]`. */
  function Planned(cb: Callback, draws: seq<nat>): (plan: seq<Draft>)
    ensures |plan| <= |draws|
  {
    if |draws| == 0 then []
    else
      var i := |draws| - 1;
      Planned(cb, draws[..i]) + Pushes(cb(i, draws[i]))
  }

  /** The drafts a sequence of blocks pushes, block after block. */
  function PlannedBlocks(cbs: seq<Callback>, draws: seq<seq<nat>>): seq<Draft>
    requires |draws| == |cbs|
  {
    if |cbs| == 0 then []
    else
      var j := |cbs| - 1;
      PlannedBlocks(cbs[..j], draws[..j]) + Planned(cbs[j], draws[j])
  }

  /** The `questions.push` of one callback that does not return early. */
  method Realise(d: Draft, id: int, tape: Tape, pos: nat) returns (q: QuizQuestion, pos': nat)
    requires !d.NoQuestion?
    ensures q.id == id && Realises(q, d)
  {
    match d {
      case Synthesised(cat, prompt, correct, pool) =>
        var options;
        options, pos' := GetUniqueOptions(correct, pool, 3, tape, pos);
        q := QuizQuestion(id, prompt, options, correct, cat);
      case Fixed(cat, prompt, correct, options) =>
        q, pos' := QuizQuestion(id, prompt, options, correct, cat), pos;
    }
  }

  /** One callback: draw for the pick where it does, and push the resulting
      question, if any, with id `id`. */
  method EmitEntity(cb: Callback, picks: bool, i: nat, id: int, tape: Tape, pos: nat)
    returns (pushed: seq<QuizQuestion>, pos': nat, ghost draw: nat)
    ensures Emitted(pushed, Pushes(cb(i, draw)), id)
    ensures |pushed| <= 1 && forall k :: 0 <= k < |pushed| ==> pushed[k].id == id
  {
    var pick := 0;
    pos' := pos;
    if picks {
      pick := tape(pos');
      pos' := pos' + 1;
    }
    draw := pick;
    var d := cb(i, pick);
    if d.NoQuestion? {
      pushed := [];
    } else {
      var q;
      q, pos' := Realise(d, id, tape, pos');
      pushed := [q];
    }
  }

  /** One `forEach` block over `n` entities, pushing each callback's question
      with the next id. */
  method EmitBlock(cb: Callback, picks: nat -> bool, n: nat, id0: int, tape: Tape, pos: nat)
    returns (qs: seq<QuizQuestion>, id: int, pos': nat, ghost draws: seq<nat>)
    ensures |draws| == n
    ensures Emitted(qs, Planned(cb, draws), id0)
    ensures id == id0 + |qs|
  {
    qs, id, pos', draws := [], id0, pos, [];
    var i := 0;
    while i < n
      invariant 0 <= i <= n && |draws| == i
      invariant id == id0 + |qs|
      invariant Emitted(qs, Planned(cb, draws), id0)
    {
      var more;
      ghost var draw;
      more, pos', draw := EmitEntity(cb, picks(i), i, id, tape, pos');
      assert (draws + [draw])[..i] == draws;
      assert Planned(cb, draws + [draw]) == Planned(cb, draws) + Pushes(cb(i, draw));
      EmittedAppend(qs, Planned(cb, draws), more, Pushes(cb(i, draw)), id0);
      qs, id, draws := qs + more, id + |more|, draws + [draw];
      i := i + 1;
    }
  }

  /** The blocks of one generator, in order, sharing its id counter. */
  method EmitBlocks(cbs: seq<Callback>, pickers: seq<nat -> bool>, counts: seq<nat>, id0: int, tape: Tape, pos: nat)
    returns (qs: seq<QuizQuestion>, id: int, pos': nat, ghost draws: seq<seq<nat>>)
    requires |pickers| == |cbs| && |counts| == |cbs|
    ensures |draws| == |cbs| && forall k :: 0 <= k < |cbs| ==> |draws[k]| == counts[k]
    ensures Emitted(qs, PlannedBlocks(cbs, draws), id0)
    ensures id == id0 + |qs|
  {
    qs, id, pos', draws := [], id0, pos, [];
    var j := 0;
    while j < |cbs|
      invariant 0 <= j <= |cbs|
      invariant |draws| == j && forall k :: 0 <= k < j ==> |draws[k]| == counts[k]
      invariant id == id0 + |qs|
      invariant Emitted(qs, PlannedBlocks(cbs[..j], draws), id0)
    {
      var more, id', p';
      ghost var d;
      more, id', p', d := EmitBlock(cbs[j], pickers[j], counts[j], id, tape, pos');
      assert cbs[..j + 1][..j] == cbs[..j];
      assert (draws + [d])[..j] == draws;
      assert PlannedBlocks(cbs[..j + 1], draws + [d]) == PlannedBlocks(cbs[..j], draws) + Planned(cbs[j], d);
      EmittedAppend(qs, PlannedBlocks(cbs[..j], draws), more, Planned(cbs[j], d), id0);
      qs, id, pos', draws := qs + more, id', p', draws + [d];
      j := j + 1;
    }
    assert cbs[..j] == cbs;
  }

  // ------------------------------------------------------------ generators

  /** The callback of block `b`: `DraftOf` for each entity the block visits. */
  function BlockCallback(db: Dataset, mode: Mode, b: Block): Callback {
    (i: nat, draw: nat) => if i < EntityCount(db, mode, b) then DraftOf(db, mode, b, i, draw) else NoQuestion
  }

  /** Whether the callback of block `b` draws for entity `i`. */
  function BlockPicks(db: Dataset, mode: Mode, b: Block): nat -> bool {
    (i: nat) => i < EntityCount(db, mode, b) && Draws(db, mode, b, i)
  }

  function Callbacks(db: Dataset, mode: Mode, blocks: seq<Block>): (cbs: seq<Callback>)
    ensures |cbs| == |blocks|
  {
    seq(|blocks|, k requires 0 <= k < |blocks| => BlockCallback(db, mode, blocks[k]))
  }

  function Pickers(db: Dataset, mode: Mode, blocks: seq<Block>): (pickers: seq<nat -> bool>)
    ensures |pickers| == |blocks|
  {
    seq(|blocks|, k requires 0 <= k < |blocks| => BlockPicks(db, mode, blocks[k]))
  }

  function Counts(db: Dataset, mode: Mode, blocks: seq<Block>): (counts: seq<nat>)
    ensures |counts| == |blocks|
    ensures forall k :: 0 <= k < |blocks| ==> counts[k] == EntityCount(db, mode, blocks[k])
  {
    seq(|blocks|, k requires 0 <= k < |blocks| => EntityCount(db, mode, blocks[k]))
  }

  /** Every block has one draw per entity. */
  predicate DrawsFit(db: Dataset, mode: Mode, blocks: seq<Block>, draws: seq<seq<nat>>) {
    |draws| == |blocks| && forall k :: 0 <= k < |blocks| ==> |draws[k]| == EntityCount(db, mode, blocks[k])
  }

  /** The drafts a generator's blocks push. */
  function Plan(db: Dataset, mode: Mode, blocks: seq<Block>, draws: seq<seq<nat>>): seq<Draft>
    requires |draws| == |blocks|
  {
    PlannedBlocks(Callbacks(db, mode, blocks), draws)
  }

  /** Runs a generator's blocks with its id base. */
  method RunBlocks(db: Dataset, mode: Mode, blocks: seq<Block>, base: int, tape: Tape, pos: nat)
    returns (qs: seq<QuizQuestion>, pos': nat, ghost draws: seq<seq<nat>>)
    ensures DrawsFit(db, mode, blocks, draws)
    ensures Emitted(qs, Plan(db, mode, blocks, draws), base)
    ensures forall k :: 0 <= k < |qs| ==> qs[k].id == base + k
  {
    var id;
    qs, id, pos', draws := EmitBlocks(Callbacks(db, mode, blocks), Pickers(db, mode, blocks), Counts(db, mode, blocks), base, tape, pos);
  }

  /** The blocks of `generatePlanetQuestions` over any collections: ids from 1. */
  method PlanetQuestionsFrom(db: Dataset, mode: Mode, tape: Tape, pos: nat)
    returns (qs: seq<QuizQuestion>, pos': nat, ghost draws: seq<seq<nat>>)
    ensures DrawsFit(db, mode, PlanetBlocks(mode), draws)
    ensures Emitted(qs, Plan(db, mode, PlanetBlocks(mode), draws), 1)
    ensures Clean(db) ==> Delivers(qs, planet, 1)
    ensures |qs| <= 7 * |db.planets|
    ensures mode == Easy || ArchetypesListed(db.planets) ==> |qs| >= |db.planets|
  {
    qs, pos', draws := RunBlocks(db, mode, PlanetBlocks(mode), 1, tape, pos);
    BlocksCategories(mode);
    BlocksDeliver(db, mode, PlanetBlocks(mode), draws, qs, 1, planet, |db.planets|);
    MulAtMost(|PlanetBlocks(mode)|, 7, |db.planets|, |db.planets|);
    if mode == Easy {
      PlannedNeverSkips(db, mode, PlanetBlock(Archetypes), draws[0]);
    } else if ArchetypesListed(db.planets) {
      PlannedListedArchetypes(db, draws[0]);
    }
    PlanCovers(db, mode, PlanetBlocks(mode), draws, 0);
  }

  /** The blocks of `generateSignQuestions` over any collections: ids from 1000. */
  method SignQuestionsFrom(db: Dataset, mode: Mode, tape: Tape, pos: nat)
    returns (qs: seq<QuizQuestion>, pos': nat, ghost draws: seq<seq<nat>>)
    ensures DrawsFit(db, mode, SignBlocks(mode), draws)
    ensures Emitted(qs, Plan(db, mode, SignBlocks(mode), draws), 1000)
    ensures Clean(db) ==> Delivers(qs, sign, 1000)
    ensures |qs| <= 4 * |db.signs|
    ensures |qs| >= |db.signs|
  {
    qs, pos', draws := RunBlocks(db, mode, SignBlocks(mode), 1000, tape, pos);
    BlocksCategories(mode);
    BlocksDeliver(db, mode, SignBlocks(mode), draws, qs, 1000, sign, |db.signs|);
    MulAtMost(|SignBlocks(mode)|, 4, |db.signs|, |db.signs|);
    var k := if mode == Easy then 0 else 1;
    PlannedNeverSkips(db, mode, SignBlocks(mode)[k], draws[k]);
    PlanCovers(db, mode, SignBlocks(mode), draws, k);
  }

  /** The blocks of `generateHouseQuestions` over any collections: ids from 2000. */
  method HouseQuestionsFrom(db: Dataset, mode: Mode, tape: Tape, pos: nat)
    returns (qs: seq<QuizQuestion>, pos': nat, ghost draws: seq<seq<nat>>)
    ensures DrawsFit(db, mode, HouseBlocks(mode), draws)
    ensures Emitted(qs, Plan(db, mode, HouseBlocks(mode), draws), 2000)
    ensures Clean(db) ==> Delivers(qs, house, 2000)
    ensures |qs| <= 3 * |db.houses|
    ensures |qs| >= |db.houses|
  {
    qs, pos', draws := RunBlocks(db, mode, HouseBlocks(mode), 2000, tape, pos);
    BlocksCategories(mode);
    BlocksDeliver(db, mode, HouseBlocks(mode), draws, qs, 2000, house, |db.houses|);
    MulAtMost(|HouseBlocks(mode)|, 3, |db.houses|, |db.houses|);
    var k := if mode == Easy then 0 else 2;
    PlannedNeverSkips(db, mode, HouseBlocks(mode)[k], draws[k]);
    PlanCovers(db, mode, HouseBlocks(mode), draws, k);
  }

  /** The blocks of `generateAspectQuestions` over any collections: ids from 3000. */
  method AspectQuestionsFrom(db: Dataset, mode: Mode, tape: Tape, pos: nat)
    returns (qs: seq<QuizQuestion>, pos': nat, ghost draws: seq<seq<nat>>)
    ensures DrawsFit(db, mode, AspectBlocks(mode), draws)
    ensures Emitted(qs, Plan(db, mode, AspectBlocks(mode), draws), 3000)
    ensures Clean(db) ==> Delivers(qs, aspect, 3000)
    ensures |qs| <= 4 * |db.aspects|
    ensures mode == Easy ==> |qs| == 4 * |MajorAspects(db.aspects)|
    ensures |qs| >= |Filtered(mode, db.aspects)|
  {
    qs, pos', draws := RunBlocks(db, mode, AspectBlocks(mode), 3000, tape, pos);
    BlocksCategories(mode);
    BlocksDeliver(db, mode, AspectBlocks(mode), draws, qs, 3000, aspect, |Filtered(mode, db.aspects)|);
    MulAtMost(|AspectBlocks(mode)|, 4, |Filtered(mode, db.aspects)|, |db.aspects|);
    PlannedNeverSkips(db, mode, AspectBlock(Relationship), draws[0]);
    PlanCovers(db, mode, AspectBlocks(mode), draws, 0);
    if mode == Easy {
      PlannedBlocksExact(db, mode, AspectBlocks(mode), draws, |Filtered(mode, db.aspects)|);
    }
  }

  // ------------------------------------------------------------- assembler

  /** The questions of one category, in pool order. */
  function OfCategory(qs: seq<QuizQuestion>, c: Category): (r: seq<QuizQuestion>)
    ensures forall q :: q in r <==> q in qs && q.category == c
    ensures |r| <= |qs|
  {
    FilterMembers(qs, (q: QuizQuestion) => q.category == c);
    Filter(qs, (q: QuizQuestion) => q.category == c)
  }

  /** `generatePlanetQuestions(mode)`: the planet blocks over the shown
      planets (planet callbacks read no other collection). */
  method GeneratePlanetQuestions(mode: Mode, tape: Tape, pos: nat) returns (qs: seq<QuizQuestion>, pos': nat)
    ensures Delivers(qs, planet, 1) && 11 <= |qs| <= 77
  {
    ghost var draws;
    ShownPlanetsWellFormed();
    ShownPlanetsUnlikeFillers();
    ShownArchetypesListed();
    qs, pos', draws := PlanetQuestionsFrom(Dataset(Planets, [], [], []), mode, tape, pos);
  }

  /** `generateSignQuestions(mode)` over the shown signs. */
  method GenerateSignQuestions(mode: Mode, tape: Tape, pos: nat) returns (qs: seq<QuizQuestion>, pos': nat)
    ensures Delivers(qs, sign, 1000) && 12 <= |qs| <= 48
  {
    ghost var draws;
    ShownSignsWellFormed();
    ShownSignsUnlikeFillers();
    qs, pos', draws := SignQuestionsFrom(Dataset([], Signs, [], []), mode, tape, pos);
  }

  /** `generateHouseQuestions(mode)` over the shown houses. */
  method GenerateHouseQuestions(mode: Mode, tape: Tape, pos: nat) returns (qs: seq<QuizQuestion>, pos': nat)
    ensures Delivers(qs, house, 2000) && 12 <= |qs| <= 36
  {
    ghost var draws;
    ShownHousesWellFormed();
    ShownHousesUnlikeFillers();
    qs, pos', draws := HouseQuestionsFrom(Dataset([], [], Houses, []), mode, tape, pos);
  }

  /** `generateAspectQuestions(mode)` over the shown aspects: in easy mode four
      questions for each of the five major aspects. */
  method GenerateAspectQuestions(mode: Mode, tape: Tape, pos: nat) returns (qs: seq<QuizQuestion>, pos': nat)
    ensures Delivers(qs, aspect, 3000) && 11 <= |qs| <= 44
    ensures mode == Easy ==> |qs| == 20
  {
    ghost var draws;
    ShownAspectsWellFormed();
    ShownAspectsUnlikeFillers();
    ShownMajorAspects();
    qs, pos', draws := AspectQuestionsFrom(Dataset([], [], [], Aspects), mode, tape, pos);
  }

  /** The pool of `generateQuiz`: the selected generators' questions, in the
      order planet, sign, house, aspect. Every generator yields at least 11
      questions, so any selection gives more than a quiz's ten. */
  method CollectPool(mode: Mode, categories: seq<Category>, tape: Tape, pos: nat)
    returns (pool: seq<QuizQuestion>, pos': nat)
    ensures Assembled(pool, mode, categories)
    ensures Selected(pool, categories) && Ascending(pool)
    ensures |categories| > 0 ==> |pool| >= 11
  {
    pool, pos' := [], pos;
    ghost var ps, ss, hs, xs: seq<QuizQuestion> := [], [], [], [];
    if planet in categories {
      pool, pos' := GeneratePlanetQuestions(mode, tape, pos');
      ps := pool;
    }
    if sign in categories {
      var qs;
      qs, pos' := GenerateSignQuestions(mode, tape, pos');
      pool := pool + qs;
      ss := qs;
    }
    assert pool == ps + ss;
    if house in categories {
      var qs;
      qs, pos' := GenerateHouseQuestions(mode, tape, pos');
      pool := pool + qs;
      hs := qs;
    }
    assert pool == ps + ss + hs;
    if aspect in categories {
      var qs;
      qs, pos' := GenerateAspectQuestions(mode, tape, pos');
      pool := pool + qs;
      xs := qs;
    }
    assert pool == ps + ss + hs + xs;
    PoolAssembled(ps, ss, hs, xs, mode, categories);
  }

  /** What one selected generator contributes: its whole output, numbered from
      `base`, between `lo` and `hi` questions, when `c` is selected, and nothing
      otherwise. */
  predicate Output(qs: seq<QuizQuestion>, categories: seq<Category>, c: Category, base: int, lo: nat, hi: nat) {
    if c in categories then Delivers(qs, c, base) && lo <= |qs| <= hi else qs == []
  }

  /** `pool` is the concatenation of the selected generators' outputs, in the
      order planet, sign, house, aspect: split by category, it gives back the
      four parts in that order, and each part is what its generator yields. */
  predicate Assembled(pool: seq<QuizQuestion>, mode: Mode, categories: seq<Category>) {
    && pool == OfCategory(pool, planet) + OfCategory(pool, sign) + OfCategory(pool, house) + OfCategory(pool, aspect)
    && Output(OfCategory(pool, planet), categories, planet, 1, 11, 77)
    && Output(OfCategory(pool, sign), categories, sign, 1000, 12, 48)
    && Output(OfCategory(pool, house), categories, house, 2000, 12, 36)
    && Output(OfCategory(pool, aspect), categories, aspect, 3000, 11, 44)
    && (mode == Easy && aspect in categories ==> |OfCategory(pool, aspect)| == 20)
  }

  /** Four generator outputs, concatenated, form an assembled pool of selected,
      well-shaped questions with increasing ids. */
  lemma PoolAssembled(ps: seq<QuizQuestion>, ss: seq<QuizQuestion>, hs: seq<QuizQuestion>, xs: seq<QuizQuestion>,
                      mode: Mode, categories: seq<Category>)
    requires Output(ps, categories, planet, 1, 11, 77)
    requires Output(ss, categories, sign, 1000, 12, 48)
    requires Output(hs, categories, house, 2000, 12, 36)
    requires Output(xs, categories, aspect, 3000, 11, 44)
    requires mode == Easy && aspect in categories ==> |xs| == 20
    ensures Assembled(ps + ss + hs + xs, mode, categories)
    ensures Selected(ps + ss + hs + xs, categories) && Ascending(ps + ss + hs + xs)
    ensures |categories| > 0 ==> |ps + ss + hs + xs| >= 11
  {
    PoolParts(ps, ss, hs, xs);
    PoolOrdered(ps, ss, hs, xs, categories);
    if |categories| > 0 {
      SomeCategory(categories);
    }
  }

  /** Four generator outputs, concatenated, hold only selected, well-shaped
      questions, with increasing ids. */
  lemma PoolOrdered(ps: seq<QuizQuestion>, ss: seq<QuizQuestion>, hs: seq<QuizQuestion>, xs: seq<QuizQuestion>,
                    categories: seq<Category>)
    requires Output(ps, categories, planet, 1, 11, 77)
    requires Output(ss, categories, sign, 1000, 12, 48)
    requires Output(hs, categories, house, 2000, 12, 36)
    requires Output(xs, categories, aspect, 3000, 11, 44)
    ensures Selected(ps + ss + hs + xs, categories) && Ascending(ps + ss + hs + xs)
  {
    AppendDelivered([], ps, planet, 1, 77);
    assert [] + ps == ps;
    AppendDelivered(ps, ss, sign, 1000, 48);
    AppendDelivered(ps + ss, hs, house, 2000, 36);
    AppendDelivered(ps + ss + hs, xs, aspect, 3000, 44);
  }

  /** The parts of four consecutive outputs, of the four categories in turn,
      are the outputs themselves. */
  lemma PoolParts(ps: seq<QuizQuestion>, ss: seq<QuizQuestion>, hs: seq<QuizQuestion>, xs: seq<QuizQuestion>)
    requires OfOne(ps, planet) && OfOne(ss, sign) && OfOne(hs, house) && OfOne(xs, aspect)
    ensures OfCategory(ps + ss + hs + xs, planet) == ps
    ensures OfCategory(ps + ss + hs + xs, sign) == ss
    ensures OfCategory(ps + ss + hs + xs, house) == hs
    ensures OfCategory(ps + ss + hs + xs, aspect) == xs
  {
    assert ps + ss + hs + xs == [] + ps + (ss + hs + xs) == ps + ss + (hs + xs) == ps + ss + hs + xs + [];
    OnlyPart([], ps, ss + hs + xs, planet);
    OnlyPart(ps, ss, hs + xs, sign);
    OnlyPart(ps + ss, hs, xs, house);
    OnlyPart(ps + ss + hs, xs, [], aspect);
  }

  /** Every question is of category `c`. */
  predicate OfOne(qs: seq<QuizQuestion>, c: Category) {
    forall k :: 0 <= k < |qs| ==> qs[k].category == c
  }

  /** The part of category `c` of `pre + mid + post` is `mid`, when `mid` is
      all of category `c` and the rest is of the other categories. */
  lemma OnlyPart(pre: seq<QuizQuestion>, mid: seq<QuizQuestion>, post: seq<QuizQuestion>, c: Category)
    requires forall k :: 0 <= k < |pre| ==> pre[k].category != c
    requires OfOne(mid, c)
    requires forall k :: 0 <= k < |post| ==> post[k].category != c
    ensures OfCategory(pre + mid + post, c) == mid
  {
    var keep := (q: QuizQuestion) => q.category == c;
    FilterAppend(pre + mid, post, keep);
    FilterAppend(pre, mid, keep);
    FilterAllOrNothing(pre, keep);
    FilterAllOrNothing(mid, keep);
    FilterAllOrNothing(post, keep);
    assert [] + mid + [] == mid;
  }

  /** Splitting by category distributes over concatenation. */
  lemma OfCategoryAppend(a: seq<QuizQuestion>, b: seq<QuizQuestion>, c: Category)
    ensures OfCategory(a + b, c) == OfCategory(a, c) + OfCategory(b, c)
  {
    FilterAppend(a, b, (q: QuizQuestion) => q.category == c);
  }

  /** A non-empty selection names one of the four categories. */
  lemma SomeCategory(categories: seq<Category>)
    requires |categories| > 0
    ensures planet in categories || sign in categories || house in categories || aspect in categories
  {
    match categories[0]
    case planet => assert planet in categories;
    case sign => assert sign in categories;
    case house => assert house in categories;
    case aspect => assert aspect in categories;
  }

  /** `generateQuiz`: the pool shuffled and cut to the requested count
      (`Math.min` then `slice(0, ·)`, so a negative count counts from the end). */
  method GenerateQuiz(questionCount: int, mode: Mode, categories: seq<Category>, tape: Tape, pos: nat)
    returns (quiz: seq<QuizQuestion>, pos': nat, ghost pool: seq<QuizQuestion>)
    ensures 0 <= questionCount ==> |quiz| == if questionCount < |pool| then questionCount else |pool|
    ensures questionCount < 0 ==> |quiz| == if |pool| + questionCount > 0 then |pool| + questionCount else 0
    ensures multiset(quiz) <= multiset(pool)
    ensures Distinct(quiz) && UniqueIds(quiz)
    ensures Selected(quiz, categories)
    ensures Assembled(pool, mode, categories)
    ensures Selected(pool, categories)
    ensures Ascending(pool)
    ensures |categories| > 0 ==> |pool| >= 11
  {
    var all, p := CollectPool(mode, categories, tape, pos);
    var actual := if questionCount < |all| then questionCount else |all|;
    var shuffled;
    shuffled, pos' := Shuffle(all, tape, p);
    var end := if actual >= 0 then actual else if |all| + actual > 0 then |all| + actual else 0;
    quiz := shuffled[..end];
    pool := all;
    CutOfShuffle(all, shuffled, end);
    DrawnIdsUnique(quiz, pool);
  }

  // ------------------------------------------------------------- properties

  /** Ids strictly increase along the sequence. */
  predicate Ascending(qs: seq<QuizQuestion>) {
    forall i, j :: 0 <= i < j < |qs| ==> qs[i].id < qs[j].id
  }

  predicate Below(qs: seq<QuizQuestion>, bound: int) {
    forall q :: q in qs ==> q.id < bound
  }

  /** Every question is of a selected category, well shaped, with its category's option count. */
  predicate Selected(qs: seq<QuizQuestion>, categories: seq<Category>) {
    forall q :: q in qs ==> q.category in categories && WellShaped(q) && OptionCount(q, q.category)
  }

  /** Questions with increasing ids are pairwise different. */
  lemma AscendingDistinct(qs: seq<QuizQuestion>)
    requires Ascending(qs)
    ensures Distinct(qs)
  {
    forall i, j | 0 <= i < j < |qs| ensures qs[i] != qs[j] {
      assert qs[i].id < qs[j].id;
    }
  }

  /** A prefix of a shuffled pool with increasing ids repeats no question and
      draws only from the pool. */
  lemma CutOfShuffle(pool: seq<QuizQuestion>, shuffled: seq<QuizQuestion>, end: nat)
    requires multiset(shuffled) == multiset(pool) && Ascending(pool) && end <= |shuffled|
    ensures multiset(shuffled[..end]) <= multiset(pool)
    ensures Distinct(shuffled[..end])
    ensures forall q :: q in shuffled[..end] ==> q in pool
  {
    AscendingDistinct(pool);
    DistinctPermutation(pool, shuffled);
    assert shuffled == shuffled[..end] + shuffled[end..];
    forall q | q in shuffled[..end] ensures q in pool {
      assert q in multiset(shuffled);
    }
  }

  /** No two questions share an id. */
  predicate UniqueIds(qs: seq<QuizQuestion>) {
    forall i, j :: 0 <= i < j < |qs| ==> qs[i].id != qs[j].id
  }

  /** Different questions drawn from a pool with increasing ids have different ids. */
  lemma DrawnIdsUnique(quiz: seq<QuizQuestion>, pool: seq<QuizQuestion>)
    requires Ascending(pool) && Distinct(quiz)
    requires forall q :: q in quiz ==> q in pool
    ensures UniqueIds(quiz)
  {
    forall i, j | 0 <= i < j < |quiz| ensures quiz[i].id != quiz[j].id {
      assert quiz[i] in pool && quiz[j] in pool;
      var a :| 0 <= a < |pool| && pool[a] == quiz[i];
      var b :| 0 <= b < |pool| && pool[b] == quiz[j];
      assert a != b by { assert quiz[i] != quiz[j]; }
    }
  }

  /** Appending a generator's questions above the ids already in the pool
      keeps the ids increasing. */
  lemma AppendDelivered(all: seq<QuizQuestion>, qs: seq<QuizQuestion>, c: Category, base: int, n: nat)
    requires Ascending(all) && Below(all, base)
    requires Delivers(qs, c, base) && |qs| <= n
    ensures Ascending(all + qs) && Below(all + qs, base + n)
    ensures forall q :: q in all + qs ==> q in all || (q.category == c && WellShaped(q) && OptionCount(q, c))
  {
    forall i, j | 0 <= i < j < |all + qs| ensures (all + qs)[i].id < (all + qs)[j].id {
      if j < |all| {
      } else if i < |all| {
        assert all[i] in all;
      } else {
        assert qs[i - |all|].id == base + (i - |all|);
      }
    }
  }


  /** A question a player can answer: two to four different options, the
      answer exactly once among them. */
  predicate WellShaped(q: QuizQuestion) {
    && q.correctAnswer in q.options && 2 <= |q.options| <= 4
    && multiset(q.options)[q.correctAnswer] == 1 && Distinct(q.options)
  }

  /** How many options a question of category `c` has: four for planets and
      aspects, three or four for houses (the house-type question offers three). */
  predicate OptionCount(q: QuizQuestion, c: Category) {
    && (c == planet || c == aspect ==> |q.options| == 4)
    && (c == house ==> |q.options| >= 3)
  }

  /** What a generator delivers: questions of its category, numbered from its
      base one by one, each well shaped with its category's option count. */
  predicate Delivers(qs: seq<QuizQuestion>, c: Category, base: int) {
    forall k :: 0 <= k < |qs| ==> qs[k].category == c && qs[k].id == base + k && WellShaped(qs[k]) && OptionCount(qs[k], c)
  }

  /** A sound draft, realised, is a well-shaped question with its category's
      option count: a synthesised option set has four entries, the answer
      once, and no duplicate, since neither the answer nor a candidate can be
      taken for a filler. */
  lemma RealisedWellShaped(q: QuizQuestion, d: Draft, c: Category)
    requires Realises(q, d) && Sound(d, c)
    ensures q.category == c && WellShaped(q) && OptionCount(q, c)
  {
    if d.Synthesised? {
      FillerFreeNotFiller(d.correct);
      forall x | x in d.pool ensures x !in OptionFillers(3) {
        FillerFreeNotFiller(x);
      }
      assert Elems(d.pool) !! OptionFillers(3);
    } else {
      DistinctMultiplicity(q.options, q.correctAnswer);
    }
  }

  /** Every draft of a block is sound for the block's category. */
  lemma PlannedShape(db: Dataset, mode: Mode, b: Block, draws: seq<nat>)
    requires |draws| <= EntityCount(db, mode, b)
    requires Clean(db)
    ensures forall d :: d in Planned(BlockCallback(db, mode, b), draws) ==> Sound(d, BlockCategory(b))
  {
    CallbackSound(db, mode, b, |draws|);
    PlannedSound(BlockCallback(db, mode, b), draws, BlockCategory(b));
  }

  /** A block callback returns no question or a sound one. */
  lemma CallbackSound(db: Dataset, mode: Mode, b: Block, n: nat)
    requires n <= EntityCount(db, mode, b)
    requires Clean(db)
    ensures forall i: nat, draw: nat :: i < n ==>
      BlockCallback(db, mode, b)(i, draw).NoQuestion? || Sound(BlockCallback(db, mode, b)(i, draw), BlockCategory(b))
  {
    forall i: nat, draw: nat | i < n
      ensures BlockCallback(db, mode, b)(i, draw).NoQuestion? || Sound(BlockCallback(db, mode, b)(i, draw), BlockCategory(b))
    {
      DraftSound(db, mode, b, i, draw);
    }
  }

  /** The plan of a callback that returns only sound drafts (or none) is sound. */
  lemma {:induction false} PlannedSound(cb: Callback, draws: seq<nat>, c: Category)
    requires forall i: nat, draw: nat :: i < |draws| ==> cb(i, draw).NoQuestion? || Sound(cb(i, draw), c)
    ensures forall d :: d in Planned(cb, draws) ==> Sound(d, c)
  {
    if |draws| > 0 {
      var i := |draws| - 1;
      PlannedSound(cb, draws[..i], c);
      assert Planned(cb, draws) == Planned(cb, draws[..i]) + Pushes(cb(i, draws[i]));
    }
  }

  /** A generator's plan is the plan of its first blocks followed by the last block's. */
  lemma PlanStep(db: Dataset, mode: Mode, blocks: seq<Block>, draws: seq<seq<nat>>)
    requires |draws| == |blocks| > 0
    ensures Plan(db, mode, blocks, draws)
      == Plan(db, mode, blocks[..|blocks| - 1], draws[..|blocks| - 1])
         + Planned(BlockCallback(db, mode, blocks[|blocks| - 1]), draws[|blocks| - 1])
  {
    var j := |blocks| - 1;
    assert Callbacks(db, mode, blocks)[..j] == Callbacks(db, mode, blocks[..j]);
  }

  /** Every draft of a generator's blocks is sound for the generator's category. */
  lemma PlannedBlocksShape(db: Dataset, mode: Mode, blocks: seq<Block>, draws: seq<seq<nat>>, c: Category)
    requires DrawsFit(db, mode, blocks, draws)
    requires forall b :: b in blocks ==> BlockCategory(b) == c
    requires Clean(db)
    ensures forall d :: d in Plan(db, mode, blocks, draws) ==> Sound(d, c)
  {
    var cbs := Callbacks(db, mode, blocks);
    forall j | 0 <= j < |cbs| ensures forall d :: d in Planned(cbs[j], draws[j]) ==> Sound(d, c) {
      assert blocks[j] in blocks;
      PlannedShape(db, mode, blocks[j], draws[j]);
    }
    PlannedBlocksSound(cbs, draws, c);
  }

  /** Blocks whose plans are sound make a sound plan together. */
  lemma {:induction false} PlannedBlocksSound(cbs: seq<Callback>, draws: seq<seq<nat>>, c: Category)
    requires |draws| == |cbs|
    requires forall j :: 0 <= j < |cbs| ==> forall d :: d in Planned(cbs[j], draws[j]) ==> Sound(d, c)
    ensures forall d :: d in PlannedBlocks(cbs, draws) ==> Sound(d, c)
  {
    if |cbs| > 0 {
      var j := |cbs| - 1;
      PlannedBlocksSound(cbs[..j], draws[..j], c);
      assert PlannedBlocks(cbs, draws) == PlannedBlocks(cbs[..j], draws[..j]) + Planned(cbs[j], draws[j]);
    }
  }

  lemma EmittedDelivers(qs: seq<QuizQuestion>, plan: seq<Draft>, base: int, c: Category)
    requires Emitted(qs, plan, base)
    requires forall d :: d in plan ==> Sound(d, c)
    ensures Delivers(qs, c, base)
  {
    forall k | 0 <= k < |qs| ensures qs[k].category == c && qs[k].id == base + k && WellShaped(qs[k]) && OptionCount(qs[k], c) {
      assert Sound(plan[k], c);
      RealisedWellShaped(qs[k], plan[k], c);
    }
  }

  /** What a generator's blocks deliver, given their categories and sizes. */
  lemma BlocksDeliver(db: Dataset, mode: Mode, blocks: seq<Block>, draws: seq<seq<nat>>, qs: seq<QuizQuestion>, base: int, c: Category, n: nat)
    requires DrawsFit(db, mode, blocks, draws)
    requires Emitted(qs, Plan(db, mode, blocks, draws), base)
    requires forall b :: b in blocks ==> BlockCategory(b) == c && EntityCount(db, mode, b) <= n
    ensures Clean(db) ==> Delivers(qs, c, base)
    ensures |qs| <= |blocks| * n
  {
    if Clean(db) {
      PlannedBlocksShape(db, mode, blocks, draws, c);
      EmittedDelivers(qs, Plan(db, mode, blocks, draws), base, c);
    }
    PlannedBlocksAtMost(Callbacks(db, mode, blocks), draws, n);
  }

  /** A block that never returns early pushes one question per entity. */
  lemma PlannedNeverSkips(db: Dataset, mode: Mode, b: Block, draws: seq<nat>)
    requires |draws| <= EntityCount(db, mode, b) && NeverSkips(mode, b)
    ensures |Planned(BlockCallback(db, mode, b), draws)| == |draws|
  {
    forall i: nat, draw: nat | i < |draws| ensures !BlockCallback(db, mode, b)(i, draw).NoQuestion? {
      NeverSkipped(db, mode, b, i, draw);
    }
    PlannedAll(BlockCallback(db, mode, b), draws);
  }

  /** A callback that always asks pushes one draft per draw. */
  lemma {:induction false} PlannedAll(cb: Callback, draws: seq<nat>)
    requires forall i: nat, draw: nat :: i < |draws| ==> !cb(i, draw).NoQuestion?
    ensures |Planned(cb, draws)| == |draws|
  {
    if |draws| > 0 {
      var i := |draws| - 1;
      PlannedAll(cb, draws[..i]);
      assert Planned(cb, draws) == Planned(cb, draws[..i]) + [cb(i, draws[i])];
    }
  }

  /** A generator pushes at least as many drafts as its `j`-th block. */
  lemma PlanCovers(db: Dataset, mode: Mode, blocks: seq<Block>, draws: seq<seq<nat>>, j: nat)
    requires DrawsFit(db, mode, blocks, draws) && j < |blocks|
    ensures |Plan(db, mode, blocks, draws)| >= |Planned(BlockCallback(db, mode, blocks[j]), draws[j])|
  {
    PlannedBlocksCover(Callbacks(db, mode, blocks), draws, j);
  }

  lemma {:induction false} PlannedBlocksCover(cbs: seq<Callback>, draws: seq<seq<nat>>, j: nat)
    requires |draws| == |cbs| && j < |cbs|
    ensures |PlannedBlocks(cbs, draws)| >= |Planned(cbs[j], draws[j])|
  {
    var last := |cbs| - 1;
    if j < last {
      PlannedBlocksCover(cbs[..last], draws[..last], j);
      assert cbs[..last][j] == cbs[j] && draws[..last][j] == draws[j];
    }
  }

  /** In hard mode the archetype block asks for every planet when all
      archetypes are listed. */
  lemma PlannedListedArchetypes(db: Dataset, draws: seq<nat>)
    requires |draws| <= |db.planets| && ArchetypesListed(db.planets)
    ensures |Planned(BlockCallback(db, Hard, PlanetBlock(Archetypes)), draws)| == |draws|
  {
    forall i: nat, draw: nat | i < |draws| ensures !BlockCallback(db, Hard, PlanetBlock(Archetypes))(i, draw).NoQuestion? {
      ListedArchetypesAsk(db, i, draw);
    }
    PlannedAll(BlockCallback(db, Hard, PlanetBlock(Archetypes)), draws);
  }

  /** Products of naturals grow with both factors. */
  lemma MulAtMost(a: nat, b: nat, c: nat, d: nat)
    requires a <= b && c <= d
    ensures a * c <= b * d
  {
    assert a * c <= b * c;
  }

  lemma MulSucc(j: nat, n: nat)
    ensures (j + 1) * n == j * n + n
  {
  }

  /** Blocks with at most `n` draws push at most `n` questions each. */
  lemma {:induction false} PlannedBlocksAtMost(cbs: seq<Callback>, draws: seq<seq<nat>>, n: nat)
    requires |draws| == |cbs|
    requires forall k :: 0 <= k < |draws| ==> |draws[k]| <= n
    ensures |PlannedBlocks(cbs, draws)| <= |cbs| * n
  {
    if |cbs| > 0 {
      var j := |cbs| - 1;
      PlannedBlocksAtMost(cbs[..j], draws[..j], n);
      MulSucc(j, n);
    }
  }

  /** Blocks over exactly `n` entities that never return early push exactly `n` questions each. */
  lemma PlannedBlocksExact(db: Dataset, mode: Mode, blocks: seq<Block>, draws: seq<seq<nat>>, n: nat)
    requires DrawsFit(db, mode, blocks, draws)
    requires forall b :: b in blocks ==> EntityCount(db, mode, b) == n && NeverSkips(mode, b)
    ensures |Plan(db, mode, blocks, draws)| == |blocks| * n
  {
    var cbs := Callbacks(db, mode, blocks);
    forall j | 0 <= j < |cbs| ensures |Planned(cbs[j], draws[j])| == n {
      assert blocks[j] in blocks;
      PlannedNeverSkips(db, mode, blocks[j], draws[j]);
    }
    PlannedBlocksEach(cbs, draws, n);
  }

  /** Blocks that push exactly `n` drafts each push `n` per block together. */
  lemma {:induction false} PlannedBlocksEach(cbs: seq<Callback>, draws: seq<seq<nat>>, n: nat)
    requires |draws| == |cbs|
    requires forall j :: 0 <= j < |cbs| ==> |Planned(cbs[j], draws[j])| == n
    ensures |PlannedBlocks(cbs, draws)| == |cbs| * n
  {
    if |cbs| > 0 {
      var j := |cbs| - 1;
      PlannedBlocksEach(cbs[..j], draws[..j], n);
      MulSucc(j, n);
    }
  }
}

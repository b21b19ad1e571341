/** What each generator's `forEach` callback computes for one entity, before
    the random option set is drawn: the question text, the correct answer and
    either the candidate pool handed to `getUniqueOptions` or a fixed,
    unshuffled option list. Nothing here consumes randomness; a hard-mode pick
    receives the raw draw and reduces it modulo the number of items, as
    `Math.floor(Math.random() * items.length)` does. */
module QuizDrafts {
  import opened Prelude
  import opened Database
  import opened QuizHelpers
  import opened CategorySelector

  datatype Mode = Easy | Hard

  /** The four collections the generators read. */
  datatype Dataset = Dataset(planets: seq<Planet>, signs: seq<Sign>, houses: seq<House>, aspects: seq<Aspect>)

  /** The attribute a planet `forEach` block asks about (the same seven, in
      this order, in both modes). */
  datatype PlanetAttr = Archetypes | Needs | Descriptors | Domicile | Exaltation | Detriment | Fall

  /** The attribute a sign block asks about: ruler, categories and needs are
      easy-mode blocks, modality, element and polarity hard-mode ones, and
      descriptors occur in both. */
  datatype SignAttr = Ruler | Categories | SignDescriptors | SignNeeds | Modality | Element | Polarity

  /** The attribute a house block asks about. */
  datatype HouseAttr = PrimaryTopics | SecondaryTopics | HouseType

  /** The attribute an aspect block asks about. */
  datatype AspectAttr = Relationship | Degrees | SharedQualities | Function

  /** One `forEach` loop of a generator. */
  datatype Block = PlanetBlock(pa: PlanetAttr) | SignBlock(sa: SignAttr) | HouseBlock(ha: HouseAttr) | AspectBlock(aa: AspectAttr)

  /** The outcome of one callback: no question (the callback returned early or
      its pick was empty), a question whose options are still to be synthesised
      from `pool`, or one with a fixed option list. */
  datatype Draft =
    | NoQuestion
    | Synthesised(cat: Category, prompt: string, correct: string, pool: seq<string>)
    | Fixed(cat: Category, prompt: string, correct: string, options: seq<string>)

  /** The category every question of a block carries. */
  function BlockCategory(b: Block): Category {
    match b
    case PlanetBlock(_) => planet
    case SignBlock(_) => sign
    case HouseBlock(_) => house
    case AspectBlock(_) => aspect
  }

  /** The blocks of each generator, in source order. */
  function PlanetBlocks(mode: Mode): seq<Block> {
    [PlanetBlock(Archetypes), PlanetBlock(Needs), PlanetBlock(Descriptors), PlanetBlock(Domicile),
     PlanetBlock(Exaltation), PlanetBlock(Detriment), PlanetBlock(Fall)]
  }

  function SignBlocks(mode: Mode): seq<Block> {
    if mode == Easy then [SignBlock(Ruler), SignBlock(Categories), SignBlock(SignDescriptors), SignBlock(SignNeeds)]
    else [SignBlock(SignDescriptors), SignBlock(Modality), SignBlock(Element), SignBlock(Polarity)]
  }

  function HouseBlocks(mode: Mode): seq<Block> {
    if mode == Easy then [HouseBlock(PrimaryTopics)]
    else [HouseBlock(PrimaryTopics), HouseBlock(SecondaryTopics), HouseBlock(HouseType)]
  }

  function AspectBlocks(mode: Mode): seq<Block> {
    [AspectBlock(Relationship), AspectBlock(Degrees), AspectBlock(SharedQualities), AspectBlock(Function)]
  }

  /** Every block, of either mode, asks about its own generator's category. */
  lemma BlocksCategories(mode: Mode)
    ensures forall b :: b in PlanetBlocks(mode) ==> BlockCategory(b) == planet
    ensures forall b :: b in SignBlocks(mode) ==> BlockCategory(b) == sign
    ensures forall b :: b in HouseBlocks(mode) ==> BlockCategory(b) == house
    ensures forall b :: b in AspectBlocks(mode) ==> BlockCategory(b) == aspect
  {
  }

  /** The aspects a mode asks about: only the major ones in easy mode. */
  function Filtered(mode: Mode, aspects: seq<Aspect>): (r: seq<Aspect>)
    ensures mode == Hard ==> r == aspects
    ensures forall a :: a in r <==> a in aspects && (mode == Easy ==> a.isMajor)
  {
    if mode == Easy then MajorAspects(aspects) else aspects
  }

  /** How many entities a block's `forEach` visits. */
  function EntityCount(db: Dataset, mode: Mode, b: Block): nat {
    match b
    case PlanetBlock(_) => |db.planets|
    case SignBlock(_) => |db.signs|
    case HouseBlock(_) => |db.houses|
    case AspectBlock(_) => |Filtered(mode, db.aspects)|
  }

  /** `items.join(", ")`. */
  function Joined(items: seq<string>): string {
    Join(items, ", ")
  }

  /** The items of an optional list; an absent list has none. */
  function ItemsOf(list: Option<seq<string>>): seq<string> {
    if list.Some? then list.value else []
  }

  /** The hard-mode pick `items[Math.floor(Math.random() * items.length)]`
      followed by the `if (randomItem)` guard: `None` when there is nothing to
      pick or the picked string is empty. */
  function PickItem(items: seq<string>, draw: nat): (r: Option<string>)
    ensures r.Some? ==> r.value in items && r.value != ""
    ensures |items| > 0 && items[draw % |items|] != "" ==> r == Some(items[draw % |items|])
    ensures |items| == 0 ==> r.None?
  {
    if |items| == 0 then None
    else if items[draw % |items|] == "" then None
    else Some(items[draw % |items|])
  }

  // ---------------------------------------------------------------- planets

  /** The planet's name as it appears in a question: "the Sun" and "the Moon",
      every other planet by its bare name. */
  function PlanetName(p: Planet): (s: string)
    ensures p.name == "Sun" || p.name == "Moon" ==> s == "the " + p.name
    ensures p.name != "Sun" && p.name != "Moon" ==> s == p.name
  {
    if p.name == "Sun" || p.name == "Moon" then "the " + p.name else p.name
  }

  /** The relationship list a planet block is about (absent for the other attributes). */
  function Relation(p: Planet, a: PlanetAttr): Option<seq<string>> {
    match a
    case Domicile => p.domicile
    case Exaltation => p.exaltation
    case Detriment => p.detriment
    case Fall => p.fall
    case _ => None
  }

  predicate IsRelation(a: PlanetAttr) {
    a == Domicile || a == Exaltation || a == Detriment || a == Fall
  }

  /** The plain string list of the archetype, need and descriptor blocks. */
  function PlanetList(p: Planet, a: PlanetAttr): seq<string> {
    match a
    case Archetypes => p.archetypes
    case Needs => p.needs
    case Descriptors => p.descriptors
    case _ => ItemsOf(Relation(p, a))
  }

  /** The other planets a block draws distractors from: a different name and,
      for the descriptor and relationship blocks, a non-empty list. */
  function OtherPlanets(planets: seq<Planet>, p: Planet, a: PlanetAttr): seq<Planet> {
    if a == Archetypes || a == Needs then Filter(planets, (q: Planet) => q.name != p.name)
    else if a == Descriptors then Filter(planets, (q: Planet) => q.name != p.name && |q.descriptors| > 0)
    else Filter(planets, (q: Planet) => q.name != p.name && Present(Relation(q, a)))
  }

  /** Whether the callback returns before doing anything: an empty descriptor
      list or an absent or empty relationship list. */
  predicate PlanetSkipped(p: Planet, a: PlanetAttr) {
    (a == Descriptors && |p.descriptors| == 0) || (IsRelation(a) && !Present(Relation(p, a)))
  }

  function EasyPlanetPrompt(a: PlanetAttr, name: string): string {
    match a
    case Archetypes => "What are the archetypes of " + name + "?"
    case Needs => "What are the needs of " + name + "?"
    case Descriptors => "What are the descriptors of " + name + "?"
    case Domicile => "Which sign(s) is " + name + " in domicile?"
    case Exaltation => "In which sign(s) is " + name + " exalted?"
    case Detriment => "In which sign(s) is " + name + " in detriment?"
    case Fall => "In which sign(s) is " + name + " in fall?"
  }

  function HardPlanetPrompt(a: PlanetAttr, name: string): string {
    match a
    case Archetypes => "Which of these is an archetype of " + name + "?"
    case Needs => "Which of these is a need of " + name + "?"
    case Descriptors => "Which of these is a descriptor of " + name + "?"
    case Domicile => "In which sign is " + name + " in domicile?"
    case Exaltation => "In which sign is " + name + " exalted?"
    case Detriment => "In which sign is " + name + " in detriment?"
    case Fall => "In which sign is " + name + " in fall?"
  }

  /** Easy mode: the whole list joined. The archetype, need and descriptor
      answers are capitalised; the relationship answers are not, and their
      distractors drop empty joins. */
  function EasyPlanetDraft(planets: seq<Planet>, p: Planet, a: PlanetAttr): (d: Draft)
    ensures !d.NoQuestion? ==> d.Synthesised? && d.cat == planet
  {
    if PlanetSkipped(p, a) then NoQuestion
    else
      var others := OtherPlanets(planets, p, a);
      var prompt := EasyPlanetPrompt(a, PlanetName(p));
      if IsRelation(a) then
        var pool := Filter(Map(others, (q: Planet) => Joined(ItemsOf(Relation(q, a)))), (s: string) => s != "");
        Synthesised(planet, prompt, Joined(ItemsOf(Relation(p, a))), pool)
      else
        Synthesised(planet, prompt, Capitalize(Joined(PlanetList(p, a))),
                    Map(others, (q: Planet) => Capitalize(Joined(PlanetList(q, a)))))
  }

  /** Hard mode: one picked item. Archetypes, needs and descriptors are
      capitalised, answer and distractors alike; relationship items are not. */
  function HardPlanetDraft(planets: seq<Planet>, p: Planet, a: PlanetAttr, draw: nat): (d: Draft)
    ensures !d.NoQuestion? ==> d.Synthesised? && d.cat == planet
  {
    if PlanetSkipped(p, a) then NoQuestion
    else
      var others := OtherPlanets(planets, p, a);
      var candidates := Flatten(Map(others, (q: Planet) => PlanetList(q, a)));
      var prompt := HardPlanetPrompt(a, PlanetName(p));
      match PickItem(PlanetList(p, a), draw)
      case None => NoQuestion
      case Some(item) =>
        if IsRelation(a) then Synthesised(planet, prompt, item, candidates)
        else Synthesised(planet, prompt, Capitalize(item), Map(candidates, Capitalize))
  }

  // ------------------------------------------------------------------ signs

  /** `sign.domicile && sign.domicile[0]`: a present list whose first entry is non-empty. */
  predicate HasRuler(s: Sign) {
    s.domicile.Some? && |s.domicile.value| > 0 && s.domicile.value[0] != ""
  }

  /** The ruler answer: the first domicile entry, or "Unknown" without one. */
  function RulerOf(s: Sign): (r: string)
    ensures HasRuler(s) ==> r == s.domicile.value[0]
    ensures !HasRuler(s) ==> r == "Unknown"
  {
    if HasRuler(s) then s.domicile.value[0] else "Unknown"
  }

  /** `${polarity}, ${element}, ${modality}`. */
  function CategoriesOf(s: Sign): string {
    s.polarity + ", " + s.element + ", " + s.modality
  }

  function OtherSigns(signs: seq<Sign>, s: Sign): seq<Sign> {
    Filter(signs, (t: Sign) => t.name != s.name)
  }

  function SignDraft(signs: seq<Sign>, mode: Mode, s: Sign, a: SignAttr, draw: nat): (d: Draft)
    ensures !d.NoQuestion? ==> d.cat == sign
    ensures d.Fixed? ==> |d.options| >= 2
    ensures d.Fixed? && Canonical(s) ==> d.correct in d.options
  {
    var others := OtherSigns(signs, s);
    match a
    case Ruler =>
      var rulers := Dedupe(Map(Filter(signs, (t: Sign) => t.name != s.name && HasRuler(t)), RulerOf));
      Synthesised(sign, "Which planet rules the sign of " + s.name + "?", RulerOf(s), rulers)
    case Categories =>
      Synthesised(sign, "What are the categories (polarity, element, modality) of " + s.name + "?",
                  CategoriesOf(s), Map(others, CategoriesOf))
    case SignDescriptors =>
      if mode == Easy then
        Synthesised(sign, "What are the descriptors of " + s.name + "?", Capitalize(Joined(s.descriptors)),
                    Map(others, (t: Sign) => Capitalize(Joined(t.descriptors))))
      else
        (match PickItem(s.descriptors, draw)
         case None => NoQuestion
         case Some(item) =>
           Synthesised(sign, "Which of these is a descriptor of " + s.name + "?", Capitalize(item),
                       Map(Flatten(Map(others, (t: Sign) => t.descriptors)), Capitalize)))
    case SignNeeds =>
      // the needs are capitalised before the pick
      (match PickItem(Map(s.needs, Capitalize), draw)
       case None => NoQuestion
       case Some(item) =>
         Synthesised(sign, "Which of these is a need of " + s.name + "?", item,
                     Flatten(Map(others, (t: Sign) => Map(t.needs, Capitalize)))))
    case Modality => Fixed(sign, "What is the modality of " + s.name + "?", s.modality, Modalities)
    case Element => Fixed(sign, "What is the element of " + s.name + "?", s.element, Elements)
    case Polarity => Fixed(sign, "What is the polarity of " + s.name + "?", s.polarity, Polarities)
  }

  // ----------------------------------------------------------------- houses

  /** `houses.find(h => h.type.startsWith(kind))?.type || kind`: the type of the
      first house of that kind, or the kind itself when there is none. */
  function KindExample(houses: seq<House>, kind: string): (r: string)
    requires kind != ""
    ensures StartsWith(r, kind)
    ensures (forall k :: 0 <= k < |houses| ==> !StartsWith(houses[k].houseType, kind)) ==> r == kind
    ensures forall k :: (0 <= k < |houses| && StartsWith(houses[k].houseType, kind)
              && forall j :: 0 <= j < k ==> !StartsWith(houses[j].houseType, kind)) ==> r == houses[k].houseType
    decreases |houses|
  {
    if |houses| == 0 then kind
    else if StartsWith(houses[0].houseType, kind) then houses[0].houseType
    else
      var r := KindExample(houses[1..], kind);
      assert forall k :: 1 <= k < |houses| ==> houses[k] == houses[1..][k - 1];
      r
  }

  /** The three house-type options: one example of each kind, Angular,
      Succedent, Cadent, with the asked house's own type put into its kind's
      slot when it is not already among them. */
  function HouseTypeOptions(houses: seq<House>, t: string): (r: seq<string>)
    ensures |r| == 3
    ensures StartsWith(r[0], "Angular") && StartsWith(r[1], "Succedent") && StartsWith(r[2], "Cadent")
    ensures Classified(t) ==> t in r
    ensures Distinct(r)
  {
    assert forall u :: StartsWith(u, "Angular") ==> u[0] == 'A';
    assert forall u :: StartsWith(u, "Succedent") ==> u[0] == 'S';
    assert forall u :: StartsWith(u, "Cadent") ==> u[0] == 'C';
    var angular, succedent, cadent :=
      KindExample(houses, "Angular"), KindExample(houses, "Succedent"), KindExample(houses, "Cadent");
    if t in [angular, succedent, cadent] then [angular, succedent, cadent]
    else if StartsWith(t, "Angular") then [t, succedent, cadent]
    else if StartsWith(t, "Succedent") then [angular, t, cadent]
    else if StartsWith(t, "Cadent") then [angular, succedent, t]
    else [angular, succedent, cadent]
  }

  /** The house number with its suffix, as in "the 3rd House". */
  function Ordinal(n: int): string {
    IntToString(n) + OrdinalSuffix(n)
  }

  function HouseDraft(houses: seq<House>, mode: Mode, h: House, a: HouseAttr, draw: nat): (d: Draft)
    ensures !d.NoQuestion? ==> d.cat == house
    ensures d.Fixed? ==> |d.options| == 3
    ensures d.Fixed? && Classified(h.houseType) ==> d.correct in d.options
  {
    var others := Filter(houses, (g: House) => g.number != h.number);
    match a
    case PrimaryTopics =>
      if mode == Easy then
        Synthesised(house, "What are the primary topics of the " + Ordinal(h.number) + " House?",
                    Capitalize(Joined(h.primaryTopics)),
                    Map(others, (g: House) => Capitalize(Joined(g.primaryTopics))))
      else
        (match PickItem(Map(h.primaryTopics, Capitalize), draw)
         case None => NoQuestion
         case Some(item) =>
           Synthesised(house, "Which of these is a primary topic of the " + Ordinal(h.number) + " House?", item,
                       Flatten(Map(others, (g: House) => Map(g.primaryTopics, Capitalize)))))
    case SecondaryTopics =>
      (match PickItem(Map(h.secondaryTopics, Capitalize), draw)
       case None => NoQuestion
       case Some(item) =>
         Synthesised(house, "Which of these is a secondary topic of the " + Ordinal(h.number) + " House?", item,
                     Flatten(Map(others, (g: House) => Map(g.secondaryTopics, Capitalize)))))
    case HouseType =>
      Fixed(house, "What type of house is the " + Ordinal(h.number) + " House?", h.houseType,
            HouseTypeOptions(houses, h.houseType))
  }

  // ---------------------------------------------------------------- aspects

  /** The shared-qualities answer: the flags that hold, in the order polarity,
      element, modality, joined by ", ", or "No shared qualities". */
  function QualitiesOf(a: Aspect): string {
    var list := (if a.samePolarity then ["Same polarity"] else [])
      + (if a.sameElement then ["Same element"] else [])
      + (if a.sameModality then ["Same modality"] else []);
    if |list| > 0 then Joined(list) else "No shared qualities"
  }

  /** Every answer the shared-qualities question can have. */
  const AllCombinations: seq<string> := [
    "Same polarity, Same element, Same modality",
    "Same polarity, Same element",
    "Same polarity, Same modality",
    "Same element, Same modality",
    "Same polarity",
    "Same element",
    "Same modality",
    "No shared qualities"]

  function AspectDraft(aspects: seq<Aspect>, mode: Mode, x: Aspect, a: AspectAttr, draw: nat): (d: Draft)
    ensures !d.NoQuestion? ==> d.Synthesised? && d.cat == aspect
  {
    var others := Filter(aspects, (b: Aspect) => b.name != x.name);
    match a
    case Relationship =>
      Synthesised(aspect, "What is the relationship description of a " + x.name + " aspect?", x.relationship,
                  Map(others, (b: Aspect) => b.relationship))
    case Degrees =>
      Synthesised(aspect, "How many degrees are in a " + x.name + " aspect?", IntToString(x.degrees),
                  Map(others, (b: Aspect) => IntToString(b.degrees)))
    case SharedQualities =>
      var correct := QualitiesOf(x);
      Synthesised(aspect, "Which zodiacal qualities are shared in a " + x.name + " aspect?", correct,
                  Filter(AllCombinations, (c: string) => c != correct))
    case Function =>
      if mode == Hard then
        (match PickItem(Map(x.functions, Capitalize), draw)
         case None => NoQuestion
         case Some(item) =>
           Synthesised(aspect, "Which of these is a function or keyword of a " + x.name + " aspect?", item,
                       Flatten(Map(others, (b: Aspect) => Map(b.functions, Capitalize)))))
      else
        Synthesised(aspect, "What is the function or meaning of a " + x.name + " aspect?",
                    Capitalize(Joined(x.functions)),
                    Map(others, (b: Aspect) => Capitalize(Joined(b.functions))))
  }

  // -------------------------------------------------------------- dispatch

  /** Whether the callback for entity `i` of block `b` calls `Math.random` for
      a pick (the option synthesiser's own draws are not counted here). */
  predicate Draws(db: Dataset, mode: Mode, b: Block, i: nat)
    requires i < EntityCount(db, mode, b)
  {
    match b
    case PlanetBlock(a) => mode == Hard && !PlanetSkipped(db.planets[i], a)
    case SignBlock(a) => (a == SignDescriptors && mode == Hard) || a == SignNeeds
    case HouseBlock(a) => (a == PrimaryTopics && mode == Hard) || a == SecondaryTopics
    case AspectBlock(a) => a == Function && mode == Hard
  }

  /** The callback of block `b` for its `i`-th entity, given the draw it picks with. */
  function DraftOf(db: Dataset, mode: Mode, b: Block, i: nat, draw: nat): Draft
    requires i < EntityCount(db, mode, b)
  {
    match b
    case PlanetBlock(a) =>
      if mode == Easy then EasyPlanetDraft(db.planets, db.planets[i], a)
      else HardPlanetDraft(db.planets, db.planets[i], a, draw)
    case SignBlock(a) => SignDraft(db.signs, mode, db.signs[i], a, draw)
    case HouseBlock(a) => HouseDraft(db.houses, mode, db.houses[i], a, draw)
    case AspectBlock(a) =>
      var aspects := Filtered(mode, db.aspects);
      AspectDraft(aspects, mode, aspects[i], a, draw)
  }

  // ------------------------------------------------------------- properties

  /** A question of any block carries the block's category. */
  lemma DraftCategory(db: Dataset, mode: Mode, b: Block, i: nat, draw: nat)
    requires i < EntityCount(db, mode, b)
    ensures !DraftOf(db, mode, b, i, draw).NoQuestion? ==> DraftOf(db, mode, b, i, draw).cat == BlockCategory(b)
  {
  }

  /** A planet callback returns early exactly on an empty descriptor list or an
      absent or empty relationship list; an easy callback that does not return
      early always asks, a hard one asks exactly when its pick is non-empty. */
  lemma PlanetDraftOutcome(db: Dataset, mode: Mode, a: PlanetAttr, i: nat, draw: nat)
    requires i < |db.planets|
    ensures PlanetSkipped(db.planets[i], a) ==> DraftOf(db, mode, PlanetBlock(a), i, draw) == NoQuestion
    ensures !PlanetSkipped(db.planets[i], a) && mode == Easy ==> DraftOf(db, mode, PlanetBlock(a), i, draw).Synthesised?
    ensures !PlanetSkipped(db.planets[i], a) && mode == Hard ==>
      (DraftOf(db, mode, PlanetBlock(a), i, draw).Synthesised? <==> PickItem(PlanetList(db.planets[i], a), draw).Some?)
  {
  }

  /** With the shown planets only relationship blocks skip: Chiron in all four,
      Uranus, Neptune and Pluto in exaltation and fall. */
  lemma ShownPlanetSkips(a: PlanetAttr, i: nat)
    requires i < |Planets|
    ensures PlanetSkipped(Planets[i], a) <==> IsRelation(a) && (i == 10 || (7 <= i && (a == Exaltation || a == Fall)))
  {
    ShownPlanetsWellFormed();
    ShownPlanetRelationships();
  }

  /** Only the Sun and the Moon are given the article. */
  lemma ShownPlanetNames(i: nat)
    requires i < |Planets|
    ensures PlanetName(Planets[i]) == (if i < 2 then "the " + Planets[i].name else Planets[i].name)
  {
  }

  /** A planet question's text names the planet, with "the " before the Sun and the Moon only. */
  lemma PlanetPromptNames(p: Planet)
    ensures StartsWith(PlanetName(p), "the ") <==> p.name == "Sun" || p.name == "Moon" || StartsWith(p.name, "the ")
  {
    if p.name != "Sun" && p.name != "Moon" {
      assert PlanetName(p) == p.name;
    } else {
      assert ("the " + p.name)[..4] == "the ";
    }
  }

  /** The answers a planet block can give about planet `q`: in easy mode its
      whole list joined, in hard mode one item of it; capitalised for the
      archetype, need and descriptor blocks, as written for the relationships. */
  predicate PlanetValue(q: Planet, a: PlanetAttr, mode: Mode, x: string) {
    if mode == Easy then
      x == (if IsRelation(a) then Joined(PlanetList(q, a)) else Capitalize(Joined(PlanetList(q, a))))
    else
      exists y :: y in PlanetList(q, a) && x == (if IsRelation(a) then y else Capitalize(y))
  }

  /** Draft `d` of block `a` about planet `p`: its answer is a value of `p`;
      its candidates are values of the other planets, and every non-empty
      value of another planet that does not skip the block is a candidate. */
  ghost predicate PlanetSourced(planets: seq<Planet>, p: Planet, a: PlanetAttr, mode: Mode, d: Draft) {
    d.Synthesised? ==>
      && PlanetValue(p, a, mode, d.correct)
      && (forall x :: x in d.pool ==> exists q :: q in planets && q.name != p.name && PlanetValue(q, a, mode, x))
      && (forall q, x :: q in planets && q.name != p.name && !PlanetSkipped(q, a) && PlanetValue(q, a, mode, x) && x != ""
            ==> x in d.pool)
  }

  /** Where the answer and the candidates of every planet question come from. */
  lemma PlanetDraftSources(db: Dataset, mode: Mode, a: PlanetAttr, i: nat, draw: nat)
    requires i < |db.planets|
    ensures PlanetSourced(db.planets, db.planets[i], a, mode, DraftOf(db, mode, PlanetBlock(a), i, draw))
  {
    var p, d := db.planets[i], DraftOf(db, mode, PlanetBlock(a), i, draw);
    if d.Synthesised? {
      var others := OtherPlanets(db.planets, p, a);
      OtherPlanetsAre(db.planets, p, a);
      if mode == Easy {
        EasyPlanetSources(db.planets, p, a);
      } else {
        HardPlanetSources(db.planets, p, a, draw);
      }
    }
  }

  /** The planets a block draws candidates from are the other planets that do not skip it. */
  lemma OtherPlanetsAre(planets: seq<Planet>, p: Planet, a: PlanetAttr)
    ensures forall q :: q in OtherPlanets(planets, p, a) <==> q in planets && q.name != p.name && !PlanetSkipped(q, a)
  {
    if a == Archetypes || a == Needs {
      FilterMembers(planets, (q: Planet) => q.name != p.name);
    } else if a == Descriptors {
      FilterMembers(planets, (q: Planet) => q.name != p.name && |q.descriptors| > 0);
    } else {
      FilterMembers(planets, (q: Planet) => q.name != p.name && Present(Relation(q, a)));
    }
  }

  lemma EasyPlanetSources(planets: seq<Planet>, p: Planet, a: PlanetAttr)
    requires forall q :: q in OtherPlanets(planets, p, a) <==> q in planets && q.name != p.name && !PlanetSkipped(q, a)
    ensures PlanetSourced(planets, p, a, Easy, EasyPlanetDraft(planets, p, a))
  {
    var d := EasyPlanetDraft(planets, p, a);
    if d.Synthesised? {
      var others := OtherPlanets(planets, p, a);
      var value := (q: Planet) => if IsRelation(a) then Joined(PlanetList(q, a)) else Capitalize(Joined(PlanetList(q, a)));
      var nonEmpty := (s: string) => s != "";
      assert IsRelation(a) ==> d.pool == Filter(Map(others, value), nonEmpty) by {
        if IsRelation(a) {
          assert Map(others, (q: Planet) => Joined(ItemsOf(Relation(q, a)))) == Map(others, value);
        }
      }
      assert !IsRelation(a) ==> d.pool == Map(others, value);
      assert forall x :: x in d.pool <==> x in Map(others, value) && (IsRelation(a) ==> x != "") by {
        FilterMembers(Map(others, value), nonEmpty);
      }
      forall x | x in d.pool ensures exists q :: q in planets && q.name != p.name && PlanetValue(q, a, Easy, x) {
        var k := MapWitness(others, value, x);
        assert others[k] in others;
      }
      forall q, x | q in planets && q.name != p.name && !PlanetSkipped(q, a) && PlanetValue(q, a, Easy, x) && x != ""
        ensures x in d.pool
      {
        MapImage(others, value, q);
      }
    }
  }

  lemma HardPlanetSources(planets: seq<Planet>, p: Planet, a: PlanetAttr, draw: nat)
    requires forall q :: q in OtherPlanets(planets, p, a) <==> q in planets && q.name != p.name && !PlanetSkipped(q, a)
    ensures PlanetSourced(planets, p, a, Hard, HardPlanetDraft(planets, p, a, draw))
  {
    var d := HardPlanetDraft(planets, p, a, draw);
    if d.Synthesised? {
      var others := OtherPlanets(planets, p, a);
      var lists := Map(others, (q: Planet) => PlanetList(q, a));
      var item := PickItem(PlanetList(p, a), draw).value;
      assert d.correct == (if IsRelation(a) then item else Capitalize(item));
      assert d.pool == (if IsRelation(a) then Flatten(lists) else Map(Flatten(lists), Capitalize));
      HardPlanetPoolFrom(planets, p, a, others, lists, d.pool);
      HardPlanetPoolHas(planets, p, a, others, lists, d.pool);
    }
  }

  /** Every hard-mode candidate is an item of another planet. */
  lemma HardPlanetPoolFrom(planets: seq<Planet>, p: Planet, a: PlanetAttr, others: seq<Planet>,
                           lists: seq<seq<string>>, pool: seq<string>)
    requires forall q :: q in others ==> q in planets && q.name != p.name
    requires lists == Map(others, (q: Planet) => PlanetList(q, a))
    requires pool == (if IsRelation(a) then Flatten(lists) else Map(Flatten(lists), Capitalize))
    ensures forall x :: x in pool ==> exists q :: q in planets && q.name != p.name && PlanetValue(q, a, Hard, x)
  {
    forall x | x in pool ensures exists q :: q in planets && q.name != p.name && PlanetValue(q, a, Hard, x) {
      var y := x;
      if !IsRelation(a) {
        var k := MapWitness(Flatten(lists), Capitalize, x);
        y := Flatten(lists)[k];
      }
      var j, k := FlattenWitness(lists, y);
      assert others[j] in others;
      assert y in PlanetList(others[j], a);
    }
  }

  /** Every item of another planet is a hard-mode candidate. */
  lemma HardPlanetPoolHas(planets: seq<Planet>, p: Planet, a: PlanetAttr, others: seq<Planet>,
                          lists: seq<seq<string>>, pool: seq<string>)
    requires forall q :: q in planets && q.name != p.name && !PlanetSkipped(q, a) ==> q in others
    requires lists == Map(others, (q: Planet) => PlanetList(q, a))
    requires pool == (if IsRelation(a) then Flatten(lists) else Map(Flatten(lists), Capitalize))
    ensures forall q, x :: q in planets && q.name != p.name && !PlanetSkipped(q, a) && PlanetValue(q, a, Hard, x) && x != ""
              ==> x in pool
  {
    forall q, x | q in planets && q.name != p.name && !PlanetSkipped(q, a) && PlanetValue(q, a, Hard, x) && x != ""
      ensures x in pool
    {
      var y :| y in PlanetList(q, a) && x == (if IsRelation(a) then y else Capitalize(y));
      var j :| 0 <= j < |others| && others[j] == q;
      var k :| 0 <= k < |PlanetList(q, a)| && PlanetList(q, a)[k] == y;
      assert lists[j][k] == y;
      if !IsRelation(a) {
        MapImage(Flatten(lists), Capitalize, y);
      }
    }
  }

  /** A pool with one value per other entity holds exactly their values. */
  lemma PoolOfValues<T>(others: seq<T>, f: T -> string, pool: seq<string>)
    requires |pool| == |others| && forall k :: 0 <= k < |pool| ==> pool[k] == f(others[k])
    ensures forall x :: x in pool ==> exists t :: t in others && x == f(t)
    ensures forall t :: t in others ==> f(t) in pool
  {
    forall x | x in pool ensures exists t :: t in others && x == f(t) {
      var k :| 0 <= k < |pool| && pool[k] == x;
      assert others[k] in others;
    }
    forall t | t in others ensures f(t) in pool {
      var k :| 0 <= k < |others| && others[k] == t;
      assert pool[k] == f(t);
    }
  }

  /** A pool made by flattening one list per other entity holds exactly their items. */
  lemma PoolOfItems<T>(others: seq<T>, g: T -> seq<string>, lists: seq<seq<string>>, pool: seq<string>)
    requires |lists| == |others| && forall k :: 0 <= k < |lists| ==> lists[k] == g(others[k])
    requires pool == Flatten(lists)
    ensures forall x :: x in pool ==> exists t :: t in others && x in g(t)
    ensures forall t, x :: t in others && x in g(t) ==> x in pool
  {
    forall x | x in pool ensures exists t :: t in others && x in g(t) {
      var j, k := FlattenWitness(lists, x);
      assert others[j] in others && g(others[j])[k] == x;
    }
    forall t, x | t in others && x in g(t) ensures x in pool {
      var j :| 0 <= j < |others| && others[j] == t;
      var k :| 0 <= k < |g(t)| && g(t)[k] == x;
      assert lists[j][k] == x;
    }
  }

  /** The items of a capitalised list are the capitalised items of the list. */
  lemma CapitalizedItems(items: seq<string>)
    ensures forall x :: x in Map(items, Capitalize) <==> exists y :: y in items && x == Capitalize(y)
  {
    forall x | x in Map(items, Capitalize) ensures exists y :: y in items && x == Capitalize(y) {
      var k := MapWitness(items, Capitalize, x);
      assert items[k] in items;
    }
    forall y | y in items ensures Capitalize(y) in Map(items, Capitalize) {
      MapImage(items, Capitalize, y);
    }
  }

  /** The answers a sign block can give about sign `t`. */
  predicate SignValue(t: Sign, a: SignAttr, mode: Mode, x: string) {
    match a
    case Ruler => x == RulerOf(t)
    case Categories => x == CategoriesOf(t)
    case SignDescriptors =>
      if mode == Easy then x == Capitalize(Joined(t.descriptors))
      else exists y :: y in t.descriptors && x == Capitalize(y)
    case SignNeeds => exists y :: y in t.needs && x == Capitalize(y)
    case Modality => x == t.modality
    case Element => x == t.element
    case Polarity => x == t.polarity
  }

  /** Whether a sign takes part in block `a`'s candidates: for the ruler
      question only signs with a ruler do. */
  predicate SignCandidate(t: Sign, a: SignAttr) {
    a == Ruler ==> HasRuler(t)
  }

  /** Draft `d` of block `a` about sign `s`: its answer is a value of `s`; its
      candidates are values of the other signs taking part, and every value of
      such a sign is a candidate. */
  ghost predicate SignSourced(signs: seq<Sign>, s: Sign, a: SignAttr, mode: Mode, d: Draft) {
    && (!d.NoQuestion? ==> SignValue(s, a, mode, d.correct))
    && (d.Synthesised? ==>
      && (forall x :: x in d.pool ==> exists t :: t in signs && t.name != s.name && SignCandidate(t, a) && SignValue(t, a, mode, x))
      && (forall t, x :: t in signs && t.name != s.name && SignCandidate(t, a) && SignValue(t, a, mode, x) ==> x in d.pool))
  }

  /** Where the answer and the candidates of every sign question come from. */
  lemma SignDraftSources(db: Dataset, mode: Mode, a: SignAttr, i: nat, draw: nat)
    requires i < |db.signs|
    ensures SignSourced(db.signs, db.signs[i], a, mode, DraftOf(db, mode, SignBlock(a), i, draw))
  {
    var signs, s := db.signs, db.signs[i];
    match a
    case Ruler => RulerSources(signs, mode, s, draw);
    case Categories => CategoriesSources(signs, mode, s, draw);
    case SignDescriptors =>
      if mode == Easy {
        EasySignDescriptorSources(signs, s, draw);
      } else {
        HardSignDescriptorSources(signs, s, draw);
      }
    case SignNeeds => SignNeedSources(signs, mode, s, draw);
    case _ =>
  }

  lemma RulerSources(signs: seq<Sign>, mode: Mode, s: Sign, draw: nat)
    ensures SignSourced(signs, s, Ruler, mode, SignDraft(signs, mode, s, Ruler, draw))
  {
    var d := SignDraft(signs, mode, s, Ruler, draw);
    RulerPool(signs, s, d.pool);
  }

  /** The ruler candidates are the rulers of the other signs that have one. */
  lemma RulerPool(signs: seq<Sign>, s: Sign, pool: seq<string>)
    requires pool == Dedupe(Map(Filter(signs, (t: Sign) => t.name != s.name && HasRuler(t)), RulerOf))
    ensures forall x :: x in pool ==> exists t :: t in signs && t.name != s.name && HasRuler(t) && x == RulerOf(t)
    ensures forall t :: t in signs && t.name != s.name && HasRuler(t) ==> RulerOf(t) in pool
  {
    var keep := (t: Sign) => t.name != s.name && HasRuler(t);
    var candidates := Filter(signs, keep);
    DedupeMembers(Map(candidates, RulerOf));
    FilterMembers(signs, keep);
    PoolOfValues(candidates, RulerOf, Map(candidates, RulerOf));
  }

  lemma CategoriesSources(signs: seq<Sign>, mode: Mode, s: Sign, draw: nat)
    ensures SignSourced(signs, s, Categories, mode, SignDraft(signs, mode, s, Categories, draw))
  {
    FilterMembers(signs, (t: Sign) => t.name != s.name);
    PoolOfValues(OtherSigns(signs, s), CategoriesOf, Map(OtherSigns(signs, s), CategoriesOf));
  }

  lemma EasySignDescriptorSources(signs: seq<Sign>, s: Sign, draw: nat)
    ensures SignSourced(signs, s, SignDescriptors, Easy, SignDraft(signs, Easy, s, SignDescriptors, draw))
  {
    var others := OtherSigns(signs, s);
    var value := (t: Sign) => Capitalize(Joined(t.descriptors));
    FilterMembers(signs, (t: Sign) => t.name != s.name);
    PoolOfValues(others, value, Map(others, value));
  }

  lemma HardSignDescriptorSources(signs: seq<Sign>, s: Sign, draw: nat)
    ensures SignSourced(signs, s, SignDescriptors, Hard, SignDraft(signs, Hard, s, SignDescriptors, draw))
  {
    var d := SignDraft(signs, Hard, s, SignDescriptors, draw);
    if d.Synthesised? {
      var others := OtherSigns(signs, s);
      FilterMembers(signs, (t: Sign) => t.name != s.name);
      var lists := Map(others, (t: Sign) => t.descriptors);
      assert d.pool == Map(Flatten(lists), Capitalize);
      PoolOfItems(others, (t: Sign) => t.descriptors, lists, Flatten(lists));
      CapitalizedItems(Flatten(lists));
    }
  }

  lemma SignNeedSources(signs: seq<Sign>, mode: Mode, s: Sign, draw: nat)
    ensures SignSourced(signs, s, SignNeeds, mode, SignDraft(signs, mode, s, SignNeeds, draw))
  {
    var d := SignDraft(signs, mode, s, SignNeeds, draw);
    if d.Synthesised? {
      var others := OtherSigns(signs, s);
      FilterMembers(signs, (t: Sign) => t.name != s.name);
      CapitalizedItems(s.needs);
      var lists := Map(others, (t: Sign) => Map(t.needs, Capitalize));
      PoolOfItems(others, (t: Sign) => Map(t.needs, Capitalize), lists, d.pool);
      forall t | t in others ensures forall x :: x in Map(t.needs, Capitalize) <==> exists y :: y in t.needs && x == Capitalize(y) {
        CapitalizedItems(t.needs);
      }
    }
  }

  /** A pool that flattens the capitalised lists of the other entities holds
      exactly their capitalised items. */
  lemma PoolOfCapitalizedItems<T>(others: seq<T>, list: T -> seq<string>, lists: seq<seq<string>>, pool: seq<string>)
    requires |lists| == |others| && forall k :: 0 <= k < |lists| ==> lists[k] == Map(list(others[k]), Capitalize)
    requires pool == Flatten(lists)
    ensures forall x :: x in pool ==> exists t :: t in others && exists y :: y in list(t) && x == Capitalize(y)
    ensures forall t, y :: t in others && y in list(t) ==> Capitalize(y) in pool
  {
    PoolOfItems(others, (t: T) => Map(list(t), Capitalize), lists, pool);
    forall t | t in others ensures forall x :: x in Map(list(t), Capitalize) <==> exists y :: y in list(t) && x == Capitalize(y) {
      CapitalizedItems(list(t));
    }
  }

  /** The answers a house block can give about house `g`. */
  predicate HouseValue(g: House, a: HouseAttr, mode: Mode, x: string) {
    match a
    case PrimaryTopics =>
      if mode == Easy then x == Capitalize(Joined(g.primaryTopics))
      else exists y :: y in g.primaryTopics && x == Capitalize(y)
    case SecondaryTopics => exists y :: y in g.secondaryTopics && x == Capitalize(y)
    case HouseType => x == g.houseType
  }

  /** Draft `d` of block `a` about house `h`: its answer is a value of `h`; its
      candidates are values of the houses with another number, and every value
      of such a house is a candidate. */
  ghost predicate HouseSourced(houses: seq<House>, h: House, a: HouseAttr, mode: Mode, d: Draft) {
    && (!d.NoQuestion? ==> HouseValue(h, a, mode, d.correct))
    && (d.Synthesised? ==>
      && (forall x :: x in d.pool ==> exists g :: g in houses && g.number != h.number && HouseValue(g, a, mode, x))
      && (forall g, x :: g in houses && g.number != h.number && HouseValue(g, a, mode, x) ==> x in d.pool))
  }

  /** Where the answer and the candidates of every house question come from. */
  lemma HouseDraftSources(db: Dataset, mode: Mode, a: HouseAttr, i: nat, draw: nat)
    requires i < |db.houses|
    ensures HouseSourced(db.houses, db.houses[i], a, mode, DraftOf(db, mode, HouseBlock(a), i, draw))
  {
    var houses, h := db.houses, db.houses[i];
    match a
    case PrimaryTopics =>
      if mode == Easy {
        EasyPrimarySources(houses, h, draw);
      } else {
        HardPrimarySources(houses, h, draw);
      }
    case SecondaryTopics => SecondarySources(houses, mode, h, draw);
    case HouseType =>
  }

  lemma EasyPrimarySources(houses: seq<House>, h: House, draw: nat)
    ensures HouseSourced(houses, h, PrimaryTopics, Easy, HouseDraft(houses, Easy, h, PrimaryTopics, draw))
  {
    var keep := (g: House) => g.number != h.number;
    var others := Filter(houses, keep);
    var value := (g: House) => Capitalize(Joined(g.primaryTopics));
    FilterMembers(houses, keep);
    PoolOfValues(others, value, Map(others, value));
  }

  lemma HardPrimarySources(houses: seq<House>, h: House, draw: nat)
    ensures HouseSourced(houses, h, PrimaryTopics, Hard, HouseDraft(houses, Hard, h, PrimaryTopics, draw))
  {
    var d := HouseDraft(houses, Hard, h, PrimaryTopics, draw);
    if d.Synthesised? {
      var keep := (g: House) => g.number != h.number;
      var others := Filter(houses, keep);
      FilterMembers(houses, keep);
      CapitalizedItems(h.primaryTopics);
      PoolOfCapitalizedItems(others, (g: House) => g.primaryTopics, Map(others, (g: House) => Map(g.primaryTopics, Capitalize)), d.pool);
    }
  }

  lemma SecondarySources(houses: seq<House>, mode: Mode, h: House, draw: nat)
    ensures HouseSourced(houses, h, SecondaryTopics, mode, HouseDraft(houses, mode, h, SecondaryTopics, draw))
  {
    var d := HouseDraft(houses, mode, h, SecondaryTopics, draw);
    if d.Synthesised? {
      var keep := (g: House) => g.number != h.number;
      var others := Filter(houses, keep);
      FilterMembers(houses, keep);
      CapitalizedItems(h.secondaryTopics);
      PoolOfCapitalizedItems(others, (g: House) => g.secondaryTopics, Map(others, (g: House) => Map(g.secondaryTopics, Capitalize)), d.pool);
    }
  }

  /** The answers an aspect block can give about aspect `e`. */
  predicate AspectValue(e: Aspect, a: AspectAttr, mode: Mode, x: string) {
    match a
    case Relationship => x == e.relationship
    case Degrees => x == IntToString(e.degrees)
    case SharedQualities => x == QualitiesOf(e)
    case Function =>
      if mode == Hard then exists y :: y in e.functions && x == Capitalize(y)
      else x == Capitalize(Joined(e.functions))
  }

  /** Draft `d` of block `a` about aspect `e`: its answer is a value of `e`;
      but for the shared-qualities question, whose candidates are the other
      combinations, its candidates are values of the other aspects asked
      about, and every value of such an aspect is a candidate. */
  ghost predicate AspectSourced(aspects: seq<Aspect>, e: Aspect, a: AspectAttr, mode: Mode, d: Draft) {
    && (!d.NoQuestion? ==> AspectValue(e, a, mode, d.correct))
    && (d.Synthesised? && a != SharedQualities ==>
      && (forall x :: x in d.pool ==> exists b :: b in aspects && b.name != e.name && AspectValue(b, a, mode, x))
      && (forall b, x :: b in aspects && b.name != e.name && AspectValue(b, a, mode, x) ==> x in d.pool))
  }

  /** Where the answer and the candidates of every aspect question come from. */
  lemma AspectDraftSources(db: Dataset, mode: Mode, a: AspectAttr, i: nat, draw: nat)
    requires i < |Filtered(mode, db.aspects)|
    ensures var aspects := Filtered(mode, db.aspects);
      AspectSourced(aspects, aspects[i], a, mode, DraftOf(db, mode, AspectBlock(a), i, draw))
  {
    var aspects := Filtered(mode, db.aspects);
    var e := aspects[i];
    match a
    case Relationship => RelationshipSources(aspects, mode, e, draw);
    case Degrees => DegreeSources(aspects, mode, e, draw);
    case SharedQualities =>
    case Function =>
      if mode == Easy {
        EasyFunctionSources(aspects, e, draw);
      } else {
        HardFunctionSources(aspects, e, draw);
      }
  }

  lemma RelationshipSources(aspects: seq<Aspect>, mode: Mode, e: Aspect, draw: nat)
    ensures AspectSourced(aspects, e, Relationship, mode, AspectDraft(aspects, mode, e, Relationship, draw))
  {
    var keep := (b: Aspect) => b.name != e.name;
    var others := Filter(aspects, keep);
    var value := (b: Aspect) => b.relationship;
    FilterMembers(aspects, keep);
    PoolOfValues(others, value, Map(others, value));
  }

  lemma DegreeSources(aspects: seq<Aspect>, mode: Mode, e: Aspect, draw: nat)
    ensures AspectSourced(aspects, e, Degrees, mode, AspectDraft(aspects, mode, e, Degrees, draw))
  {
    var keep := (b: Aspect) => b.name != e.name;
    var others := Filter(aspects, keep);
    var value := (b: Aspect) => IntToString(b.degrees);
    FilterMembers(aspects, keep);
    PoolOfValues(others, value, Map(others, value));
  }

  lemma EasyFunctionSources(aspects: seq<Aspect>, e: Aspect, draw: nat)
    ensures AspectSourced(aspects, e, Function, Easy, AspectDraft(aspects, Easy, e, Function, draw))
  {
    var keep := (b: Aspect) => b.name != e.name;
    var others := Filter(aspects, keep);
    var value := (b: Aspect) => Capitalize(Joined(b.functions));
    FilterMembers(aspects, keep);
    PoolOfValues(others, value, Map(others, value));
  }

  lemma HardFunctionSources(aspects: seq<Aspect>, e: Aspect, draw: nat)
    ensures AspectSourced(aspects, e, Function, Hard, AspectDraft(aspects, Hard, e, Function, draw))
  {
    var d := AspectDraft(aspects, Hard, e, Function, draw);
    if d.Synthesised? {
      var keep := (b: Aspect) => b.name != e.name;
      var others := Filter(aspects, keep);
      FilterMembers(aspects, keep);
      CapitalizedItems(e.functions);
      PoolOfCapitalizedItems(others, (b: Aspect) => b.functions, Map(others, (b: Aspect) => Map(b.functions, Capitalize)), d.pool);
    }
  }

  /** The ruler question's answer is the sign's first domicile entry, with the
      "Unknown" fallback, and its distractors are the other signs' rulers,
      without repetition. */
  lemma RulerDraft(db: Dataset, mode: Mode, i: nat, draw: nat)
    requires i < |db.signs|
    ensures DraftOf(db, mode, SignBlock(Ruler), i, draw).Synthesised?
    ensures DraftOf(db, mode, SignBlock(Ruler), i, draw).correct == RulerOf(db.signs[i])
    ensures Distinct(DraftOf(db, mode, SignBlock(Ruler), i, draw).pool)
  {
  }

  /** With the shown signs the fallback is never taken. */
  lemma ShownRulers(i: nat)
    requires i < |Signs|
    ensures HasRuler(Signs[i]) && RulerOf(Signs[i]) == Signs[i].domicile.value[0]
  {
    ShownSignsWellFormed();
  }

  /** The hard-mode modality, element and polarity questions offer the same
      unshuffled list whichever sign is asked about, and it holds the answer
      when the sign's values are canonical. */
  lemma SignFixedOptions(db: Dataset, mode: Mode, a: SignAttr, i: nat, j: nat, draw: nat, draw': nat)
    requires a == Modality || a == Element || a == Polarity
    requires i < |db.signs| && j < |db.signs|
    ensures DraftOf(db, mode, SignBlock(a), i, draw).Fixed?
    ensures DraftOf(db, mode, SignBlock(a), i, draw).options == DraftOf(db, mode, SignBlock(a), j, draw').options
    ensures DraftOf(db, mode, SignBlock(a), i, draw).options
      == (if a == Modality then ["Cardinal", "Fixed", "Mutable"]
          else if a == Element then ["Fire", "Earth", "Air", "Water"] else ["Diurnal", "Nocturnal"])
    ensures SignValuesCanonical(db.signs) ==>
      DraftOf(db, mode, SignBlock(a), i, draw).correct in DraftOf(db, mode, SignBlock(a), i, draw).options
  {
  }

  /** With the shown houses every house-type question offers the same three
      types, Angular, Succedent and Cadent, and no substitution happens. */
  lemma ShownHouseTypeOptions(i: nat)
    requires i < |Houses|
    ensures HouseTypeOptions(Houses, Houses[i].houseType) == [AngularType, SuccedentType, CadentType]
  {
    ShownHousesWellFormed();
    HouseTypeKinds();
    CyclingHouseTypes(Houses, i);
  }

  /** Houses of the three shown types, starting with Angular, Succedent and
      Cadent, offer these three types, in this order, for every house. */
  lemma CyclingHouseTypes(houses: seq<House>, i: nat)
    requires 3 <= |houses| && i < |houses|
    requires OfShownTypes(houses)
    requires houses[0].houseType == AngularType && houses[1].houseType == SuccedentType && houses[2].houseType == CadentType
    requires StartsWith(AngularType, "Angular") && StartsWith(SuccedentType, "Succedent") && StartsWith(CadentType, "Cadent")
    requires AngularType[0] == 'A' && SuccedentType[0] == 'S' && CadentType[0] == 'C'
    ensures HouseTypeOptions(houses, houses[i].houseType) == [AngularType, SuccedentType, CadentType]
  {
    assert "Succedent"[0] == 'S' && "Cadent"[0] == 'C';
    assert !StartsWith(AngularType, "Succedent") && !StartsWith(AngularType, "Cadent") && !StartsWith(SuccedentType, "Cadent");
    assert KindExample(houses, "Angular") == AngularType;
    assert KindExample(houses, "Succedent") == SuccedentType by {
      assert forall j :: 0 <= j < 1 ==> !StartsWith(houses[j].houseType, "Succedent");
    }
    assert KindExample(houses, "Cadent") == CadentType by {
      assert forall j :: 0 <= j < 2 ==> !StartsWith(houses[j].houseType, "Cadent");
    }
    assert ShownType(houses[i].houseType);
  }

  /** The position of an aspect's answer in the list of all combinations. */
  function QualityIndex(a: Aspect): (k: nat)
    ensures k < |AllCombinations|
  {
    match (a.samePolarity, a.sameElement, a.sameModality)
    case (true, true, true) => 0
    case (true, true, false) => 1
    case (true, false, true) => 2
    case (false, true, true) => 3
    case (true, false, false) => 4
    case (false, true, false) => 5
    case (false, false, true) => 6
    case (false, false, false) => 7
  }

  /** The shared-qualities answer is the combination of the flags that hold;
      "No shared qualities" exactly when none does. */
  lemma QualitiesCombination(a: Aspect)
    ensures QualitiesOf(a) == AllCombinations[QualityIndex(a)]
  {
    if a.samePolarity {
      QualitiesWithPolarity(a);
    } else {
      QualitiesWithoutPolarity(a);
    }
  }

  lemma QualitiesWithPolarity(a: Aspect)
    requires a.samePolarity
    ensures QualitiesOf(a) == AllCombinations[QualityIndex(a)]
  {
    var p, e, m := "Same polarity", "Same element", "Same modality";
    if a.sameElement && a.sameModality {
      assert QualitiesOf(a) == Joined([p, e, m]) by {
        assert [p] + [e] + [m] == [p, e, m];
      }
      JoinedCombination(p, e, m);
    } else if a.sameElement {
      assert QualitiesOf(a) == Joined([p, e]);
      JoinedPair(p, e, 1);
    } else if a.sameModality {
      assert QualitiesOf(a) == Joined([p, m]);
      JoinedPair(p, m, 2);
    }
  }

  lemma QualitiesWithoutPolarity(a: Aspect)
    requires !a.samePolarity
    ensures QualitiesOf(a) == AllCombinations[QualityIndex(a)]
  {
    var e, m := "Same element", "Same modality";
    if a.sameElement && a.sameModality {
      assert QualitiesOf(a) == Joined([e, m]);
      JoinedPair(e, m, 3);
    }
  }

  /** The three-flag entry of the combinations list. */
  lemma JoinedCombination(p: string, e: string, m: string)
    requires p == "Same polarity" && e == "Same element" && m == "Same modality"
    ensures Joined([p, e, m]) == AllCombinations[0]
  {
    JoinThree(p, e, m, ", ");
  }

  /** The two-flag entries of the combinations list. */
  lemma JoinedPair(x: string, y: string, k: nat)
    requires k == 1 ==> x == "Same polarity" && y == "Same element"
    requires k == 2 ==> x == "Same polarity" && y == "Same modality"
    requires k == 3 ==> x == "Same element" && y == "Same modality"
    requires 1 <= k <= 3
    ensures Joined([x, y]) == AllCombinations[k]
  {
    JoinTwo(x, y, ", ");
  }

  lemma QualitiesNone(a: Aspect)
    ensures QualitiesOf(a) == "No shared qualities" <==> !a.samePolarity && !a.sameElement && !a.sameModality
  {
    QualitiesCombination(a);
    if QualityIndex(a) != 7 {
      assert AllCombinations[QualityIndex(a)][0] == 'S';
    }
  }

  /** Different flags give different answers. */
  lemma QualitiesInjective(a: Aspect, b: Aspect)
    requires QualitiesOf(a) == QualitiesOf(b)
    ensures a.samePolarity == b.samePolarity && a.sameElement == b.sameElement && a.sameModality == b.sameModality
  {
    QualitiesCombination(a);
    QualitiesCombination(b);
    assert Distinct(AllCombinations);
    assert QualityIndex(a) == QualityIndex(b);
  }

  /** The shared-qualities distractors are the other seven combinations. */
  lemma QualitiesPool(db: Dataset, mode: Mode, i: nat, draw: nat)
    requires i < |Filtered(mode, db.aspects)|
    ensures var q := DraftOf(db, mode, AspectBlock(SharedQualities), i, draw);
      q.Synthesised? && q.correct in AllCombinations
      && forall c :: c in q.pool <==> c in AllCombinations && c != q.correct
  {
    var x := Filtered(mode, db.aspects)[i];
    QualitiesCombination(x);
    assert QualitiesOf(x) in AllCombinations;
    FilterMembers(AllCombinations, (c: string) => c != QualitiesOf(x));
  }

  /** Easy mode asks only about major aspects. */
  lemma EasyAspectsMajor(db: Dataset, i: nat)
    requires i < |Filtered(Easy, db.aspects)|
    ensures Filtered(Easy, db.aspects)[i].isMajor && Filtered(Easy, db.aspects)[i] in db.aspects
  {
    assert Filtered(Easy, db.aspects)[i] in Filtered(Easy, db.aspects);
  }

  /** The blocks whose callbacks never return without a question. */
  predicate NeverSkips(mode: Mode, b: Block) {
    match b
    case PlanetBlock(a) => mode == Easy && (a == Archetypes || a == Needs)
    case SignBlock(a) => a == Ruler || a == Categories || (a == SignDescriptors && mode == Easy)
                         || a == Modality || a == Element || a == Polarity
    case HouseBlock(a) => (a == PrimaryTopics && mode == Easy) || a == HouseType
    case AspectBlock(a) => a != Function || mode == Easy
  }

  lemma NeverSkipped(db: Dataset, mode: Mode, b: Block, i: nat, draw: nat)
    requires i < EntityCount(db, mode, b) && NeverSkips(mode, b)
    ensures !DraftOf(db, mode, b, i, draw).NoQuestion?
  {
  }

  /** A hard-mode archetype callback asks, whatever its draw, for a planet
      whose archetypes are listed. */
  lemma ListedArchetypesAsk(db: Dataset, i: nat, draw: nat)
    requires i < |db.planets| && Listed(db.planets[i].archetypes)
    ensures !DraftOf(db, Hard, PlanetBlock(Archetypes), i, draw).NoQuestion?
  {
    var items := db.planets[i].archetypes;
    assert items[draw % |items|] != "";
  }

  // ------------------------------------------------------------ soundness

  /** `s` cannot be taken for an option filler: it differs from them in length
      or first letter, or it holds a comma, which no filler does. */
  predicate FillerFree(s: string) {
    UnlikeFiller(s) || ',' in s
  }

  /** A filler-free string is none of the fillers of a three-distractor option set. */
  lemma FillerFreeNotFiller(s: string)
    requires FillerFree(s)
    ensures s !in OptionFillers(3) && s !in AdditionalFillers(3)
  {
    forall n | 1 <= n <= 3 ensures s != OptionFiller(n) && s != AdditionalFiller(n) {
      assert NatToString(n) == [DigitChar(n)];
      var o, f := OptionFiller(n), AdditionalFiller(n);
      assert o == ['O', 'p', 't', 'i', 'o', 'n', ' ', DigitChar(n)];
      assert f == "Additional Option " + [DigitChar(n)];
      assert |f| == 19 && f[0] == 'A';
      assert forall k :: 0 <= k < |f| ==> f[k] != ',' by {
        assert f == ['A', 'd', 'd', 'i', 't', 'i', 'o', 'n', 'a', 'l', ' ', 'O', 'p', 't', 'i', 'o', 'n', ' ', DigitChar(n)];
      }
    }
  }

  /** Capitalising keeps a string filler-free. */
  lemma CapitalizeFillerFree(s: string)
    requires FillerFree(s)
    ensures FillerFree(Capitalize(s))
  {
    var r := Capitalize(s);
    if ',' in s {
      var k :| 0 <= k < |s| && s[k] == ',';
      if k == 0 {
        assert r[0] == ',';
      } else {
        assert r[k] == r[1..][k - 1] == s[1..][k - 1];
      }
    }
  }

  /** Joining filler-free strings gives a filler-free string; two or more
      are joined with a comma. */
  lemma JoinedFillerFree(items: seq<string>)
    requires forall k :: 0 <= k < |items| ==> FillerFree(items[k])
    ensures FillerFree(Joined(items))
  {
    if |items| >= 2 {
      var r := Joined(items);
      assert r == items[0] + ", " + Join(items[1..], ", ");
      assert r[|items[0]|] == ',';
    } else if |items| == 1 {
      assert Joined(items) == items[0];
    }
  }

  /** A printed number starts with a digit or a minus sign. */
  lemma IntToStringFillerFree(n: int)
    ensures FillerFree(IntToString(n))
  {
    if n >= 0 {
      NatToStringLeadingDigit(n);
    }
  }

  /** Every combination of shared qualities is filler-free. */
  lemma CombinationsFillerFree()
    ensures forall c :: c in AllCombinations ==> FillerFree(c)
  {
  }

  lemma ListFillerFree(items: seq<string>)
    requires ListUnlikeFillers(items)
    ensures forall k :: 0 <= k < |items| ==> FillerFree(items[k])
  {
  }

  /** The values of a planet without filler-like strings are filler-free. */
  lemma PlanetValueFillerFree(q: Planet, a: PlanetAttr, mode: Mode, x: string)
    requires PlanetUnlikeFillers(q) && PlanetValue(q, a, mode, x)
    ensures FillerFree(x)
  {
    var list := PlanetList(q, a);
    assert ListUnlikeFillers(list);
    if mode == Easy {
      JoinedFillerFree(list);
      if !IsRelation(a) {
        CapitalizeFillerFree(Joined(list));
      }
    } else {
      var y :| y in list && x == (if IsRelation(a) then y else Capitalize(y));
      assert UnlikeFiller(y);
      if !IsRelation(a) {
        CapitalizeFillerFree(y);
      }
    }
  }

  /** The values of a sign without filler-like strings are filler-free. */
  lemma SignValueFillerFree(t: Sign, a: SignAttr, mode: Mode, x: string)
    requires SignUnlikeFillers(t) && SignValue(t, a, mode, x)
    requires a == Ruler || a == Categories || a == SignDescriptors || a == SignNeeds
    ensures FillerFree(x)
  {
    match a
    case Ruler =>
      if HasRuler(t) {
        assert UnlikeFiller(t.domicile.value[0]);
      }
    case Categories =>
      assert x[|t.polarity|] == ',';
    case SignDescriptors =>
      if mode == Easy {
        JoinedFillerFree(t.descriptors);
        CapitalizeFillerFree(Joined(t.descriptors));
      } else {
        var y :| y in t.descriptors && x == Capitalize(y);
        CapitalizeFillerFree(y);
      }
    case SignNeeds =>
      var y :| y in t.needs && x == Capitalize(y);
      CapitalizeFillerFree(y);
  }

  /** The values of a house without filler-like strings are filler-free. */
  lemma HouseValueFillerFree(g: House, a: HouseAttr, mode: Mode, x: string)
    requires HouseUnlikeFillers(g) && HouseValue(g, a, mode, x) && a != HouseType
    ensures FillerFree(x)
  {
    if a == PrimaryTopics && mode == Easy {
      JoinedFillerFree(g.primaryTopics);
      CapitalizeFillerFree(Joined(g.primaryTopics));
    } else if a == PrimaryTopics {
      var y :| y in g.primaryTopics && x == Capitalize(y);
      CapitalizeFillerFree(y);
    } else {
      var y :| y in g.secondaryTopics && x == Capitalize(y);
      CapitalizeFillerFree(y);
    }
  }

  /** The values of an aspect without filler-like strings are filler-free. */
  lemma AspectValueFillerFree(e: Aspect, a: AspectAttr, mode: Mode, x: string)
    requires AspectUnlikeFillers(e) && AspectValue(e, a, mode, x)
    ensures FillerFree(x)
  {
    match a
    case Relationship =>
    case Degrees => IntToStringFillerFree(e.degrees);
    case SharedQualities =>
      QualitiesCombination(e);
      CombinationsFillerFree();
    case Function =>
      if mode == Hard {
        var y :| y in e.functions && x == Capitalize(y);
        CapitalizeFillerFree(y);
      } else {
        JoinedFillerFree(e.functions);
        CapitalizeFillerFree(Joined(e.functions));
      }
  }

  /** The collections hold no string that could be taken for a filler, every
      sign value is canonical and every house type classified. */
  predicate Clean(db: Dataset) {
    && SignValuesCanonical(db.signs) && HouseTypesClassified(db.houses)
    && PlanetsUnlikeFillers(db.planets) && SignsUnlikeFillers(db.signs)
    && HousesUnlikeFillers(db.houses) && AspectsUnlikeFillers(db.aspects)
  }

  /** A draft of category `c` that gives a well-formed question: a synthesised
      one whose answer and candidates are filler-free, or a fixed one (of a
      sign or a house) whose options are two to four different strings, the
      answer among them, three for a house. */
  predicate Sound(d: Draft, c: Category) {
    && !d.NoQuestion? && d.cat == c
    && (d.Synthesised? ==> FillerFree(d.correct) && forall x :: x in d.pool ==> FillerFree(x))
    && (d.Fixed? ==>
         && (c == sign || c == house) && d.correct in d.options && Distinct(d.options)
         && 2 <= |d.options| <= 4 && (c == house ==> |d.options| == 3))
  }

  /** Over clean collections every callback returns no question or a sound one. */
  lemma DraftSound(db: Dataset, mode: Mode, b: Block, i: nat, draw: nat)
    requires i < EntityCount(db, mode, b) && Clean(db)
    ensures DraftOf(db, mode, b, i, draw).NoQuestion? || Sound(DraftOf(db, mode, b, i, draw), BlockCategory(b))
  {
    match b
    case PlanetBlock(a) => PlanetDraftSound(db, mode, a, i, draw);
    case SignBlock(a) => SignDraftSound(db, mode, a, i, draw);
    case HouseBlock(a) => HouseDraftSound(db, mode, a, i, draw);
    case AspectBlock(a) => AspectDraftSound(db, mode, a, i, draw);
  }

  lemma PlanetDraftSound(db: Dataset, mode: Mode, a: PlanetAttr, i: nat, draw: nat)
    requires i < |db.planets| && Clean(db)
    ensures DraftOf(db, mode, PlanetBlock(a), i, draw).NoQuestion? || Sound(DraftOf(db, mode, PlanetBlock(a), i, draw), planet)
  {
    var p, d := db.planets[i], DraftOf(db, mode, PlanetBlock(a), i, draw);
    if !d.NoQuestion? {
      PlanetDraftSources(db, mode, a, i, draw);
      assert p in db.planets;
      PlanetValueFillerFree(p, a, mode, d.correct);
      forall x | x in d.pool ensures FillerFree(x) {
        var q :| q in db.planets && q.name != p.name && PlanetValue(q, a, mode, x);
        PlanetValueFillerFree(q, a, mode, x);
      }
    }
  }

  lemma SignDraftSound(db: Dataset, mode: Mode, a: SignAttr, i: nat, draw: nat)
    requires i < |db.signs| && Clean(db)
    ensures DraftOf(db, mode, SignBlock(a), i, draw).NoQuestion? || Sound(DraftOf(db, mode, SignBlock(a), i, draw), sign)
  {
    var s, d := db.signs[i], DraftOf(db, mode, SignBlock(a), i, draw);
    if a == Modality || a == Element || a == Polarity {
      SignFixedOptions(db, mode, a, i, i, draw, draw);
      assert Canonical(s);
    } else if d.Synthesised? {
      SignDraftSources(db, mode, a, i, draw);
      assert s in db.signs;
      SignValueFillerFree(s, a, mode, d.correct);
      forall x | x in d.pool ensures FillerFree(x) {
        var t :| t in db.signs && t.name != s.name && SignCandidate(t, a) && SignValue(t, a, mode, x);
        SignValueFillerFree(t, a, mode, x);
      }
    }
  }

  lemma HouseDraftSound(db: Dataset, mode: Mode, a: HouseAttr, i: nat, draw: nat)
    requires i < |db.houses| && Clean(db)
    ensures DraftOf(db, mode, HouseBlock(a), i, draw).NoQuestion? || Sound(DraftOf(db, mode, HouseBlock(a), i, draw), house)
  {
    var h, d := db.houses[i], DraftOf(db, mode, HouseBlock(a), i, draw);
    if a == HouseType {
      assert Classified(h.houseType);
    } else if d.Synthesised? {
      HouseDraftSources(db, mode, a, i, draw);
      assert h in db.houses;
      HouseValueFillerFree(h, a, mode, d.correct);
      forall x | x in d.pool ensures FillerFree(x) {
        var g :| g in db.houses && g.number != h.number && HouseValue(g, a, mode, x);
        HouseValueFillerFree(g, a, mode, x);
      }
    }
  }

  lemma AspectDraftSound(db: Dataset, mode: Mode, a: AspectAttr, i: nat, draw: nat)
    requires i < |Filtered(mode, db.aspects)| && Clean(db)
    ensures DraftOf(db, mode, AspectBlock(a), i, draw).NoQuestion? || Sound(DraftOf(db, mode, AspectBlock(a), i, draw), aspect)
  {
    var aspects := Filtered(mode, db.aspects);
    var e, d := aspects[i], DraftOf(db, mode, AspectBlock(a), i, draw);
    if d.Synthesised? {
      AspectDraftSources(db, mode, a, i, draw);
      assert e in aspects;
      AspectValueFillerFree(e, a, mode, d.correct);
      if a == SharedQualities {
        QualitiesPool(db, mode, i, draw);
        CombinationsFillerFree();
      } else {
        forall x | x in d.pool ensures FillerFree(x) {
          var b :| b in aspects && b.name != e.name && AspectValue(b, a, mode, x);
          AspectValueFillerFree(b, a, mode, x);
        }
      }
    }
  }
}

/** The static dataset the quiz is generated from: planets, signs, houses and
    aspects, with the facts about the shown data that the generators rely on. */
module Database {
  import opened Prelude

  /** A planet. The four relationship lists may be absent, meaning "not applicable". */
  datatype Planet = Planet(
    name: string,
    archetypes: seq<string>,
    needs: seq<string>,
    descriptors: seq<string>,
    domicile: Option<seq<string>>,
    exaltation: Option<seq<string>>,
    detriment: Option<seq<string>>,
    fall: Option<seq<string>>)

  /** A zodiac sign; its relationship lists name planets. */
  datatype Sign = Sign(
    name: string,
    polarity: string,
    element: string,
    modality: string,
    descriptors: seq<string>,
    needs: seq<string>,
    domicile: Option<seq<string>>,
    exaltation: Option<seq<string>>,
    detriment: Option<seq<string>>,
    fall: Option<seq<string>>)

  /** A house; `houseType` is the `type` field of the TypeScript `House` interface (`type` is a reserved word in Dafny). */
  datatype House = House(
    number: int,
    primaryTopics: seq<string>,
    secondaryTopics: seq<string>,
    houseType: string,
    chartPoint: Option<string>)

  /** An aspect; `functions` is the `function` field of the TypeScript `Aspect` interface (`function` is a reserved word in Dafny). */
  datatype Aspect = Aspect(
    name: string,
    relationship: string,
    functions: seq<string>,
    degrees: int,
    samePolarity: bool,
    sameElement: bool,
    sameModality: bool,
    isMajor: bool)

  const Sun: Planet := Planet(
    name := "Sun",
    archetypes := ["The hero", "the leader of the team", "the celebrity", "the spirit", "the ego", "light & luminescence"],
    needs := ["To illuminate", "perceive", "to be recognized", "to find purpose", "to receive fuel", "to express", "to develop self-acceptance"],
    descriptors := ["Fatherly", "willful", "heartfelt", "creative", "confident", "recognizable", "vivacious", "public", "noble", "egotistical"],
    domicile := Some(["Leo"]),
    exaltation := Some(["Aries"]),
    detriment := Some(["Aquarius"]),
    fall := Some(["Libra"]))

  const Moon: Planet := Planet(
    name := "Moon",
    archetypes := ["The nurturer", "the leader of the clan", "the memories & emotions", "the body & other containers", "habits & cycles", "water"],
    needs := ["To reflect", "to comfort", "to nurture", "to satisfy needs & hungers", "to intuit", "to feel safe", "to belong", "to rest"],
    descriptors := ["Motherly", "emotional", "habitual", "moody", "soulful", "nurturing", "private", "hungry"],
    domicile := Some(["Cancer"]),
    exaltation := Some(["Taurus"]),
    detriment := Some(["Capricorn"]),
    fall := Some(["Scorpio"]))

  const Mercury: Planet := Planet(
    name := "Mercury",
    archetypes := ["The messenger", "the analyst", "the comedian", "the merchant", "the inquisitive youth", "hyperstimulation", "markets"],
    needs := ["To communicate", "to contemplate", "to dissect", "to analyze", "to learn", "to rationalize", "to catalog"],
    descriptors := ["Intelligent", "logical", "communicative", "curious", "knowledgeable", "witty", "flighty", "anxious", "mercurial"],
    domicile := Some(["Gemini", "Virgo"]),
    exaltation := Some(["Virgo"]),
    detriment := Some(["Sagittarius", "Pisces"]),
    fall := Some(["Pisces"]))

  const Venus: Planet := Planet(
    name := "Venus",
    archetypes := ["The lover & friend", "the artist", "the peacemaker", "pleasure & ease"],
    needs := ["To relate", "to enjoy", "to play", "to indulge", "to relax", "to appreciate", "to keep the peace"],
    descriptors := ["Joyful", "pleasant", "friendly", "artistic", "beautiful", "valuable", "cheerful", "accommodating", "romantic", "lazy", "indulgent"],
    domicile := Some(["Taurus", "Libra"]),
    exaltation := Some(["Pisces"]),
    detriment := Some(["Scorpio", "Aries"]),
    fall := Some(["Virgo"]))

  const Mars: Planet := Planet(
    name := "Mars",
    archetypes := ["The fighter & competitor", "the survivor", "the outsider", "the motivator", "war", "struggle"],
    needs := ["To separate", "to self-assert", "to take action", "to compete", "to defend", "to find an outlet"],
    descriptors := ["Passionate", "athletic", "strong", "driven", "decisive", "hardworking", "irritable", "inflammatory", "violent", "martial", "severe", "impulsive", "urgent"],
    domicile := Some(["Aries", "Scorpio"]),
    exaltation := Some(["Capricorn"]),
    detriment := Some(["Libra", "Taurus"]),
    fall := Some(["Cancer"]))

  const Jupiter: Planet := Planet(
    name := "Jupiter",
    archetypes := ["The optimist", "the guru", "the ally", "the philanthropist", "abundance"],
    needs := ["To encourage", "to believe", "to grow", "to give", "to take a chance", "to confirm", "to contextualize"],
    descriptors := ["Wise", "expansive", "hopeful", "spiritual", "philosophical", "successful", "lucky", "affirmative", "adventurous", "grandiose", "holier-than-thou", "jovial", "supportive"],
    domicile := Some(["Sagittarius", "Pisces"]),
    exaltation := Some(["Cancer"]),
    detriment := Some(["Gemini", "Virgo"]),
    fall := Some(["Capricorn"]))

  const Saturn: Planet := Planet(
    name := "Saturn",
    archetypes := ["The cynic", "the loner", "the disciplinarian", "the gatekeeper", "structures & limitations", "time itself"],
    needs := ["To discourage", "to limit", "to structure", "to deny", "to age", "to develop self-control", "to commit", "to discipline"],
    descriptors := ["mature", "dutiful", "responsible", "authoritative", "restrictive", "pessimistic", "negating", "depressive", "solitary", "saturnine", "judgmental", "rigid", "committed", "prepared", "chronic"],
    domicile := Some(["Capricorn", "Aquarius"]),
    exaltation := Some(["Libra"]),
    detriment := Some(["Cancer", "Leo"]),
    fall := Some(["Aries"]))

  const Uranus: Planet := Planet(
    name := "Uranus",
    archetypes := ["The rebellion", "the sudden upheaval", "the stroke of insight", "the unorthodox approach", "technological innovation"],
    needs := ["To disrupt", "to innovate", "to liberate", "to destabilize"],
    descriptors := ["Revolutionary", "shocking", "free-spirited", "electric", "chaotic", "abnormal", "inventive"],
    domicile := Some(["Aquarius"]),
    exaltation := None,
    detriment := Some(["Leo"]),
    fall := None)

  const Neptune: Planet := Planet(
    name := "Neptune",
    archetypes := ["The collective unconscious", "the zeitgeist", "the dream state", "idealism"],
    needs := ["To dissolve", "to transcend", "to imagine", "to escape", "to merge"],
    descriptors := ["Foggy", "dreamy", "blurry", "other-worldly", "imaginative", "confused", "unattainable", "ungraspable", "indefinite"],
    domicile := Some(["Pisces"]),
    exaltation := None,
    detriment := Some(["Virgo"]),
    fall := None)

  const Pluto: Planet := Planet(
    name := "Pluto",
    archetypes := ["The underworld", "the process of decay & renewal", "extremes of power & disempowerment", "obsessions"],
    needs := ["To compost", "to amplify", "to shrink", "to destroy & rebuild"],
    descriptors := ["Transformative", "manipulative", "potent", "obsessive", "magnetic", "intimidating"],
    domicile := Some(["Scorpio"]),
    exaltation := None,
    detriment := Some(["Taurus"]),
    fall := None)

  const Chiron: Planet := Planet(
    name := "Chiron",
    archetypes := ["The wounded healer"],
    needs := ["To acknowledge shame", "to make peace with failure", "to help others avoid similar suffering"],
    descriptors := ["Tender", "insightful", "clinical", "authentic", "traumatic", "misunderstood", "paradoxical", "compensating"],
    domicile := None,
    exaltation := None,
    detriment := None,
    fall := None)

  const Planets: seq<Planet> := [Sun, Moon, Mercury, Venus, Mars, Jupiter, Saturn, Uranus, Neptune, Pluto, Chiron]

  const Aries: Sign := Sign(
    name := "Aries",
    polarity := "Diurnal",
    element := "Fire",
    modality := "Cardinal",
    descriptors := ["brave", "pioneering", "inventive", "stressed", "honest", "impulsive"],
    needs := ["new challenges", "vigorous exercise", "space to do its own thing", "active playmates", "to feel like a winner"],
    domicile := Some(["Mars"]),
    exaltation := Some(["Sun"]),
    detriment := Some(["Venus"]),
    fall := Some(["Saturn"]))

  const Taurus: Sign := Sign(
    name := "Taurus",
    polarity := "Nocturnal",
    element := "Earth",
    modality := "Fixed",
    descriptors := ["beautiful", "reliable", "persevering", "artisanal", "indulgent", "patient"],
    needs := ["a nice place to relax", "crafty projects", "good food, music, and art", "reliable friends", "cuddles"],
    domicile := Some(["Venus"]),
    exaltation := Some(["Moon"]),
    detriment := Some(["Mars", "Pluto"]),
    fall := Some([]))

  const Gemini: Sign := Sign(
    name := "Gemini",
    polarity := "Diurnal",
    element := "Air",
    modality := "Mutable",
    descriptors := ["intelligent", "curious", "jack-of-all-trades", "adaptable", "chatty", "overstimulated"],
    needs := ["room for fun and variety", "things to read", "someone to geek out with", "conversation", "humor"],
    domicile := Some(["Mercury"]),
    exaltation := Some([]),
    detriment := Some(["Jupiter"]),
    fall := Some([]))

  const Cancer: Sign := Sign(
    name := "Cancer",
    polarity := "Nocturnal",
    element := "Water",
    modality := "Cardinal",
    descriptors := ["cozy", "empathetic", "comforting", "moody", "traditional", "familial"],
    needs := ["a welcoming home", "someone to hold", "someone to cook for", "mothering", "emotional intelligence"],
    domicile := Some(["Moon"]),
    exaltation := Some(["Jupiter"]),
    detriment := Some(["Saturn"]),
    fall := Some(["Mars"]))

  const Leo: Sign := Sign(
    name := "Leo",
    polarity := "Diurnal",
    element := "Fire",
    modality := "Fixed",
    descriptors := ["radiant", "playful", "commanding", "attention-seeking", "vain", "generous"],
    needs := ["a creative outlet", "verbal affirmations", "playtime", "people to inspire", "nice hair"],
    domicile := Some(["Sun"]),
    exaltation := Some([]),
    detriment := Some(["Saturn", "Uranus"]),
    fall := Some([]))

  const Virgo: Sign := Sign(
    name := "Virgo",
    polarity := "Nocturnal",
    element := "Earth",
    modality := "Mutable",
    descriptors := ["helpful", "analytical", "health-conscious", "precise", "methodical", "neurotic"],
    needs := ["ways to feel useful", "intelligence validated", "to dissect and improve things", "reassurance", "tidy spaces"],
    domicile := Some(["Mercury"]),
    exaltation := Some(["Mercury"]),
    detriment := Some(["Jupiter", "Neptune"]),
    fall := Some(["Venus"]))

  const Libra: Sign := Sign(
    name := "Libra",
    polarity := "Diurnal",
    element := "Air",
    modality := "Cardinal",
    descriptors := ["artistic", "fashionable", "diplomatic", "indecisive", "romantic", "social"],
    needs := ["fairness", "someone to talk to", "social justice", "someone to create with", "good design"],
    domicile := Some(["Venus"]),
    exaltation := Some(["Saturn"]),
    detriment := Some(["Mars"]),
    fall := Some(["Sun"]))

  const Scorpio: Sign := Sign(
    name := "Scorpio",
    polarity := "Nocturnal",
    element := "Water",
    modality := "Fixed",
    descriptors := ["secretive", "passionate", "thorough", "intuitive", "tough", "defensive"],
    needs := ["loyalty", "respect and understanding", "extreme vulnerability", "black clothing", "research projects"],
    domicile := Some(["Mars", "Pluto"]),
    exaltation := Some([]),
    detriment := Some(["Venus"]),
    fall := Some(["Moon"]))

  const Sagittarius: Sign := Sign(
    name := "Sagittarius",
    polarity := "Diurnal",
    element := "Fire",
    modality := "Mutable",
    descriptors := ["optimistic", "gregarious", "philosophical", "nomadic", "preachy", "naïve"],
    needs := ["the open road", "philosophical debate", "movement and dance", "to know the answer", "to be inspired by new people"],
    domicile := Some(["Jupiter"]),
    exaltation := Some([]),
    detriment := Some(["Mercury"]),
    fall := Some([]))

  const Capricorn: Sign := Sign(
    name := "Capricorn",
    polarity := "Nocturnal",
    element := "Earth",
    modality := "Cardinal",
    descriptors := ["mature", "responsible", "cynical", "ambitious", "solitary", "confined"],
    needs := ["actualized potential", "high-quality things", "to be a good role model", "self-deprecating humor", "following the rules"],
    domicile := Some(["Saturn"]),
    exaltation := Some(["Mars"]),
    detriment := Some(["Moon"]),
    fall := Some(["Jupiter"]))

  const Aquarius: Sign := Sign(
    name := "Aquarius",
    polarity := "Diurnal",
    element := "Air",
    modality := "Fixed",
    descriptors := ["innovative", "humanitarian", "logical", "eccentric", "antisocial", "scientific"],
    needs := ["utopian visions", "political organizing", "intellectual discussion", "a sense of purpose", "weird people", "self-acceptance", "inventions"],
    domicile := Some(["Saturn", "Uranus"]),
    exaltation := Some([]),
    detriment := Some(["Sun"]),
    fall := Some([]))

  const Pisces: Sign := Sign(
    name := "Pisces",
    polarity := "Nocturnal",
    element := "Water",
    modality := "Mutable",
    descriptors := ["empathetic", "imaginative", "psychic", "idealistic", "sensitive", "intuitive"],
    needs := ["art and music", "fantasy", "emotional sharing", "compassionate causes", "safe places", "relaxation"],
    domicile := Some(["Jupiter", "Neptune"]),
    exaltation := Some(["Venus"]),
    detriment := Some(["Mercury"]),
    fall := Some(["Mercury"]))

  const Signs: seq<Sign> := [Aries, Taurus, Gemini, Cancer, Leo, Virgo, Libra, Scorpio, Sagittarius, Capricorn, Aquarius, Pisces]

  /** The three house types of the dataset, each beginning with its kind. */
  const AngularType: string := "Angular" + ": a foundational part of life"
  const SuccedentType: string := "Succedent" + ": a part of life that supports and reinforces the preceding angular house"
  const CadentType: string := "Cadent" + ": a part of life that involves learning and adapting"

  const House1: House := House(
    number := 1,
    primaryTopics := ["Self-identity", "sense of self", "health", "physical appearance"],
    secondaryTopics := ["Default approach to life", "how others first see the person"],
    houseType := AngularType,
    chartPoint := Some("the AC"))

  const House2: House := House(
    number := 2,
    primaryTopics := ["Personal financial resources", "possessions and belongings"],
    secondaryTopics := ["Subconscious attitudes about money and the material world", "self-evaluation"],
    houseType := SuccedentType,
    chartPoint := None)

  const House3: House := House(
    number := 3,
    primaryTopics := ["Siblings", "extended family", "roommates", "local community connections"],
    secondaryTopics := ["Communication and writing skills", "childhood education", "community education", "local surroundings", "errands", "transportation"],
    houseType := CadentType,
    chartPoint := None)

  const House4: House := House(
    number := 4,
    primaryTopics := ["Parents", "home", "real estate", "ancestry"],
    secondaryTopics := ["Father figures", "sense of belonging", "hidden emotions"],
    houseType := AngularType,
    chartPoint := Some("the IC"))

  const House5: House := House(
    number := 5,
    primaryTopics := ["Children", "creative and artistic output", "sexuality", "good fortune"],
    secondaryTopics := ["Pleasure-seeking activities", "gambling", "risky ventures"],
    houseType := SuccedentType,
    chartPoint := None)

  const House6: House := House(
    number := 6,
    primaryTopics := ["Mundane tasks and routines", "illnesses and injuries", "misfortune"],
    secondaryTopics := ["Pets", "co-workers or employees", "volunteer work", "hard work in general", "laborers"],
    houseType := CadentType,
    chartPoint := None)

  const House7: House := House(
    number := 7,
    primaryTopics := ["Life partners", "business partners", "close friends"],
    secondaryTopics := ["Adversaries", "contracts and agreements", "attitudes towards others"],
    houseType := AngularType,
    chartPoint := Some("the DC"))

  const House8: House := House(
    number := 8,
    primaryTopics := ["Shared finances (joint accounts, inheritances, taxes, debts)", "death", "mortality"],
    secondaryTopics := ["Fear and anxiety", "psychology", "therapy", "cultural taboos"],
    houseType := SuccedentType,
    chartPoint := None)

  const House9: House := House(
    number := 9,
    primaryTopics := ["Life philosophy", "higher education", "world travels", "expanding awareness"],
    secondaryTopics := ["Foreigners", "teachers", "religious figures", "astrology", "spirituality", "philosophical studies"],
    houseType := CadentType,
    chartPoint := None)

  const House10: House := House(
    number := 10,
    primaryTopics := ["Career", "public reputation", "passionate work"],
    secondaryTopics := ["Authority figures", "mother figures"],
    houseType := AngularType,
    chartPoint := Some("the MC"))

  const House11: House := House(
    number := 11,
    primaryTopics := ["Friend groups", "organizations and networks", "people who offer support"],
    secondaryTopics := ["The qualities attracted in friends", "hopes and dreams for the future"],
    houseType := SuccedentType,
    chartPoint := None)

  const House12: House := House(
    number := 12,
    primaryTopics := ["Solitude", "behind-the-scenes activities", "isolation", "confinement", "experiences of loss"],
    secondaryTopics := ["Saboteurs", "self-sabotage", "dream world", "unseen aspects of self", "the subconscious"],
    houseType := CadentType,
    chartPoint := None)

  const Houses: seq<House> := [House1, House2, House3, House4, House5, House6, House7, House8, House9, House10, House11, House12]

  const Conjunction: Aspect := Aspect(
    name := "Conjunction",
    relationship := "Planets are \"on top of\" each other, usually in the same sign.",
    functions := ["A commingling of energies", "emphasis", "energy", "confusion"],
    degrees := 0,
    samePolarity := true,
    sameElement := true,
    sameModality := true,
    isMajor := true)

  const Semisextile: Aspect := Aspect(
    name := "Semisextile",
    relationship := "Planets are in adjacent signs.",
    functions := ["Awkwardness", "lack of clarity", "blindness"],
    degrees := 30,
    samePolarity := false,
    sameElement := false,
    sameModality := false,
    isMajor := false)

  const Semisquare: Aspect := Aspect(
    name := "Semisquare",
    relationship := "Half of a square aspect, creating minor tension.",
    functions := ["Irritation", "minor tension", "friction", "adjustment"],
    degrees := 45,
    samePolarity := false,
    sameElement := false,
    sameModality := false,
    isMajor := false)

  const Sextile: Aspect := Aspect(
    name := "Sextile",
    relationship := "Planets are positioned two signs apart.",
    functions := ["Creative opportunity", "support"],
    degrees := 60,
    samePolarity := true,
    sameElement := false,
    sameModality := false,
    isMajor := true)

  const Quintile: Aspect := Aspect(
    name := "Quintile",
    relationship := "Planets are separated by exactly one-fifth of the zodiac. Represents creative talents and gifts.",
    functions := ["Creativity", "talent", "gift", "inventiveness"],
    degrees := 72,
    samePolarity := false,
    sameElement := false,
    sameModality := false,
    isMajor := false)

  const Square: Aspect := Aspect(
    name := "Square",
    relationship := "Planets are positioned three signs apart.",
    functions := ["Creative tension", "dynamic", "challenge and resolution"],
    degrees := 90,
    samePolarity := false,
    sameElement := false,
    sameModality := true,
    isMajor := true)

  const Trine: Aspect := Aspect(
    name := "Trine",
    relationship := "Planets are positioned four signs apart.",
    functions := ["Ease", "support", "laziness", "resources"],
    degrees := 120,
    samePolarity := true,
    sameElement := true,
    sameModality := false,
    isMajor := true)

  const Sesquisquare: Aspect := Aspect(
    name := "Sesquisquare",
    relationship := "One and a half squares, creating strong internal tension and stress.",
    functions := ["Agitation", "stress", "culmination of tension", "pressure"],
    degrees := 135,
    samePolarity := false,
    sameElement := false,
    sameModality := false,
    isMajor := false)

  const Biquintile: Aspect := Aspect(
    name := "Biquintile",
    relationship := "Planets are separated by exactly two-fifths of the zodiac. Represents highly developed creative talents.",
    functions := ["Creative talent", "inspiration", "innovation", "unique insight"],
    degrees := 144,
    samePolarity := false,
    sameElement := false,
    sameModality := false,
    isMajor := false)

  const Quincunx: Aspect := Aspect(
    name := "Quincunx",
    relationship := "Planets are positioned five signs apart. A nontraditional or \"minor\" aspect.",
    functions := ["Awkwardness", "lack of clarity", "blindness"],
    degrees := 150,
    samePolarity := false,
    sameElement := false,
    sameModality := false,
    isMajor := false)

  const Opposition: Aspect := Aspect(
    name := "Opposition",
    relationship := "Planets are in signs exactly opposite each other.",
    functions := ["Yearning", "confusion", "frustration", "feeling torn"],
    degrees := 180,
    samePolarity := true,
    sameElement := false,
    sameModality := true,
    isMajor := true)

  const Aspects: seq<Aspect> := [Conjunction, Semisextile, Semisquare, Sextile, Quintile, Square, Trine, Sesquisquare, Biquintile, Quincunx, Opposition]

  // ---------------------------------------------------------------------
  // Data invariants, stated for any collection, and proved of the shown data.

  /** The canonical values of the three small sign domains, in the order the
      hard-mode questions list them. */
  const Modalities: seq<string> := ["Cardinal", "Fixed", "Mutable"]
  const Elements: seq<string> := ["Fire", "Earth", "Air", "Water"]
  const Polarities: seq<string> := ["Diurnal", "Nocturnal"]

  predicate Present(list: Option<seq<string>>) {
    list.Some? && |list.value| > 0
  }

  /** A list with at least one entry and no empty entry. */
  predicate Listed(items: seq<string>) {
    |items| > 0 && forall j :: 0 <= j < |items| ==> items[j] != ""
  }

  /** Every planet's archetypes are listed: a hard-mode pick always finds one. */
  predicate ArchetypesListed(ps: seq<Planet>) {
    forall i :: 0 <= i < |ps| ==> Listed(ps[i].archetypes)
  }

  predicate UniquePlanetNames(ps: seq<Planet>) {
    forall i, j :: 0 <= i < j < |ps| ==> ps[i].name != ps[j].name
  }

  predicate UniqueSignNames(ss: seq<Sign>) {
    forall i, j :: 0 <= i < j < |ss| ==> ss[i].name != ss[j].name
  }

  predicate UniqueAspectNames(aspects: seq<Aspect>) {
    forall i, j :: 0 <= i < j < |aspects| ==> aspects[i].name != aspects[j].name
  }

  /** Every sign's polarity, element and modality lies in its canonical domain. */
  predicate SignValuesCanonical(ss: seq<Sign>) {
    forall i :: 0 <= i < |ss| ==> Canonical(ss[i])
  }

  /** A sign whose polarity, element and modality are among the canonical values. */
  predicate Canonical(s: Sign) {
    s.polarity in Polarities && s.element in Elements && s.modality in Modalities
  }

  /** Every house type begins with one of the three kind prefixes. */
  predicate HouseTypesClassified(hs: seq<House>) {
    forall i :: 0 <= i < |hs| ==> Classified(hs[i].houseType)
  }

  /** A house type of one of the three kinds. */
  predicate Classified(t: string) {
    StartsWith(t, "Angular") || StartsWith(t, "Succedent") || StartsWith(t, "Cadent")
  }

  /** `s` cannot be mistaken for an `Option n` or `Additional Option n`
      filler with a one-digit `n`: those have 8 and 19 characters and begin
      with `O` and `A`, and `s` differs in its length or, whatever the case,
      in its first letter. */
  predicate UnlikeFiller(s: string) {
    || (|s| != 8 && |s| != 19)
    || (|s| == 8 && s[0] != 'o' && s[0] != 'O')
    || (|s| == 19 && s[0] != 'a' && s[0] != 'A')
  }

  predicate ListUnlikeFillers(items: seq<string>) {
    forall j :: 0 <= j < |items| ==> UnlikeFiller(items[j])
  }

  /** An absent list has no entries to mistake. */
  predicate OptionalUnlikeFillers(list: Option<seq<string>>) {
    list.Some? ==> ListUnlikeFillers(list.value)
  }

  /** The strings a planet question can show, as answer or candidate. */
  predicate PlanetUnlikeFillers(p: Planet) {
    && ListUnlikeFillers(p.archetypes) && ListUnlikeFillers(p.needs) && ListUnlikeFillers(p.descriptors)
    && OptionalUnlikeFillers(p.domicile) && OptionalUnlikeFillers(p.exaltation)
    && OptionalUnlikeFillers(p.detriment) && OptionalUnlikeFillers(p.fall)
  }

  /** The strings of a sign that a sign question can show (its polarity,
      element and modality are checked by `Canonical`). */
  predicate SignUnlikeFillers(s: Sign) {
    ListUnlikeFillers(s.descriptors) && ListUnlikeFillers(s.needs) && OptionalUnlikeFillers(s.domicile)
  }

  predicate HouseUnlikeFillers(h: House) {
    ListUnlikeFillers(h.primaryTopics) && ListUnlikeFillers(h.secondaryTopics)
  }

  predicate AspectUnlikeFillers(a: Aspect) {
    UnlikeFiller(a.relationship) && ListUnlikeFillers(a.functions)
  }

  predicate PlanetsUnlikeFillers(ps: seq<Planet>) {
    forall p :: p in ps ==> PlanetUnlikeFillers(p)
  }

  predicate SignsUnlikeFillers(ss: seq<Sign>) {
    forall s :: s in ss ==> SignUnlikeFillers(s)
  }

  predicate HousesUnlikeFillers(hs: seq<House>) {
    forall h :: h in hs ==> HouseUnlikeFillers(h)
  }

  predicate AspectsUnlikeFillers(aspects: seq<Aspect>) {
    forall a :: a in aspects ==> AspectUnlikeFillers(a)
  }

  /** No string of the shown planets can be mistaken for a filler. */
  lemma ShownPlanetsUnlikeFillers()
    ensures PlanetsUnlikeFillers(Planets)
  {
    SunUnlikeFillers(); MoonUnlikeFillers(); MercuryUnlikeFillers(); VenusUnlikeFillers();
    MarsUnlikeFillers(); JupiterUnlikeFillers(); SaturnUnlikeFillers(); UranusUnlikeFillers();
    NeptuneUnlikeFillers(); PlutoUnlikeFillers(); ChironUnlikeFillers();
  }

  lemma SunUnlikeFillers()
    ensures PlanetUnlikeFillers(Sun)
  {
  }

  lemma MoonUnlikeFillers()
    ensures PlanetUnlikeFillers(Moon)
  {
  }

  lemma MercuryUnlikeFillers()
    ensures PlanetUnlikeFillers(Mercury)
  {
  }

  lemma VenusUnlikeFillers()
    ensures PlanetUnlikeFillers(Venus)
  {
  }

  lemma MarsUnlikeFillers()
    ensures PlanetUnlikeFillers(Mars)
  {
  }

  lemma JupiterUnlikeFillers()
    ensures PlanetUnlikeFillers(Jupiter)
  {
  }

  lemma SaturnUnlikeFillers()
    ensures PlanetUnlikeFillers(Saturn)
  {
  }

  lemma UranusUnlikeFillers()
    ensures PlanetUnlikeFillers(Uranus)
  {
  }

  lemma NeptuneUnlikeFillers()
    ensures PlanetUnlikeFillers(Neptune)
  {
  }

  lemma PlutoUnlikeFillers()
    ensures PlanetUnlikeFillers(Pluto)
  {
  }

  lemma ChironUnlikeFillers()
    ensures PlanetUnlikeFillers(Chiron)
  {
  }

  /** No string of the shown signs can be mistaken for a filler. */
  lemma ShownSignsUnlikeFillers()
    ensures SignsUnlikeFillers(Signs)
  {
    EarlierSignsUnlikeFillers();
    LaterSignsUnlikeFillers();
  }

  /** Aries to Virgo. */
  lemma EarlierSignsUnlikeFillers()
    ensures forall k :: 0 <= k < 6 ==> SignUnlikeFillers(Signs[k])
  {
  }

  /** Libra to Pisces. */
  lemma LaterSignsUnlikeFillers()
    ensures forall k :: 6 <= k < 12 ==> SignUnlikeFillers(Signs[k])
  {
  }

  /** No string of the shown houses can be mistaken for a filler. */
  lemma ShownHousesUnlikeFillers()
    ensures HousesUnlikeFillers(Houses)
  {
    EarlierHousesUnlikeFillers();
    LaterHousesUnlikeFillers();
  }

  /** The first to the sixth house. */
  lemma EarlierHousesUnlikeFillers()
    ensures forall k :: 0 <= k < 6 ==> HouseUnlikeFillers(Houses[k])
  {
  }

  /** The seventh to the twelfth house. */
  lemma LaterHousesUnlikeFillers()
    ensures forall k :: 6 <= k < 12 ==> HouseUnlikeFillers(Houses[k])
  {
  }

  /** No string of the shown aspects can be mistaken for a filler. */
  lemma ShownAspectsUnlikeFillers()
    ensures AspectsUnlikeFillers(Aspects)
  {
    EarlierAspectsUnlikeFillers();
    LaterAspectsUnlikeFillers();
  }

  /** Conjunction to Square. */
  lemma EarlierAspectsUnlikeFillers()
    ensures forall k :: 0 <= k < 6 ==> AspectUnlikeFillers(Aspects[k])
  {
  }

  /** Trine to Opposition. */
  lemma LaterAspectsUnlikeFillers()
    ensures forall k :: 6 <= k < 11 ==> AspectUnlikeFillers(Aspects[k])
  {
  }

  /** The major aspects, in dataset order. */
  function MajorAspects(aspects: seq<Aspect>): (r: seq<Aspect>)
    ensures forall a :: a in r <==> a in aspects && a.isMajor
  {
    FilterMembers(aspects, IsMajor);
    Filter(aspects, IsMajor)
  }

  predicate IsMajor(a: Aspect) {
    a.isMajor
  }

  /** The 11 planets have distinct names and each has archetypes, needs and
      descriptors. */
  lemma ShownPlanetsWellFormed()
    ensures |Planets| == 11 && UniquePlanetNames(Planets)
    ensures forall i :: 0 <= i < |Planets| ==>
      |Planets[i].archetypes| > 0 && |Planets[i].needs| > 0 && |Planets[i].descriptors| > 0
  {
    ShownPlanetNames();
    ShownPlanetLists();
  }

  lemma ShownPlanetNames()
    ensures |Planets| == 11 && UniquePlanetNames(Planets)
  {
  }

  lemma ShownPlanetLists()
    ensures forall i :: 0 <= i < |Planets| ==>
      |Planets[i].archetypes| > 0 && |Planets[i].needs| > 0 && |Planets[i].descriptors| > 0
  {
  }

  /** No shown planet has an empty archetype. */
  lemma ShownArchetypesListed()
    ensures ArchetypesListed(Planets)
  {
  }

  /** Chiron has none of the four relationships; the outer planets Uranus,
      Neptune and Pluto have a domicile and a detriment but no exaltation or fall;
      every other planet has all four. */
  lemma ShownPlanetRelationships()
    ensures Planets[10] == Chiron && Planets[7] == Uranus && Planets[8] == Neptune && Planets[9] == Pluto
    ensures !Present(Chiron.domicile) && !Present(Chiron.exaltation)
    ensures !Present(Chiron.detriment) && !Present(Chiron.fall)
    ensures forall i :: 7 <= i < 10 ==>
      Present(Planets[i].domicile) && Present(Planets[i].detriment)
      && !Present(Planets[i].exaltation) && !Present(Planets[i].fall)
    ensures forall i :: 0 <= i < 7 ==>
      Present(Planets[i].domicile) && Present(Planets[i].exaltation)
      && Present(Planets[i].detriment) && Present(Planets[i].fall)
  {
  }

  /** The 12 signs have distinct names, canonical polarity, element and modality,
      and a non-empty first domicile entry (the sign's ruler). */
  lemma ShownSignsWellFormed()
    ensures |Signs| == 12 && UniqueSignNames(Signs)
    ensures SignValuesCanonical(Signs)
    ensures forall i :: 0 <= i < |Signs| ==>
      Present(Signs[i].domicile) && Signs[i].domicile.value[0] != ""
  {
    ShownSignNames();
    ShownSignValues();
    ShownSignRulers();
  }

  lemma ShownSignNames()
    ensures |Signs| == 12 && UniqueSignNames(Signs)
  {
  }

  lemma ShownSignValues()
    ensures SignValuesCanonical(Signs)
  {
  }

  lemma ShownSignRulers()
    ensures forall i :: 0 <= i < |Signs| ==>
      Present(Signs[i].domicile) && Signs[i].domicile.value[0] != ""
  {
  }

  /** Houses are numbered 1 to 12 in order, every type starts with a kind
      prefix, and every kind occurs. */
  lemma ShownHousesWellFormed()
    ensures |Houses| == 12
    ensures forall i :: 0 <= i < |Houses| ==> Houses[i].number == i + 1
    ensures OfShownTypes(Houses)
    ensures Houses[0].houseType == AngularType && Houses[1].houseType == SuccedentType && Houses[2].houseType == CadentType
    ensures HouseTypesClassified(Houses)
    ensures StartsWith(Houses[0].houseType, "Angular")
    ensures StartsWith(Houses[1].houseType, "Succedent")
    ensures StartsWith(Houses[2].houseType, "Cadent")
  {
    ShownHouseNumbers();
    ShownHouseTypes();
    HouseTypeKinds();
    ShownTypesClassified(Houses);
  }

  lemma ShownHouseNumbers()
    ensures |Houses| == 12
    ensures forall i :: 0 <= i < |Houses| ==> Houses[i].number == i + 1
  {
  }

  /** Every house has one of the three shown types; the first three houses
      have them in the order Angular, Succedent, Cadent. */
  lemma ShownHouseTypes()
    ensures |Houses| == 12
    ensures OfShownTypes(Houses)
    ensures Houses[0].houseType == AngularType && Houses[1].houseType == SuccedentType && Houses[2].houseType == CadentType
  {
  }

  /** Every house type is one of `AngularType`, `SuccedentType`, `CadentType`. */
  predicate OfShownTypes(hs: seq<House>)
  {
    forall i :: 0 <= i < |hs| ==> ShownType(hs[i].houseType)
  }

  predicate ShownType(t: string)
  {
    t == AngularType || t == SuccedentType || t == CadentType
  }

  /** Houses of the three shown types are classified. */
  lemma ShownTypesClassified(hs: seq<House>)
    requires OfShownTypes(hs)
    requires StartsWith(AngularType, "Angular") && StartsWith(SuccedentType, "Succedent") && StartsWith(CadentType, "Cadent")
    ensures HouseTypesClassified(hs)
  {
    forall i | 0 <= i < |hs| ensures Classified(hs[i].houseType) {
      assert ShownType(hs[i].houseType);
    }
  }

  /** Each of the three house types begins with its own kind and with no other. */
  lemma HouseTypeKinds()
    ensures StartsWith(AngularType, "Angular") && StartsWith(SuccedentType, "Succedent") && StartsWith(CadentType, "Cadent")
    ensures AngularType[0] == 'A' && SuccedentType[0] == 'S' && CadentType[0] == 'C'
  {
  }

  /** The 11 aspects have distinct names and degrees between 0 and 180. */
  lemma ShownAspectsWellFormed()
    ensures |Aspects| == 11 && UniqueAspectNames(Aspects)
    ensures forall i :: 0 <= i < |Aspects| ==> 0 <= Aspects[i].degrees <= 180
  {
  }

  /** The major aspects are exactly Conjunction, Sextile, Square, Trine and Opposition. */
  lemma ShownMajorAspects()
    ensures MajorAspects(Aspects) == [Conjunction, Sextile, Square, Trine, Opposition]
  {
    MajorOfEleven(Aspects);
  }

  /** The filter over eleven aspects whose flags follow the shown pattern (major at 0, 3, 5, 6, 10),
      argued on an arbitrary sequence so that the literal table is not unfolded. */
  lemma MajorOfEleven(s: seq<Aspect>)
    requires |s| == 11
    requires s[0].isMajor && !s[1].isMajor && !s[2].isMajor && s[3].isMajor && !s[4].isMajor
    requires s[5].isMajor && s[6].isMajor && !s[7].isMajor && !s[8].isMajor && !s[9].isMajor && s[10].isMajor
    ensures Filter(s, IsMajor) == [s[0], s[3], s[5], s[6], s[10]]
  {
    assert s[..0] == [];
    assert Filter(s[..1], IsMajor) == [s[0]] by { FilterPrefixStep(s, 0, IsMajor); }
    assert Filter(s[..2], IsMajor) == [s[0]] by { FilterPrefixStep(s, 1, IsMajor); }
    assert Filter(s[..3], IsMajor) == [s[0]] by { FilterPrefixStep(s, 2, IsMajor); }
    assert Filter(s[..4], IsMajor) == [s[0], s[3]] by { FilterPrefixStep(s, 3, IsMajor); }
    assert Filter(s[..5], IsMajor) == [s[0], s[3]] by { FilterPrefixStep(s, 4, IsMajor); }
    assert Filter(s[..6], IsMajor) == [s[0], s[3], s[5]] by { FilterPrefixStep(s, 5, IsMajor); }
    assert Filter(s[..7], IsMajor) == [s[0], s[3], s[5], s[6]] by { FilterPrefixStep(s, 6, IsMajor); }
    assert Filter(s[..8], IsMajor) == [s[0], s[3], s[5], s[6]] by { FilterPrefixStep(s, 7, IsMajor); }
    assert Filter(s[..9], IsMajor) == [s[0], s[3], s[5], s[6]] by { FilterPrefixStep(s, 8, IsMajor); }
    assert Filter(s[..10], IsMajor) == [s[0], s[3], s[5], s[6]] by { FilterPrefixStep(s, 9, IsMajor); }
    assert Filter(s, IsMajor) == Filter(s[..10], IsMajor) + [s[10]];
  }
}

/**
 * The seeded world generator (`WorldGenerator` of the generator service's core).
 *
 * Python's `random.Random` is modelled as a stream of raw draws: `Stream(source, pos)` is the
 * generator's state, every draw reads `source(pos)` and advances `pos` by one, and the new state is
 * threaded through every `_generate_*` step in the order Python evaluates the dict and list
 * displays. `random.Random(seed)` is the parameter `seeded(seed)`; an unseeded `random.Random()` is
 * the parameter `entropy`.
 */
module WorldGen {
  import opened Wrappers
  import opened Strings
  import opened Json

  /** The state of one `random.Random` instance. */
  datatype Stream = Stream(source: nat -> nat, pos: nat)

  /** `_randbelow(n)`: one raw draw reduced below `n`. */
  function RandBelow(s: Stream, n: nat): (r: (nat, Stream))
    requires n > 0
    ensures r.0 < n
    ensures r.1.source == s.source && r.1.pos == s.pos + 1
  {
    (s.source(s.pos) % n, Stream(s.source, s.pos + 1))
  }

  /** `randint(lo, hi)`: a draw in the closed range `[lo, hi]`. */
  function RandInt(s: Stream, lo: int, hi: int): (r: (int, Stream))
    requires lo <= hi
    ensures lo <= r.0 <= hi
    ensures r.1.source == s.source && r.1.pos == s.pos + 1
  {
    var (k, s') := RandBelow(s, hi - lo + 1);
    (lo + k, s')
  }

  /** `choice(xs)`: an element of a non-empty table. */
  function Choice(s: Stream, xs: seq<string>): (r: (string, Stream))
    requires |xs| > 0
    ensures r.0 in xs
    ensures r.1.source == s.source && r.1.pos == s.pos + 1
  {
    var (k, s') := RandBelow(s, |xs|);
    (xs[k], s')
  }

  const Terrains: seq<string> := ["平原", "山地", "沙漠", "森林", "海洋"]
  const Climates: seq<string> := ["温带", "热带", "寒带", "地中海性", "大陆性"]
  const Traditions: seq<string> := ["古老", "现代", "混合", "神秘", "实用"]
  const Languages: seq<string> := ["通用语", "古语", "方言", "混合语", "神秘语言"]
  const EventTypes: seq<string> := ["政治", "文化", "战争", "灾难", "发现"]
  const BeliefTypes: seq<string> := ["自然崇拜", "多神教", "一神教", "哲学思想", "混合信仰"]
  const SocietyTypes: seq<string> := ["部落", "城邦", "帝国", "联邦", "王国"]
  const TechLevels: seq<string> := ["原始", "古代", "中世纪", "工业化", "现代"]
  const PoliticalSystems: seq<string> := ["君主制", "共和制", "部落制", "联邦制"]

  datatype Region = Region(name: string, terrain: string, climate: string)
  /** An element `{"name": ..., "type": ...}` of the traditions, languages, beliefs and societies lists. */
  datatype Named = Named(name: string, kind: string)
  datatype Event = Event(name: string, kind: string, year: int)
  datatype Era = Era(name: string, startYear: int, endYear: int)

  datatype Geography = Geography(regions: seq<Region>, climate: string, terrain: string)
  datatype Culture = Culture(traditions: seq<Named>, languages: seq<Named>, customs: seq<Json>)
  datatype History = History(events: seq<Event>, eras: seq<Era>, timeline: seq<Json>)
  datatype Religion = Religion(beliefs: seq<Named>, practices: seq<Json>, deities: seq<Json>)
  datatype Technology = Technology(level: string, advancements: seq<Json>)
  datatype Politics = Politics(system: string, organizations: seq<Json>)
  datatype Civilization = Civilization(societies: seq<Named>, technology: Technology, politics: Politics)

  datatype Content = Content(
    geography: Geography,
    culture: Culture,
    history: History,
    religion: Religion,
    civilization: Civilization)

  datatype Metadata = Metadata(createdAt: string, focusAreas: seq<string>, prompt: Option<Json>)
  datatype WorldData = WorldData(seed: string, complexity: int, metadata: Metadata, content: Content)

  /** The fields `__init__` sets. */
  datatype WorldGenerator = WorldGenerator(
    seed: string,
    complexity: int,
    focusAreas: seq<string>,
    additionalParams: map<string, Json>,
    random: Stream)
  {
    /** What `__init__` guarantees: the complexity is clamped. */
    ghost predicate Valid()
    {
      1 <= complexity <= 10
    }
  }

  /** `max(1, min(complexity, 10))` */
  function Clamp(complexity: int): (c: int)
    ensures 1 <= c <= 10
    ensures 1 <= complexity <= 10 ==> c == complexity
    ensures complexity > 10 ==> c == 10
    ensures complexity < 1 ==> c == 1
  {
    if complexity < 1 then 1 else if complexity > 10 then 10 else complexity
  }

  /**
   * `WorldGenerator.__init__`. A missing `focus_areas` or `additional_params` (or an empty one)
   * becomes empty; a non-empty seed seeds the stream, the empty seed takes the entropy stream.
   */
  function NewWorldGenerator(
    seed: string,
    complexity: int,
    focusAreas: Option<seq<string>>,
    additionalParams: Option<map<string, Json>>,
    seeded: string -> (nat -> nat),
    entropy: nat -> nat): (g: WorldGenerator)
    ensures g.Valid()
    ensures g.seed == seed && g.complexity == Clamp(complexity)
    ensures g.focusAreas == (if focusAreas.Some? then focusAreas.value else [])
    ensures g.additionalParams == (if additionalParams.Some? then additionalParams.value else map[])
    ensures g.random.pos == 0
    ensures g.random.source == if seed != "" then seeded(seed) else entropy
  {
    WorldGenerator(
      seed,
      Clamp(complexity),
      focusAreas.GetOr([]),
      additionalParams.GetOr(map[]),
      Stream(if seed != "" then seeded(seed) else entropy, 0))
  }

  /** The numbered name `prefix-k`, as the f-strings `f"区域-{i+1}"` etc. build it. */
  function Numbered(prefix: string, k: nat): string
  {
    prefix + "-" + NatToString(k)
  }

  /** The region list comprehension for `i` in `[i0, n)`: a terrain and then a climate per region. */
  function Regions(s: Stream, i0: nat, n: nat): (r: (seq<Region>, Stream))
    requires i0 <= n
    ensures |r.0| == n - i0
    ensures forall k :: 0 <= k < |r.0| ==> r.0[k].name == Numbered("区域", i0 + k + 1)
    ensures forall k :: 0 <= k < |r.0| ==> r.0[k].terrain in Terrains && r.0[k].climate in Climates
    ensures r.1.source == s.source && r.1.pos == s.pos + 2 * (n - i0)
    decreases n - i0
  {
    if i0 == n then ([], s)
    else
      var (terrain, s1) := Choice(s, Terrains);
      var (climate, s2) := Choice(s1, Climates);
      var (rest, s3) := Regions(s2, i0 + 1, n);
      ([Region(Numbered("区域", i0 + 1), terrain, climate)] + rest, s3)
  }

  /** A `{"name": f"{prefix}-{i+1}", "type": choice(table)}` list comprehension for `i` in `[i0, n)`. */
  function NamedList(s: Stream, prefix: string, table: seq<string>, i0: nat, n: nat): (r: (seq<Named>, Stream))
    requires i0 <= n && |table| > 0
    ensures |r.0| == n - i0
    ensures forall k :: 0 <= k < |r.0| ==> r.0[k].name == Numbered(prefix, i0 + k + 1) && r.0[k].kind in table
    ensures r.1.source == s.source && r.1.pos == s.pos + (n - i0)
    decreases n - i0
  {
    if i0 == n then ([], s)
    else
      var (kind, s1) := Choice(s, table);
      var (rest, s2) := NamedList(s1, prefix, table, i0 + 1, n);
      ([Named(Numbered(prefix, i0 + 1), kind)] + rest, s2)
  }

  /** The event list comprehension for `i` in `[i0, n)`: a type and then a year per event. */
  function Events(s: Stream, i0: nat, n: nat): (r: (seq<Event>, Stream))
    requires i0 <= n
    ensures |r.0| == n - i0
    ensures forall k :: 0 <= k < |r.0| ==> r.0[k].name == Numbered("事件", i0 + k + 1)
    ensures forall k :: 0 <= k < |r.0| ==> r.0[k].kind in EventTypes && -1000 <= r.0[k].year <= 1000
    ensures r.1.source == s.source && r.1.pos == s.pos + 2 * (n - i0)
    decreases n - i0
  {
    if i0 == n then ([], s)
    else
      var (kind, s1) := Choice(s, EventTypes);
      var (year, s2) := RandInt(s1, -1000, 1000);
      var (rest, s3) := Events(s2, i0 + 1, n);
      ([Event(Numbered("事件", i0 + 1), kind, year)] + rest, s3)
  }

  /** `_generate_geography` */
  function GenerateGeography(s: Stream, complexity: int): (r: (Geography, Stream))
    requires 1 <= complexity <= 10
    ensures 2 <= |r.0.regions| <= complexity + 2
    ensures forall k :: 0 <= k < |r.0.regions| ==> r.0.regions[k].name == Numbered("区域", k + 1)
    ensures forall k :: 0 <= k < |r.0.regions| ==>
              r.0.regions[k].terrain in Terrains && r.0.regions[k].climate in Climates
    ensures r.0.climate in Climates && r.0.terrain in Terrains
    ensures r.1.source == s.source && r.1.pos > s.pos
  {
    var (n, s1) := RandInt(s, 2, complexity + 2);
    var (regions, s2) := Regions(s1, 0, n);
    var (climate, s3) := Choice(s2, Climates);
    var (terrain, s4) := Choice(s3, Terrains);
    (Geography(regions, climate, terrain), s4)
  }

  /** `_generate_culture` */
  function GenerateCulture(s: Stream, complexity: int): (r: (Culture, Stream))
    requires 1 <= complexity <= 10
    ensures 2 <= |r.0.traditions| <= complexity + 2
    ensures 1 <= |r.0.languages| <= complexity + 1
    ensures forall k :: 0 <= k < |r.0.traditions| ==>
              r.0.traditions[k].name == Numbered("传统", k + 1) && r.0.traditions[k].kind in Traditions
    ensures forall k :: 0 <= k < |r.0.languages| ==>
              r.0.languages[k].name == Numbered("语言", k + 1) && r.0.languages[k].kind in Languages
    ensures r.0.customs == []
    ensures r.1.source == s.source && r.1.pos > s.pos
  {
    var (n, s1) := RandInt(s, 2, complexity + 2);
    var (traditions, s2) := NamedList(s1, "传统", Traditions, 0, n);
    var (m, s3) := RandInt(s2, 1, complexity + 1);
    var (languages, s4) := NamedList(s3, "语言", Languages, 0, m);
    (Culture(traditions, languages, []), s4)
  }

  /** The three fixed eras: era `i` spans `[-1000 + 500 i, -500 + 500 i]`. */
  function FixedEras(): (eras: seq<Era>)
    ensures |eras| == 3
  {
    seq(3, i requires 0 <= i < 3 => Era(Numbered("时代", i + 1), -1000 + i * 500, -500 + i * 500))
  }

  /** The eras lie end to end from -1000 to 500, each 500 years long. */
  lemma ErasContiguous()
    ensures FixedEras()[0].startYear == -1000 && FixedEras()[2].endYear == 500
    ensures forall i :: 0 <= i < 3 ==> FixedEras()[i].endYear - FixedEras()[i].startYear == 500
    ensures forall i :: 0 <= i < 2 ==> FixedEras()[i].endYear == FixedEras()[i + 1].startYear
  {
  }

  /** `_generate_history`: the eras take no draws and the timeline stays empty. */
  function GenerateHistory(s: Stream, complexity: int): (r: (History, Stream))
    requires 1 <= complexity <= 10
    ensures 3 <= |r.0.events| <= complexity + 5
    ensures forall k :: 0 <= k < |r.0.events| ==> r.0.events[k].name == Numbered("事件", k + 1)
    ensures forall k :: 0 <= k < |r.0.events| ==>
              r.0.events[k].kind in EventTypes && -1000 <= r.0.events[k].year <= 1000
    ensures r.0.eras == FixedEras() && r.0.timeline == []
    ensures r.1.source == s.source && r.1.pos > s.pos
  {
    var (n, s1) := RandInt(s, 3, complexity + 5);
    var (events, s2) := Events(s1, 0, n);
    (History(events, FixedEras(), []), s2)
  }

  /** `_generate_religion` */
  function GenerateReligion(s: Stream, complexity: int): (r: (Religion, Stream))
    requires 1 <= complexity <= 10
    ensures 1 <= |r.0.beliefs| <= complexity + 1
    ensures forall k :: 0 <= k < |r.0.beliefs| ==>
              r.0.beliefs[k].name == Numbered("信仰", k + 1) && r.0.beliefs[k].kind in BeliefTypes
    ensures r.0.practices == [] && r.0.deities == []
    ensures r.1.source == s.source && r.1.pos > s.pos
  {
    var (n, s1) := RandInt(s, 1, complexity + 1);
    var (beliefs, s2) := NamedList(s1, "信仰", BeliefTypes, 0, n);
    (Religion(beliefs, [], []), s2)
  }

  /** `_generate_civilization` */
  function GenerateCivilization(s: Stream, complexity: int): (r: (Civilization, Stream))
    requires 1 <= complexity <= 10
    ensures 2 <= |r.0.societies| <= complexity + 2
    ensures forall k :: 0 <= k < |r.0.societies| ==>
              r.0.societies[k].name == Numbered("社会", k + 1) && r.0.societies[k].kind in SocietyTypes
    ensures r.0.technology.level in TechLevels && r.0.technology.advancements == []
    ensures r.0.politics.system in PoliticalSystems && r.0.politics.organizations == []
    ensures r.1.source == s.source && r.1.pos > s.pos
  {
    var (n, s1) := RandInt(s, 2, complexity + 2);
    var (societies, s2) := NamedList(s1, "社会", SocietyTypes, 0, n);
    var (level, s3) := Choice(s2, TechLevels);
    var (system, s4) := Choice(s3, PoliticalSystems);
    (Civilization(societies, Technology(level, []), Politics(system, [])), s4)
  }

  /** The `content` dict: its five sections drawn in this order from one stream. */
  function GenerateContent(s: Stream, complexity: int): (r: (Content, Stream))
    requires 1 <= complexity <= 10
    ensures var c := r.0; var n := complexity;
      && 2 <= |c.geography.regions| <= n + 2
      && 2 <= |c.culture.traditions| <= n + 2
      && 1 <= |c.culture.languages| <= n + 1
      && 3 <= |c.history.events| <= n + 5
      && 1 <= |c.religion.beliefs| <= n + 1
      && 2 <= |c.civilization.societies| <= n + 2
      && c.culture.customs == [] && c.history.timeline == [] && c.history.eras == FixedEras()
    ensures r.1.source == s.source && r.1.pos > s.pos
  {
    var (geography, s1) := GenerateGeography(s, complexity);
    var (culture, s2) := GenerateCulture(s1, complexity);
    var (history, s3) := GenerateHistory(s2, complexity);
    var (religion, s4) := GenerateReligion(s3, complexity);
    var (civilization, s5) := GenerateCivilization(s4, complexity);
    (Content(geography, culture, history, religion, civilization), s5)
  }

  /**
   * `generate()`: the world data and the generator with its stream advanced. `now` is
   * `datetime.now().isoformat()`, which takes no draw.
   */
  function Generate(g: WorldGenerator, now: string): (r: (WorldData, WorldGenerator))
    requires g.Valid()
    ensures r.0.seed == g.seed && r.0.complexity == g.complexity
    ensures r.0.metadata.createdAt == now && r.0.metadata.focusAreas == g.focusAreas
    ensures r.0.metadata.prompt.Some? <==> "prompt" in g.additionalParams
    ensures r.0.metadata.prompt.Some? ==> r.0.metadata.prompt.value == g.additionalParams["prompt"]
    ensures r.0.content == GenerateContent(g.random, g.complexity).0
    ensures r.1.Valid() && r.1.random.pos > g.random.pos
    ensures r.1 == g.(random := r.1.random)
  {
    var (content, s') := GenerateContent(g.random, g.complexity);
    var prompt := if "prompt" in g.additionalParams then Some(g.additionalParams["prompt"]) else None;
    (WorldData(g.seed, g.complexity, Metadata(now, g.focusAreas, prompt), content), g.(random := s'))
  }

  /**
   * Determinism: two generators built with the same non-empty seed, complexity, focus areas and
   * parameters produce the same world, whatever the entropy and the clock; only `created_at` differs.
   */
  lemma SameSeedSameWorld(
    seed: string, complexity: int,
    focusAreas: Option<seq<string>>, additionalParams: Option<map<string, Json>>,
    seeded: string -> (nat -> nat), entropy1: nat -> nat, entropy2: nat -> nat,
    now1: string, now2: string)
    requires seed != ""
    ensures
      var w1 := Generate(NewWorldGenerator(seed, complexity, focusAreas, additionalParams, seeded, entropy1), now1).0;
      var w2 := Generate(NewWorldGenerator(seed, complexity, focusAreas, additionalParams, seeded, entropy2), now2).0;
      w1.content == w2.content && w1 == w2.(metadata := w2.metadata.(createdAt := now1))
  {
  }
}

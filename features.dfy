/** The features section: a fixed list of features grouped by category, a
    label and a colour per category, and a "Popular" mark on highlighted
    features. */
module Features {

  /** The closed category enumeration `'roleplay' | 'community' | 'technical'`. */
  datatype Category = Roleplay | Community | Technical

  /** `highlight?: boolean`; an absent highlight is `false`. The icon, a
      React node, is left out. */
  datatype Feature = Feature(
    id: string,
    title: string,
    description: string,
    category: Category,
    benefits: seq<string>,
    highlight: bool)

  const AllFeatures: seq<Feature> := [
    Feature("custom-jobs", "Custom Jobs & Careers",
      "Dive into realistic roleplay with our extensive job system featuring unique mechanics and progression.",
      Roleplay, ["50+ Unique Jobs", "Skill Progression", "Realistic Mechanics", "Custom Missions"], true),
    Feature("dynamic-economy", "Dynamic Economy",
      "Experience a living economy with player-driven markets, businesses, and financial systems.",
      Roleplay, ["Player Businesses", "Stock Market", "Banking System", "Investments"], false),
    Feature("property-system", "Property Ownership",
      "Own and customize your dream home, business, or warehouse with our advanced property system.",
      Roleplay, ["Custom Interiors", "Security Systems", "Rental Income", "Property Trading"], false),
    Feature("community-events", "Regular Events",
      "Join exciting server-wide events, competitions, and community gatherings every week.",
      Community, ["Weekly Races", "RP Events", "Competitions", "Community Meetings"], true),
    Feature("professional-staff", "Professional Staff",
      "Our experienced and fair staff team ensures a quality roleplay environment for everyone.",
      Community, ["24/7 Support", "Fair Moderation", "Quick Response", "Experienced Team"], false),
    Feature("active-community", "Active Community",
      "Join thousands of active players in our welcoming and diverse gaming community.",
      Community, ["5000+ Members", "Global Players", "Friendly Environment", "Discord Community"], false),
    Feature("server-performance", "Optimized Performance",
      "Enjoy lag-free gameplay with our high-performance servers and optimized scripts.",
      Technical, ["99.9% Uptime", "Low Latency", "Optimized Scripts", "Regular Updates"], true),
    Feature("custom-features", "Custom Modifications",
      "Experience unique gameplay with our custom scripts, vehicles, and game mechanics.",
      Technical, ["Custom Vehicles", "Unique Scripts", "Enhanced Graphics", "Quality Mods"], false),
    Feature("anti-cheat", "Anti-Cheat Protection",
      "Play fair with our advanced anti-cheat system protecting the integrity of roleplay.",
      Technical, ["Advanced Detection", "Fair Play", "Instant Bans", "Regular Monitoring"], false)
  ]

  /** `categoryLabels`. */
  function CategoryLabel(c: Category): string {
    match c
    case Roleplay => "Roleplay Systems"
    case Community => "Community Features"
    case Technical => "Technical Excellence"
  }

  /** `categoryColors`. */
  function CategoryColor(c: Category): string {
    match c
    case Roleplay => "text-rnm-purple-400 bg-rnm-purple-900/30 border-rnm-purple-500/50"
    case Community => "text-rnm-success bg-green-900/30 border-green-500/50"
    case Technical => "text-rnm-info bg-blue-900/30 border-blue-500/50"
  }

  /** Both lookup tables tell the categories apart. */
  lemma CategoryTablesInjective(a: Category, b: Category)
    ensures CategoryLabel(a) == CategoryLabel(b) ==> a == b
    ensures CategoryColor(a) == CategoryColor(b) ==> a == b
  {
  }

  /** `features.filter(f => f.category === c)`. */
  function Filter(fs: seq<Feature>, c: Category): (r: seq<Feature>)
    ensures |r| <= |fs|
    ensures forall i :: 0 <= i < |r| ==> r[i].category == c
  {
    if fs == [] then []
    else (if fs[0].category == c then [fs[0]] else []) + Filter(fs[1..], c)
  }

  /** A group holds exactly the features of its category, each as many times
      as the list does. */
  lemma {:induction false} FilterMultiplicity(fs: seq<Feature>, c: Category, f: Feature)
    ensures multiset(Filter(fs, c))[f] == if f.category == c then multiset(fs)[f] else 0
  {
    if fs != [] {
      FilterMultiplicity(fs[1..], c, f);
      assert fs == [fs[0]] + fs[1..];
    }
  }

  /** Membership, both ways. */
  lemma FilterMembers(fs: seq<Feature>, c: Category, f: Feature)
    ensures f in Filter(fs, c) <==> f in fs && f.category == c
  {
    FilterMultiplicity(fs, c, f);
  }

  /** Filtering a concatenation filters each part: relative order within a
      group is the order of the list. */
  lemma {:induction false} FilterAppend(a: seq<Feature>, b: seq<Feature>, c: Category)
    ensures Filter(a + b, c) == Filter(a, c) + Filter(b, c)
  {
    if a == [] {
      assert a + b == b;
    } else {
      assert (a + b)[0] == a[0];
      assert (a + b)[1..] == a[1..] + b;
      FilterAppend(a[1..], b, c);
    }
  }

  /** The three groups split the list: their sizes add up to its length and
      together they hold every feature exactly as often as the list does. */
  lemma {:induction false} Partition(fs: seq<Feature>)
    ensures |Filter(fs, Roleplay)| + |Filter(fs, Community)| + |Filter(fs, Technical)| == |fs|
    ensures multiset(Filter(fs, Roleplay) + Filter(fs, Community) + Filter(fs, Technical)) == multiset(fs)
  {
    if fs != [] {
      Partition(fs[1..]);
      assert fs == [fs[0]] + fs[1..];
    }
  }

  /** A list whose every feature has category `c` is its own group. */
  lemma {:induction false} FilterAll(fs: seq<Feature>, c: Category)
    requires forall i :: 0 <= i < |fs| ==> fs[i].category == c
    ensures Filter(fs, c) == fs
  {
    if fs != [] {
      assert forall i :: 0 <= i < |fs[1..]| ==> fs[1..][i] == fs[i + 1];
      FilterAll(fs[1..], c);
      assert fs == [fs[0]] + fs[1..];
    }
  }

  /** A list with no feature of category `c` gives an empty group. */
  lemma {:induction false} FilterNone(fs: seq<Feature>, c: Category)
    requires forall i :: 0 <= i < |fs| ==> fs[i].category != c
    ensures Filter(fs, c) == []
  {
    if fs != [] {
      assert forall i :: 0 <= i < |fs[1..]| ==> fs[1..][i] == fs[i + 1];
      FilterNone(fs[1..], c);
    }
  }

  /** A list made of a roleplay run, a community run and a technical run
      groups into exactly those runs. */
  lemma ThreeRuns(a: seq<Feature>, b: seq<Feature>, d: seq<Feature>)
    requires forall i :: 0 <= i < |a| ==> a[i].category == Roleplay
    requires forall i :: 0 <= i < |b| ==> b[i].category == Community
    requires forall i :: 0 <= i < |d| ==> d[i].category == Technical
    ensures Filter(a + b + d, Roleplay) == a
    ensures Filter(a + b + d, Community) == b
    ensures Filter(a + b + d, Technical) == d
  {
    FilterAppend(a + b, d, Roleplay);
    FilterAppend(a, b, Roleplay);
    FilterAll(a, Roleplay);
    FilterNone(b, Roleplay);
    FilterNone(d, Roleplay);
    FilterAppend(a + b, d, Community);
    FilterAppend(a, b, Community);
    FilterNone(a, Community);
    FilterAll(b, Community);
    FilterNone(d, Community);
    FilterAppend(a + b, d, Technical);
    FilterAppend(a, b, Technical);
    FilterNone(a, Technical);
    FilterNone(b, Technical);
    FilterAll(d, Technical);
  }

  /** The nine features sit in three runs of three per category, so each
      group is one run, in list order. */
  lemma FixtureGroups()
    ensures Filter(AllFeatures, Roleplay) == AllFeatures[..3]
    ensures Filter(AllFeatures, Community) == AllFeatures[3..6]
    ensures Filter(AllFeatures, Technical) == AllFeatures[6..]
  {
    var s := AllFeatures;
    var a, b, d := s[..3], s[3..6], s[6..];
    assert s == a + b + d;
    ThreeRuns(a, b, d);
  }

  datatype Group = Group(category: Category, heading: string, features: seq<Feature>)

  /** `categorizedFeatures` as `Object.entries` lists it: roleplay,
      community, technical, each headed by its label. */
  function CategorizedFeatures(fs: seq<Feature>): (groups: seq<Group>)
    ensures |groups| == 3
    ensures groups[0].category == Roleplay && groups[1].category == Community && groups[2].category == Technical
    ensures forall i :: 0 <= i < 3 ==>
      groups[i].heading == CategoryLabel(groups[i].category) &&
      groups[i].features == Filter(fs, groups[i].category)
  {
    [ Group(Roleplay, CategoryLabel(Roleplay), Filter(fs, Roleplay)),
      Group(Community, CategoryLabel(Community), Filter(fs, Community)),
      Group(Technical, CategoryLabel(Technical), Filter(fs, Technical)) ]
  }

  datatype FeatureCard = FeatureCard(
    popularBadge: bool,
    ring: bool,
    categoryBadge: string,
    iconColor: string,
    badgeColor: string,
    title: string,
    benefits: seq<string>)

  /** `FeatureCard`: the "Popular" badge and the ring appear exactly for a
      highlighted feature; icon and badge take the category's colour; the
      badge names the category. */
  function FeatureCardFor(f: Feature): (card: FeatureCard)
    ensures card.popularBadge == f.highlight && card.ring == f.highlight
    ensures card.categoryBadge == CategoryLabel(f.category)
    ensures card.iconColor == card.badgeColor == CategoryColor(f.category)
    ensures card.title == f.title && card.benefits == f.benefits
  {
    FeatureCard(f.highlight, f.highlight, CategoryLabel(f.category),
      CategoryColor(f.category), CategoryColor(f.category), f.title, f.benefits)
  }
}

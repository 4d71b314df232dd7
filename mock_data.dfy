/**
 * The portal's seeded data: the category list, the catalogue of legislative
 * stages, the sponsors, the filter option lists and the seven sample acts,
 * together with the `LegislativeAct` record shape the whole portal passes around.
 *
 * Dates are integers written YYYYMMDD (2025-01-15 is 20250115); a `null` or absent
 * date is `None`. Status, progress, priority and stage status stay strings, as in
 * the source, because fetched data may carry any string there.
 */
module MockData {
  import opened Options
  import opened Seqs

  datatype Category = Category(id: string, name: string, icon: string, count: nat)

  /** One step of an act's legislative path. */
  datatype Stage = Stage(id: string, name: string, date: Option<int>, status: string)

  /** A published version of an act's text. */
  datatype Version = Version(id: string, number: int, date: int, kind: string, url: string)

  /** Votes cast in one reading of the Sejm. */
  datatype Tally = Tally(inFavour: nat, against: nat, abstain: nat)

  datatype Votes = Votes(iReading: Option<Tally>, iiReading: Option<Tally>, iiiReading: Option<Tally>)

  /** `LegislativeAct`. */
  datatype Act = Act(
    id: string,
    title: string,
    summary: string,
    fullText: Option<string>,
    status: string,
    progress: string,
    category: string,
    tags: seq<string>,
    priority: string,
    sponsor: string,
    dateSubmitted: int,
    lastUpdated: int,
    kadencja: string,
    currentStage: int,
    stages: seq<Stage>,
    hasConsultation: bool,
    consultationStart: Option<int>,
    consultationEnd: Option<int>,
    versions: seq<Version>,
    votes: Option<Votes>)

  datatype FilterOption = FilterOption(value: string, caption: string)

  const Categories: seq<Category> := [
    Category("finanse", "Finanse i podatki", "Banknote", 24),
    Category("sprawiedliwosc", "Sprawiedliwość i prawo karne", "Scale", 18),
    Category("bezpieczenstwo", "Bezpieczeństwo i cyberbezpieczeństwo", "Shield", 12),
    Category("edukacja", "Edukacja i nauka", "GraduationCap", 15),
    Category("zdrowie", "Zdrowie i polityka społeczna", "Heart", 21),
    Category("energetyka", "Energetyka i środowisko", "Leaf", 19),
    Category("transport", "Transport i infrastruktura", "Train", 11),
    Category("gospodarka", "Gospodarka i przedsiębiorczość", "Building2", 16),
    Category("rolnictwo", "Rolnictwo i rozwój wsi", "Wheat", 9),
    Category("administracja", "Administracja publiczna i cyfryzacja", "Monitor", 14),
    Category("kultura", "Kultura i media", "Palette", 7),
    Category("samorzady", "Samorządy i sprawy wewnętrzne", "Landmark", 13)
  ]

  /** The catalogue of stage names, in the order a bill passes through them. */
  const LegislativeStages: seq<string> := [
    "Projekt został przyjęty do prac rady ministrów",
    "Zgłoszenia lobbingowe",
    "Uzgodnienia",
    "Konsultacje publiczne",
    "Opiniowanie",
    "Komitet Rady Ministrów do Spraw Cyfryzacji",
    "Komitet do Spraw Europejskich",
    "Komitet Społeczny Rady Ministrów",
    "Komitet Ekonomiczny Rady Ministrów",
    "Stały Komitet Rady Ministrów",
    "Komisja Prawnicza",
    "Potwierdzenie projektu przez Stały Komitet Rady Ministrów",
    "Rada Ministrów",
    "Notyfikacja",
    "Skierowanie projektu ustawy do Sejmu",
    "Wpłynięcie projektu do Sejmu",
    "I czytanie na posiedzeniu Sejmu",
    "Praca w komisjach po I czytaniu",
    "Sprawozdanie komisji po I czytaniu",
    "II czytanie na posiedzeniu Sejmu",
    "Praca w komisjach po II czytaniu",
    "Sprawozdanie komisji po II czytaniu",
    "III czytanie na posiedzeniu Sejmu",
    "Głosowanie w Sejmie",
    "Przekazanie ustawy Prezydentowi i Marszałkowi Senatu",
    "Wpłynięcie ustawy do Prezydenta",
    "Wpłynięcie ustawy do Marszałka Senatu",
    "Skierowanie ustawy do Komisji Senackich",
    "Rozpatrzenie ustawy przez Komisje Senackie",
    "Rozpatrzenie ustawy przez Senat",
    "Przekazanie uchwały do Sejmu",
    "Wpłynięcie do Sejmu stanowisko Senatu",
    "Praca w komisjach nad stanowiskiem Senatu",
    "Sprawozdanie komisji",
    "Rozpatrywanie na forum Sejmu stanowiska Senatu",
    "Przekazanie Ustawy Prezydentowi do podpisu",
    "Podpisanie przez Prezydenta Ustawy",
    "Przekazanie Ustawy do dziennika ustaw"
  ]

  const Sponsors: seq<string> := [
    "Minister Finansów",
    "Minister Sprawiedliwości",
    "Minister Cyfryzacji",
    "Minister Zdrowia",
    "Minister Edukacji",
    "Minister Klimatu i Środowiska",
    "Minister Infrastruktury",
    "Minister Spraw Wewnętrznych i Administracji",
    "Minister Obrony Narodowej",
    "Minister Kultury i Dziedzictwa Narodowego",
    "Minister Rolnictwa i Rozwoju Wsi",
    "Minister Rodziny, Pracy i Polityki Społecznej",
    "Prezes Rady Ministrów",
    "Szef Kancelarii Prezesa Rady Ministrów"
  ]

  const TypAktuOptions: seq<FilterOption> := [
    FilterOption("projekt_ustawy", "Projekt ustawy"),
    FilterOption("projekt_ustawy_zmieniajacej", "Projekt ustawy zmieniającej"),
    FilterOption("ustawa_kodeksowa", "Ustawa kodeksowa"),
    FilterOption("ustawa_budzetowa", "Ustawa budżetowa"),
    FilterOption("przepisy_wprowadzajace", "Przepisy wprowadzające")
  ]

  const StatusOptions: seq<FilterOption> := [
    FilterOption("planowany", "Planowany"),
    FilterOption("procedowany", "Procedowany"),
    FilterOption("uchwalony", "Uchwalony"),
    FilterOption("odrzucony", "Odrzucony"),
    FilterOption("wycofany", "Wycofany")
  ]

  const ProgressOptions: seq<FilterOption> := [
    FilterOption("przyjety", "Przyjęty"),
    FilterOption("w_toku", "W toku"),
    FilterOption("archiwalny", "Archiwalny")
  ]

  const Act001Stages: seq<Stage> :=
    [ Stage("s1", LegislativeStages[0], Some(20250115), "done"),
      Stage("s2", LegislativeStages[1], Some(20250120), "done"),
      Stage("s3", LegislativeStages[2], Some(20250125), "done"),
      Stage("s4", LegislativeStages[3], Some(20250201), "done"),
      Stage("s5", LegislativeStages[4], Some(20250215), "done"),
      Stage("s6", LegislativeStages[9], Some(20250301), "done"),
      Stage("s7", LegislativeStages[10], Some(20250310), "done"),
      Stage("s8", LegislativeStages[12], Some(20250320), "done"),
      Stage("s9", LegislativeStages[14], Some(20250401), "done"),
      Stage("s10", LegislativeStages[16], Some(20250415), "done"),
      Stage("s11", LegislativeStages[17], Some(20250501), "in_progress"),
      Stage("s12", LegislativeStages[19], None, "pending"),
      Stage("s13", LegislativeStages[22], None, "pending"),
      Stage("s14", LegislativeStages[23], None, "pending") ]

  const Act001: Act := Act(
    "PL_2025_001",
    "Projekt ustawy o zmianie ustawy o podatku dochodowym od osób fizycznych",
    "Ustawa wprowadza zmiany w progach podatkowych oraz nowe ulgi dla rodzin wielodzietnych. Projekt ma na celu zmniejszenie obciążeń podatkowych dla klasy średniej.",
    None, "procedowany", "w_toku", "finanse",
    ["podatkowe", "obywatele", "budżet_panstwa"],
    "high", "Minister Finansów", 20250115, 20250601, "X", 16,
    Act001Stages,
    true, Some(20250201), Some(20250228),
    [ Version("v1", 1, 20250115, "projekt", "/docs/PL_2025_001_v1.pdf"),
      Version("v2", 2, 20250320, "po_komisji", "/docs/PL_2025_001_v2.pdf") ],
    Some(Votes(Some(Tally(245, 180, 15)), None, None)))

  const Act002Stages: seq<Stage> :=
    [ Stage("s1", LegislativeStages[0], Some(20250201), "done"),
      Stage("s2", LegislativeStages[3], Some(20250215), "done"),
      Stage("s3", LegislativeStages[4], Some(20250320), "done"),
      Stage("s4", LegislativeStages[5], Some(20250401), "done"),
      Stage("s5", LegislativeStages[9], Some(20250415), "in_progress"),
      Stage("s6", LegislativeStages[12], None, "pending") ]

  const Act002: Act := Act(
    "PL_2025_002",
    "Projekt ustawy o cyberbezpieczeństwie systemów informatycznych",
    "Ustawa określa wymogi bezpieczeństwa dla systemów informatycznych podmiotów publicznych oraz operatorów usług kluczowych.",
    None, "procedowany", "w_toku", "bezpieczenstwo",
    ["cyfryzacja", "administracja_publiczna", "przedsiębiorcy"],
    "high", "Minister Cyfryzacji", 20250201, 20250515, "X", 8,
    Act002Stages,
    true, Some(20250215), Some(20250315),
    [ Version("v1", 1, 20250201, "projekt", "/docs/PL_2025_002_v1.pdf") ],
    None)

  const Act003Stages: seq<Stage> :=
    [ Stage("s1", LegislativeStages[0], Some(20241101), "done"),
      Stage("s2", LegislativeStages[3], Some(20241115), "done"),
      Stage("s3", LegislativeStages[12], Some(20250110), "done"),
      Stage("s4", LegislativeStages[16], Some(20250125), "done"),
      Stage("s5", LegislativeStages[19], Some(20250210), "done"),
      Stage("s6", LegislativeStages[22], Some(20250215), "done"),
      Stage("s7", LegislativeStages[23], Some(20250215), "done"),
      Stage("s8", LegislativeStages[29], Some(20250225), "done"),
      Stage("s9", LegislativeStages[36], Some(20250301), "done") ]

  const Act003: Act := Act(
    "PL_2025_003",
    "Ustawa o wsparciu dla rolników w okresie suszy",
    "Ustawa wprowadza mechanizmy wsparcia finansowego dla gospodarstw rolnych dotkniętych skutkami suszy.",
    None, "uchwalony", "przyjety", "rolnictwo",
    ["rolnictwo", "budżet_panstwa", "obywatele"],
    "high", "Minister Rolnictwa i Rozwoju Wsi", 20241101, 20250301, "X", 38,
    Act003Stages,
    true, Some(20241115), Some(20241215),
    [ Version("v1", 1, 20241101, "projekt", "/docs/PL_2025_003_v1.pdf"),
      Version("v2", 2, 20250215, "uchwalona", "/docs/PL_2025_003_v2.pdf") ],
    Some(Votes(Some(Tally(280, 120, 40)), None, Some(Tally(310, 100, 30)))))

  const Act004Stages: seq<Stage> :=
    [ Stage("s1", LegislativeStages[0], Some(20250301), "done"),
      Stage("s2", LegislativeStages[3], Some(20250315), "in_progress"),
      Stage("s3", LegislativeStages[4], None, "pending"),
      Stage("s4", LegislativeStages[12], None, "pending") ]

  const Act004: Act := Act(
    "PL_2025_004",
    "Projekt ustawy o reformie systemu oświaty",
    "Kompleksowa reforma programów nauczania oraz systemu egzaminacyjnego w szkołach podstawowych i ponadpodstawowych.",
    None, "procedowany", "w_toku", "edukacja",
    ["edukacyjne", "obywatele", "samorząd"],
    "high", "Minister Edukacji", 20250301, 20250520, "X", 4,
    Act004Stages,
    true, Some(20250315), Some(20250430),
    [ Version("v1", 1, 20250301, "projekt", "/docs/PL_2025_004_v1.pdf") ],
    None)

  const Act005Stages: seq<Stage> :=
    [ Stage("s1", LegislativeStages[0], Some(20250401), "done"),
      Stage("s2", LegislativeStages[2], Some(20250410), "in_progress"),
      Stage("s3", LegislativeStages[3], None, "pending") ]

  const Act005: Act := Act(
    "PL_2025_005",
    "Projekt ustawy o ochronie danych medycznych",
    "Ustawa reguluje zasady przetwarzania i ochrony danych medycznych pacjentów w systemach informatycznych.",
    None, "planowany", "w_toku", "zdrowie",
    ["zdrowotne", "cyfryzacja", "obywatele"],
    "normal", "Minister Zdrowia", 20250401, 20250415, "X", 2,
    Act005Stages,
    false, None, None,
    [ Version("v1", 1, 20250401, "projekt", "/docs/PL_2025_005_v1.pdf") ],
    None)

  const Act006Stages: seq<Stage> :=
    [ Stage("s1", LegislativeStages[0], Some(20250120), "done"),
      Stage("s2", LegislativeStages[3], Some(20250201), "done"),
      Stage("s3", LegislativeStages[12], Some(20250315), "done"),
      Stage("s4", LegislativeStages[16], Some(20250401), "done"),
      Stage("s5", LegislativeStages[19], Some(20250501), "done"),
      Stage("s6", LegislativeStages[22], Some(20250520), "in_progress") ]

  const Act006: Act := Act(
    "PL_2025_006",
    "Projekt ustawy o odnawialnych źródłach energii",
    "Nowelizacja ustawy wprowadzająca ułatwienia dla prosumentów oraz nowe mechanizmy wsparcia farm fotowoltaicznych.",
    None, "procedowany", "w_toku", "energetyka",
    ["energetyczne", "ochrona_środowiska", "przedsiębiorcy"],
    "high", "Minister Klimatu i Środowiska", 20250120, 20250525, "X", 20,
    Act006Stages,
    true, Some(20250201), Some(20250301),
    [ Version("v1", 1, 20250120, "projekt", "/docs/PL_2025_006_v1.pdf"),
      Version("v2", 2, 20250501, "po_komisji", "/docs/PL_2025_006_v2.pdf") ],
    Some(Votes(Some(Tally(260, 150, 30)), Some(Tally(275, 140, 25)), None)))

  const Act007Stages: seq<Stage> :=
    [ Stage("s1", LegislativeStages[0], Some(20250501), "done"),
      Stage("s2", LegislativeStages[1], Some(20250510), "done"),
      Stage("s3", LegislativeStages[3], Some(20251115), "in_progress"),
      Stage("s4", LegislativeStages[4], None, "pending"),
      Stage("s5", LegislativeStages[12], None, "pending") ]

  const Act007: Act := Act(
    "PL_2025_007",
    "Projekt ustawy o wspieraniu mobilności osób niepełnosprawnych",
    "Ustawa wprowadza nowe ulgi i dofinansowania dla osób niepełnosprawnych korzystających z transportu publicznego oraz indywidualnego. Projekt zakłada również modernizację infrastruktury dostępności w miastach.",
    None, "procedowany", "w_toku", "transport",
    ["społeczne", "transport", "osoby niepełnosprawne"],
    "high", "Minister Infrastruktury", 20250501, 20251130, "X", 5,
    Act007Stages,
    true, Some(20251115), Some(20251220),
    [ Version("v1", 1, 20250501, "projekt", "/docs/PL_2025_007_v1.pdf") ],
    None)

  const SampleActs: seq<Act> := [Act001, Act002, Act003, Act004, Act005, Act006, Act007]

  predicate IsHighPriority(a: Act) {
    a.priority == "high"
  }

  /** `featuredActs`: the first four high-priority sample acts. */
  const FeaturedActs: seq<Act> := Take(Filter(SampleActs, IsHighPriority), 4)

  /** The featured list has at most four acts, all of high priority, in sample order. */
  lemma FeaturedActsSpec()
    ensures |FeaturedActs| <= 4
    ensures forall a :: a in FeaturedActs ==> a in SampleActs && a.priority == "high"
    ensures IsSubsequence(FeaturedActs, SampleActs)
  {
    var all := Filter(SampleActs, IsHighPriority);
    FilterIsSubsequence(SampleActs, IsHighPriority);
    TakeIsSubsequence(all, 4);
    SubsequenceTransitive(FeaturedActs, all, SampleActs);
    forall a | a in FeaturedActs ensures a in all {
      var k :| 0 <= k < |FeaturedActs| && FeaturedActs[k] == a;
      assert all[k] == a;
    }
  }

  /** `idx` gives each stage's position in the catalogue, each position after the one
      before: the stages are catalogue entries, taken in catalogue order. */
  ghost predicate PlacedAt(stages: seq<Stage>, idx: seq<int>) {
    && |idx| == |stages|
    && (forall k :: 0 <= k < |idx| ==>
          0 <= idx[k] < |LegislativeStages| && LegislativeStages[idx[k]] == stages[k].name)
    && (forall k :: 0 < k < |idx| ==> idx[k - 1] < idx[k])
  }

  ghost predicate FollowsCatalogue(stages: seq<Stage>) {
    exists idx :: PlacedAt(stages, idx)
  }

  /** Positions that rise step by step rise between any two stages: a later stage
      always sits further along the catalogue. */
  lemma {:induction false} PlacedAtIncreasing(stages: seq<Stage>, idx: seq<int>)
    requires PlacedAt(stages, idx)
    ensures forall j, k :: 0 <= j < k < |idx| ==> idx[j] < idx[k]
    decreases |idx|
  {
    if |idx| > 1 {
      var n := |idx| - 1;
      PlacedAtIncreasing(stages[..n], idx[..n]);
      forall j, k | 0 <= j < k < |idx| ensures idx[j] < idx[k] {
        if k == n && j < n - 1 {
          assert idx[..n][j] < idx[..n][n - 1];
        } else if k < n {
          assert idx[..n][j] < idx[..n][k];
        }
      }
    }
  }

  /** The statuses read `done` before `d`, `in_progress` from `d` to `p` (at most one
      stage), and `pending` from `p` on. */
  predicate ShapedAt(stages: seq<Stage>, d: int, p: int) {
    && 0 <= d <= p <= |stages| && p <= d + 1
    && (forall i :: 0 <= i < d ==> stages[i].status == "done")
    && (forall i :: d <= i < p ==> stages[i].status == "in_progress")
    && (forall i :: p <= i < |stages| ==> stages[i].status == "pending")
  }

  /** done* [in_progress] pending* */
  ghost predicate WellShaped(stages: seq<Stage>) {
    exists d, p :: ShapedAt(stages, d, p)
  }

  /** A well-shaped stage list has at most one stage in progress. */
  lemma InProgressAtMostOnce(stages: seq<Stage>)
    requires WellShaped(stages)
    ensures forall i, j ::
              (0 <= i < |stages| && 0 <= j < |stages| &&
               stages[i].status == "in_progress" && stages[j].status == "in_progress") ==> i == j
  {
    var d, p :| ShapedAt(stages, d, p);
  }

  /** Stages that are done or in progress carry a date; pending ones carry none. */
  predicate DatedUnlessPending(stages: seq<Stage>) {
    forall i :: 0 <= i < |stages| ==> (stages[i].date.Some? <==> stages[i].status != "pending")
  }

  /** An act with a consultation has both window dates, start not after end; an act
      without one has neither. */
  predicate ConsultationWindow(a: Act) {
    if a.hasConsultation then
      a.consultationStart.Some? && a.consultationEnd.Some?
      && a.consultationStart.value <= a.consultationEnd.value
    else
      a.consultationStart.None? && a.consultationEnd.None?
  }

  /** The versions are numbered 1, 2, ..., in order. */
  predicate VersionsNumbered(a: Act) {
    forall k :: 0 <= k < |a.versions| ==> a.versions[k].number == k + 1
  }

  ghost predicate StagesInvariant(stages: seq<Stage>) {
    FollowsCatalogue(stages) && WellShaped(stages) && DatedUnlessPending(stages)
  }

  /** What every seeded act satisfies. */
  ghost predicate SeedInvariant(a: Act) {
    StagesInvariant(a.stages) && ConsultationWindow(a) && VersionsNumbered(a)
  }

  /** Every sample act satisfies the seed invariant. */
  lemma SampleActsInvariant()
    ensures forall a :: a in SampleActs ==> SeedInvariant(a)
  {
    Act001Invariant();
    Act002Invariant();
    Act003Invariant();
    Act004Invariant();
    Act005Invariant();
    Act006Invariant();
    Act007Invariant();
  }

  /** The catalogue positions of the stages of PL_2025_001. */
  const Act001Positions: seq<int> := [0, 1, 2, 3, 4, 9, 10, 12, 14, 16, 17, 19, 22, 23]

  lemma Act001StagesInvariant()
    ensures StagesInvariant(Act001Stages)
  {
    Act001FollowsCatalogue();
    Act001WellShaped();
  }

  lemma Act001FollowsCatalogue()
    ensures FollowsCatalogue(Act001Stages)
  {
    Act001NamesLow();
    Act001NamesHigh();
    PlacedAtByHalves(Act001Stages, Act001Positions, 7);
  }

  /** Positions that are in range and rising, with the names checked in two
      halves, place the stages. */
  lemma PlacedAtByHalves(stages: seq<Stage>, idx: seq<int>, half: int)
    requires |idx| == |stages| && 0 <= half <= |idx|
    requires forall k :: 0 <= k < |idx| ==> 0 <= idx[k] < |LegislativeStages|
    requires forall k :: 0 < k < |idx| ==> idx[k - 1] < idx[k]
    requires forall k :: 0 <= k < half ==> LegislativeStages[idx[k]] == stages[k].name
    requires forall k :: half <= k < |idx| ==> LegislativeStages[idx[k]] == stages[k].name
    ensures FollowsCatalogue(stages)
  {
    assert PlacedAt(stages, idx);
  }

  /** The first seven stages of PL_2025_001 sit at their catalogue positions. */
  lemma Act001NamesLow()
    ensures |Act001Stages| == |Act001Positions| == 14 && |LegislativeStages| == 38
    ensures forall k :: 0 <= k < 14 ==> 0 <= Act001Positions[k] < 38
    ensures forall k :: 0 < k < 14 ==> Act001Positions[k - 1] < Act001Positions[k]
    ensures forall k :: 0 <= k < 7 ==> LegislativeStages[Act001Positions[k]] == Act001Stages[k].name
  {
  }

  /** The last seven stages of PL_2025_001 sit at their catalogue positions. */
  lemma Act001NamesHigh()
    ensures |Act001Stages| == |Act001Positions| == 14 && |LegislativeStages| == 38
    ensures forall k :: 7 <= k < 14 ==> LegislativeStages[Act001Positions[k]] == Act001Stages[k].name
  {
  }

  lemma Act001WellShaped()
    ensures WellShaped(Act001Stages) && DatedUnlessPending(Act001Stages)
  {
    assert ShapedAt(Act001Stages, 10, 11);
  }

  lemma Act001Invariant()
    ensures SeedInvariant(Act001)
  {
    Act001StagesInvariant();
  }

  /** The catalogue positions of the stages of PL_2025_002. */
  const Act002Positions: seq<int> := [0, 3, 4, 5, 9, 12]

  lemma Act002StagesInvariant()
    ensures StagesInvariant(Act002Stages)
  {
    Act002FollowsCatalogue();
    Act002WellShaped();
  }

  lemma Act002FollowsCatalogue()
    ensures FollowsCatalogue(Act002Stages)
  {
    assert PlacedAt(Act002Stages, Act002Positions);
  }

  lemma Act002WellShaped()
    ensures WellShaped(Act002Stages) && DatedUnlessPending(Act002Stages)
  {
    assert ShapedAt(Act002Stages, 4, 5);
  }

  lemma Act002Invariant()
    ensures SeedInvariant(Act002)
  {
    Act002StagesInvariant();
  }

  /** The catalogue positions of the stages of PL_2025_003. */
  const Act003Positions: seq<int> := [0, 3, 12, 16, 19, 22, 23, 29, 36]

  lemma Act003StagesInvariant()
    ensures StagesInvariant(Act003Stages)
  {
    Act003FollowsCatalogue();
    Act003WellShaped();
  }

  lemma Act003FollowsCatalogue()
    ensures FollowsCatalogue(Act003Stages)
  {
    assert PlacedAt(Act003Stages, Act003Positions);
  }

  lemma Act003WellShaped()
    ensures WellShaped(Act003Stages) && DatedUnlessPending(Act003Stages)
  {
    assert ShapedAt(Act003Stages, 9, 9);
  }

  lemma Act003Invariant()
    ensures SeedInvariant(Act003)
  {
    Act003StagesInvariant();
  }

  /** The catalogue positions of the stages of PL_2025_004. */
  const Act004Positions: seq<int> := [0, 3, 4, 12]

  lemma Act004StagesInvariant()
    ensures StagesInvariant(Act004Stages)
  {
    Act004FollowsCatalogue();
    Act004WellShaped();
  }

  lemma Act004FollowsCatalogue()
    ensures FollowsCatalogue(Act004Stages)
  {
    assert PlacedAt(Act004Stages, Act004Positions);
  }

  lemma Act004WellShaped()
    ensures WellShaped(Act004Stages) && DatedUnlessPending(Act004Stages)
  {
    assert ShapedAt(Act004Stages, 1, 2);
  }

  lemma Act004Invariant()
    ensures SeedInvariant(Act004)
  {
    Act004StagesInvariant();
  }

  /** The catalogue positions of the stages of PL_2025_005. */
  const Act005Positions: seq<int> := [0, 2, 3]

  lemma Act005StagesInvariant()
    ensures StagesInvariant(Act005Stages)
  {
    Act005FollowsCatalogue();
    Act005WellShaped();
  }

  lemma Act005FollowsCatalogue()
    ensures FollowsCatalogue(Act005Stages)
  {
    assert PlacedAt(Act005Stages, Act005Positions);
  }

  lemma Act005WellShaped()
    ensures WellShaped(Act005Stages) && DatedUnlessPending(Act005Stages)
  {
    assert ShapedAt(Act005Stages, 1, 2);
  }

  lemma Act005Invariant()
    ensures SeedInvariant(Act005)
  {
    Act005StagesInvariant();
  }

  /** The catalogue positions of the stages of PL_2025_006. */
  const Act006Positions: seq<int> := [0, 3, 12, 16, 19, 22]

  lemma Act006StagesInvariant()
    ensures StagesInvariant(Act006Stages)
  {
    Act006FollowsCatalogue();
    Act006WellShaped();
  }

  lemma Act006FollowsCatalogue()
    ensures FollowsCatalogue(Act006Stages)
  {
    assert PlacedAt(Act006Stages, Act006Positions);
  }

  lemma Act006WellShaped()
    ensures WellShaped(Act006Stages) && DatedUnlessPending(Act006Stages)
  {
    assert ShapedAt(Act006Stages, 5, 6);
  }

  lemma Act006Invariant()
    ensures SeedInvariant(Act006)
  {
    Act006StagesInvariant();
  }

  /** The catalogue positions of the stages of PL_2025_007. */
  const Act007Positions: seq<int> := [0, 1, 3, 4, 12]

  lemma Act007StagesInvariant()
    ensures StagesInvariant(Act007Stages)
  {
    Act007FollowsCatalogue();
    Act007WellShaped();
  }

  lemma Act007FollowsCatalogue()
    ensures FollowsCatalogue(Act007Stages)
  {
    assert PlacedAt(Act007Stages, Act007Positions);
  }

  lemma Act007WellShaped()
    ensures WellShaped(Act007Stages) && DatedUnlessPending(Act007Stages)
  {
    assert ShapedAt(Act007Stages, 2, 3);
  }

  lemma Act007Invariant()
    ensures SeedInvariant(Act007)
  {
    Act007StagesInvariant();
  }

  /** The `currentStage` field is not a position in `stages`: it runs past the
      stage count (16 of 14, 8 of 6, 38 of 9). */
  lemma CurrentStagePastStageCount()
    ensures Act001.currentStage == 16 && |Act001.stages| == 14
    ensures Act002.currentStage == 8 && |Act002.stages| == 6
    ensures Act003.currentStage == 38 && |Act003.stages| == 9
    ensures Act006.currentStage == 20 && |Act006.stages| == 6
  {
  }

  /** The catalogue has 38 stages and none appears twice. */
  lemma CatalogueDistinct()
    ensures |LegislativeStages| == 38
    ensures Distinct(LegislativeStages)
  {
    CataloguePositions0();
    CataloguePositions1();
    CataloguePositions2();
    CataloguePositions3();
    CataloguePositions4();
    CataloguePositions5();
    CataloguePositions6();
    CataloguePositions7();
    CataloguePositions8();
    CataloguePositions9();
    forall i, j | 0 <= i < j < |LegislativeStages|
      ensures LegislativeStages[i] != LegislativeStages[j]
    {
      assert PositionOfFingerprint(Fingerprint(LegislativeStages[i])) == i;
      assert PositionOfFingerprint(Fingerprint(LegislativeStages[j])) == j;
    }
  }

  lemma CataloguePositions0()
    ensures |LegislativeStages| == 38
    ensures forall i :: 0 <= i < 4 ==> PositionOfFingerprint(Fingerprint(LegislativeStages[i])) == i
  {
    assert PositionOfFingerprint(Fingerprint(LegislativeStages[0])) == 0;
    assert PositionOfFingerprint(Fingerprint(LegislativeStages[1])) == 1;
    assert PositionOfFingerprint(Fingerprint(LegislativeStages[2])) == 2;
    assert PositionOfFingerprint(Fingerprint(LegislativeStages[3])) == 3;
  }

  lemma CataloguePositions1()
    ensures |LegislativeStages| == 38
    ensures forall i :: 4 <= i < 8 ==> PositionOfFingerprint(Fingerprint(LegislativeStages[i])) == i
  {
    assert PositionOfFingerprint(Fingerprint(LegislativeStages[4])) == 4;
    assert PositionOfFingerprint(Fingerprint(LegislativeStages[5])) == 5;
    assert PositionOfFingerprint(Fingerprint(LegislativeStages[6])) == 6;
    assert PositionOfFingerprint(Fingerprint(LegislativeStages[7])) == 7;
  }

  lemma CataloguePositions2()
    ensures |LegislativeStages| == 38
    ensures forall i :: 8 <= i < 12 ==> PositionOfFingerprint(Fingerprint(LegislativeStages[i])) == i
  {
    assert PositionOfFingerprint(Fingerprint(LegislativeStages[8])) == 8;
    assert PositionOfFingerprint(Fingerprint(LegislativeStages[9])) == 9;
    assert PositionOfFingerprint(Fingerprint(LegislativeStages[10])) == 10;
    assert PositionOfFingerprint(Fingerprint(LegislativeStages[11])) == 11;
  }

  lemma CataloguePositions3()
    ensures |LegislativeStages| == 38
    ensures forall i :: 12 <= i < 16 ==> PositionOfFingerprint(Fingerprint(LegislativeStages[i])) == i
  {
    assert PositionOfFingerprint(Fingerprint(LegislativeStages[12])) == 12;
    assert PositionOfFingerprint(Fingerprint(LegislativeStages[13])) == 13;
    assert PositionOfFingerprint(Fingerprint(LegislativeStages[14])) == 14;
    assert PositionOfFingerprint(Fingerprint(LegislativeStages[15])) == 15;
  }

  lemma CataloguePositions4()
    ensures |LegislativeStages| == 38
    ensures forall i :: 16 <= i < 20 ==> PositionOfFingerprint(Fingerprint(LegislativeStages[i])) == i
  {
    assert PositionOfFingerprint(Fingerprint(LegislativeStages[16])) == 16;
    assert PositionOfFingerprint(Fingerprint(LegislativeStages[17])) == 17;
    assert PositionOfFingerprint(Fingerprint(LegislativeStages[18])) == 18;
    assert PositionOfFingerprint(Fingerprint(LegislativeStages[19])) == 19;
  }

  lemma CataloguePositions5()
    ensures |LegislativeStages| == 38
    ensures forall i :: 20 <= i < 24 ==> PositionOfFingerprint(Fingerprint(LegislativeStages[i])) == i
  {
    assert PositionOfFingerprint(Fingerprint(LegislativeStages[20])) == 20;
    assert PositionOfFingerprint(Fingerprint(LegislativeStages[21])) == 21;
    assert PositionOfFingerprint(Fingerprint(LegislativeStages[22])) == 22;
    assert PositionOfFingerprint(Fingerprint(LegislativeStages[23])) == 23;
  }

  lemma CataloguePositions6()
    ensures |LegislativeStages| == 38
    ensures forall i :: 24 <= i < 28 ==> PositionOfFingerprint(Fingerprint(LegislativeStages[i])) == i
  {
    assert PositionOfFingerprint(Fingerprint(LegislativeStages[24])) == 24;
    assert PositionOfFingerprint(Fingerprint(LegislativeStages[25])) == 25;
    assert PositionOfFingerprint(Fingerprint(LegislativeStages[26])) == 26;
    assert PositionOfFingerprint(Fingerprint(LegislativeStages[27])) == 27;
  }

  lemma CataloguePositions7()
    ensures |LegislativeStages| == 38
    ensures forall i :: 28 <= i < 32 ==> PositionOfFingerprint(Fingerprint(LegislativeStages[i])) == i
  {
    assert PositionOfFingerprint(Fingerprint(LegislativeStages[28])) == 28;
    assert PositionOfFingerprint(Fingerprint(LegislativeStages[29])) == 29;
    assert PositionOfFingerprint(Fingerprint(LegislativeStages[30])) == 30;
    assert PositionOfFingerprint(Fingerprint(LegislativeStages[31])) == 31;
  }

  lemma CataloguePositions8()
    ensures |LegislativeStages| == 38
    ensures forall i :: 32 <= i < 36 ==> PositionOfFingerprint(Fingerprint(LegislativeStages[i])) == i
  {
    assert PositionOfFingerprint(Fingerprint(LegislativeStages[32])) == 32;
    assert PositionOfFingerprint(Fingerprint(LegislativeStages[33])) == 33;
    assert PositionOfFingerprint(Fingerprint(LegislativeStages[34])) == 34;
    assert PositionOfFingerprint(Fingerprint(LegislativeStages[35])) == 35;
  }

  lemma CataloguePositions9()
    ensures |LegislativeStages| == 38
    ensures forall i :: 36 <= i < 38 ==> PositionOfFingerprint(Fingerprint(LegislativeStages[i])) == i
  {
    assert PositionOfFingerprint(Fingerprint(LegislativeStages[36])) == 36;
    assert PositionOfFingerprint(Fingerprint(LegislativeStages[37])) == 37;
  }

  /** Inverts `Fingerprint` on the catalogue: the position of the stage name with
      fingerprint `f`, or -1 when no catalogue entry has it. */
  function PositionOfFingerprint(f: int): int {
    if f == 46032 then 0
    else if f == 21108 then 1
    else if f == 11122 then 2
    else if f == 21032 then 3
    else if f == 11112 then 4
    else if f == 42067 then 5
    else if f == 29114 then 6
    else if f == 32032 then 7
    else if f == 34032 then 8
    else if f == 28032 then 9
    else if f == 17032 then 10
    else if f == 57032 then 11
    else if f == 14032 then 12
    else if f == 11111 then 13
    else if f == 36121 then 14
    else if f == 28117 then 15
    else if f == 31101 then 16
    else if f == 31073 then 17
    else if f == 34073 then 18
    else if f == 32101 then 19
    else if f == 32073 then 20
    else if f == 35073 then 21
    else if f == 33101 then 22
    else if f == 19101 then 23
    else if f == 52111 then 24
    else if f == 31080 then 25
    else if f == 37322 then 26
    else if f == 39032 then 27
    else if f == 42101 then 28
    else if f == 31114 then 29
    else if f == 28121 then 30
    else if f == 37115 then 31
    else if f == 41105 then 32
    else if f == 20105 then 33
    else if f == 46115 then 34
    else if f == 42100 then 35
    else if f == 34110 then 36
    else if f == 37110 then 37
    else -1
  }

  /** A stage name's length and its tenth letter from the end, packed into one number;
      two names with different fingerprints differ. */
  function Fingerprint(s: string): int {
    if |s| < 10 then |s| else |s| * 1000 + s[|s| - 10] as int
  }
}

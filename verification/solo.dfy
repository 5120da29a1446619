/** Solo practice: find the OODA trainer in the catalog and play it, or
    show nothing if it is missing. */
module Solo {
  import opened Wrappers
  import opened Catalog
  import Player

  /** The position of the first scenario with id `id`, as `Array.find`
      scans. */
  function FirstMatch(cat: seq<Scenario>, id: string): (r: Option<nat>)
    ensures r.Some? ==>
      && r.value < |cat|
      && cat[r.value].id == id
      && (forall j :: 0 <= j < r.value ==> cat[j].id != id)
    ensures r.None? ==> forall j :: 0 <= j < |cat| ==> cat[j].id != id
  {
    if cat == [] then None
    else if cat[0].id == id then Some(0)
    else
      match FirstMatch(cat[1..], id)
      case None => None
      case Some(k) => Some(k + 1)
  }

  /** Lookup by id: the first scenario carrying it, or None when none does. */
  function Find(cat: seq<Scenario>, id: string): (r: Option<Scenario>)
    ensures r.None? <==> forall sc :: sc in cat ==> sc.id != id
    ensures r.Some? ==> r.value in cat && r.value.id == id
    ensures r.Some? ==> exists k :: 0 <= k < |cat| && cat[k] == r.value && forall j :: 0 <= j < k ==> cat[j].id != id
  {
    match FirstMatch(cat, id)
    case None => None
    case Some(k) => Some(cat[k])
  }

  /** With distinct ids, looking up any scenario's id finds that scenario. */
  lemma FindDistinct(cat: seq<Scenario>, k: nat)
    requires DistinctScenarioIds(cat) && k < |cat|
    ensures Find(cat, cat[k].id) == Some(cat[k])
  {
  }

  /** What the solo screen shows: nothing, or the player running a scenario. */
  datatype SoloView = Nothing | Playing(scenario: Scenario, player: Player.PlayerState)

  /** The solo screen looks up the OODA trainer; when it is missing nothing
      is rendered, otherwise the player starts on exactly the scenario found. */
  function SoloScreen(cat: seq<Scenario>): (r: SoloView)
    ensures r.Nothing? <==> forall sc :: sc in cat ==> sc.id != OodaId
    ensures r.Playing? ==>
      && Find(cat, OodaId) == Some(r.scenario)
      && r.scenario.id == OodaId
      && r.player == Player.Start(r.scenario)
  {
    match Find(cat, OodaId)
    case None => Nothing
    case Some(sc) => Playing(sc, Player.Start(sc))
  }

  /** The shipped catalog answers exactly the OODA trainer's id. */
  lemma CatalogLookup(id: string)
    ensures Find(Scenarios, id) == if id == OodaId then Some(OodaTrainer) else None
  {
  }

  /** Solo mode always plays the OODA trainer, starting on its first step in
      a reachable state. */
  lemma SoloPlaysOoda()
    ensures SoloScreen(Scenarios) == Playing(OodaTrainer, Player.Start(OodaTrainer))
    ensures Player.Inv(OodaTrainer, Player.Start(OodaTrainer))
  {
    OodaTrainerWellFormed();
    assert OodaTrainer in Scenarios;
    CatalogLookup(OodaId);
  }
}

/**
 * The application store: the canvas graph (bricks, connections, selection),
 * the simulation state and the two panel flags, with the actions that
 * replace them. Fresh ids come from the caller (an id oracle), standing for
 * `generateId`.
 */
module Store {
  import opened Wrappers
  import opened Seqs
  import opened Bricks
  import opened Scenarios

  /** `Partial<AnyBrick>`: every field optional; a present field overwrites, an absent one keeps. */
  datatype BrickUpdate = BrickUpdate(
    id: Option<string>,
    kind: Option<BrickKind>,
    category: Option<Category>,
    position: Option<Position>,
    inputs: Option<seq<BrickInput>>,
    outputs: Option<seq<BrickOutput>>,
    properties: Option<Properties>)

  /** An update that only replaces the property record, as the property editor sends. */
  function PropertiesUpdate(props: Properties): BrickUpdate
  {
    BrickUpdate(None, None, None, None, None, None, Some(props))
  }

  function Pick<T>(o: Option<T>, keep: T): T
  {
    if o.Some? then o.value else keep
  }

  /** `{ ...brick, ...updates }`: a shallow merge; a property record is replaced whole, never merged key by key. */
  function Merge(b: Brick, u: BrickUpdate): (r: Brick)
    ensures u == BrickUpdate(None, None, None, None, None, None, None) ==> r == b
    ensures u.properties.Some? ==> r.properties == u.properties.value
    ensures u.properties.None? ==> r.properties == b.properties
    ensures KeepsShape(u) ==> r.id == b.id && r.inputs == b.inputs && r.outputs == b.outputs
    ensures u.kind.None? && u.category.None? ==> r.kind == b.kind && r.category == b.category
  {
    Brick(Pick(u.id, b.id), Pick(u.kind, b.kind), Pick(u.category, b.category), Pick(u.position, b.position),
          Pick(u.inputs, b.inputs), Pick(u.outputs, b.outputs), Pick(u.properties, b.properties))
  }

  /** Merging the same update twice is merging it once. */
  lemma MergeIdempotent(b: Brick, u: BrickUpdate)
    ensures Merge(Merge(b, u), u) == Merge(b, u)
  {
  }

  /** An update that changes no identity or port field keeps the brick's place in the graph. */
  predicate KeepsShape(u: BrickUpdate)
  {
    u.id.None? && u.inputs.None? && u.outputs.None?
  }

  // ---------------------------------------------------------------------------
  // The new values the actions compute

  /** `bricks.map(b => b.id === id ? { ...b, ...updates } : b)`. */
  function Updated(bricks: seq<Brick>, id: string, u: BrickUpdate): (r: seq<Brick>)
    ensures |r| == |bricks|
    ensures forall i :: 0 <= i < |bricks| && bricks[i].id != id ==> r[i] == bricks[i]
    ensures forall i :: 0 <= i < |bricks| && bricks[i].id == id ==> r[i] == Merge(bricks[i], u)
  {
    seq(|bricks|, i requires 0 <= i < |bricks| => if bricks[i].id == id then Merge(bricks[i], u) else bricks[i])
  }

  function OtherBrick(id: string): Brick -> bool { (b: Brick) => b.id != id }
  function Untouched(id: string): BrickConnection -> bool { (c: BrickConnection) => !Touches(c, id) }
  function OtherConnection(id: string): BrickConnection -> bool { (c: BrickConnection) => c.id != id }

  /** `bricks.filter(b => b.id !== id)`. */
  function WithoutBrick(bricks: seq<Brick>, id: string): (r: seq<Brick>)
    ensures forall b :: b in r <==> b in bricks && b.id != id
  {
    Filter(bricks, OtherBrick(id))
  }

  /** `connections.filter(c => c.sourceId !== id && c.targetId !== id)`. */
  function WithoutTouching(conns: seq<BrickConnection>, id: string): (r: seq<BrickConnection>)
    ensures forall c :: c in r <==> c in conns && !Touches(c, id)
  {
    Filter(conns, Untouched(id))
  }

  /** `connections.filter(c => c.id !== id)`. */
  function WithoutConnection(conns: seq<BrickConnection>, id: string): (r: seq<BrickConnection>)
    ensures forall c :: c in r <==> c in conns && c.id != id
  {
    Filter(conns, OtherConnection(id))
  }

  /** The selection after deleting `id`: cleared exactly when it was `id`, otherwise kept. */
  function SelectionAfterDelete(selected: Option<string>, id: string): (r: Option<string>)
    ensures r.None? <==> (selected.None? || selected == Some(id))
    ensures r.Some? ==> r == selected
  {
    if selected == Some(id) then None else selected
  }

  // ---------------------------------------------------------------------------
  // The store

  class AppStore {
    var bricks: seq<Brick>
    var connections: seq<BrickConnection>
    var selectedBrickId: Option<string>
    var currentScenario: Option<MarketScenario>
    var simulationResults: seq<SimulationResult>
    var isSimulating: bool
    var showInspector: bool
    var showSimulation: bool

    twostate predicate SameCanvas()
      reads this
    {
      bricks == old(bricks) && connections == old(connections) && selectedBrickId == old(selectedBrickId)
    }

    twostate predicate SameSimulation()
      reads this
    {
      currentScenario == old(currentScenario) && simulationResults == old(simulationResults)
      && isSimulating == old(isSimulating)
    }

    twostate predicate SamePanels()
      reads this
    {
      showInspector == old(showInspector) && showSimulation == old(showSimulation)
    }

    /** The initial state: an empty canvas, nothing simulated, both panels shown. */
    constructor()
      ensures bricks == [] && connections == [] && selectedBrickId == None
      ensures currentScenario == None && simulationResults == [] && !isSimulating
      ensures showInspector && showSimulation
    {
      bricks, connections, selectedBrickId := [], [], None;
      currentScenario, simulationResults, isSimulating := None, [], false;
      showInspector, showSimulation := true, true;
    }

    /** Appends a copy of `brick` carrying the fresh id; every existing brick stays as it was. */
    method AddBrick(brick: Brick, freshId: string)
      modifies this
      ensures bricks == old(bricks) + [brick.(id := freshId)]
      ensures connections == old(connections) && selectedBrickId == old(selectedBrickId)
      ensures SameSimulation() && SamePanels()
    {
      bricks := bricks + [brick.(id := freshId)];
    }

    /** Shallow-merges `updates` into every brick called `id`. */
    method UpdateBrick(id: string, updates: BrickUpdate)
      modifies this
      ensures bricks == Updated(old(bricks), id, updates)
      ensures connections == old(connections) && selectedBrickId == old(selectedBrickId)
      ensures SameSimulation() && SamePanels()
    {
      bricks := Updated(bricks, id, updates);
    }

    /** Removes the bricks called `id`, every connection touching `id`, and the selection if it was `id`. */
    method DeleteBrick(id: string)
      modifies this
      ensures bricks == WithoutBrick(old(bricks), id)
      ensures connections == WithoutTouching(old(connections), id)
      ensures selectedBrickId == SelectionAfterDelete(old(selectedBrickId), id)
      ensures SameSimulation() && SamePanels()
    {
      bricks := WithoutBrick(bricks, id);
      connections := WithoutTouching(connections, id);
      selectedBrickId := SelectionAfterDelete(selectedBrickId, id);
    }

    method SelectBrick(id: Option<string>)
      modifies this
      ensures selectedBrickId == id
      ensures bricks == old(bricks) && connections == old(connections)
      ensures SameSimulation() && SamePanels()
    {
      selectedBrickId := id;
    }

    /** Appends a copy of `connection` carrying the fresh id, with no check of its endpoints, ports or fan-in. */
    method AddConnection(connection: BrickConnection, freshId: string)
      modifies this
      ensures connections == old(connections) + [connection.(id := freshId)]
      ensures bricks == old(bricks) && selectedBrickId == old(selectedBrickId)
      ensures SameSimulation() && SamePanels()
    {
      connections := connections + [connection.(id := freshId)];
    }

    /** Removes every connection called `id`; the bricks are untouched. */
    method RemoveConnection(id: string)
      modifies this
      ensures connections == WithoutConnection(old(connections), id)
      ensures bricks == old(bricks) && selectedBrickId == old(selectedBrickId)
      ensures SameSimulation() && SamePanels()
    {
      connections := WithoutConnection(connections, id);
    }

    method SetCurrentScenario(scenario: MarketScenario)
      modifies this
      ensures currentScenario == Some(scenario)
      ensures simulationResults == old(simulationResults) && isSimulating == old(isSimulating)
      ensures SameCanvas() && SamePanels()
    {
      currentScenario := Some(scenario);
    }

    method SetSimulationResults(results: seq<SimulationResult>)
      modifies this
      ensures simulationResults == results
      ensures currentScenario == old(currentScenario) && isSimulating == old(isSimulating)
      ensures SameCanvas() && SamePanels()
    {
      simulationResults := results;
    }

    method SetIsSimulating(value: bool)
      modifies this
      ensures isSimulating == value
      ensures currentScenario == old(currentScenario) && simulationResults == old(simulationResults)
      ensures SameCanvas() && SamePanels()
    {
      isSimulating := value;
    }

    /** Negates the inspector flag, so toggling twice restores it. */
    method ToggleInspector()
      modifies this
      ensures showInspector == !old(showInspector) && showSimulation == old(showSimulation)
      ensures SameCanvas() && SameSimulation()
    {
      showInspector := !showInspector;
    }

    /** Negates the simulation-panel flag, so toggling twice restores it. */
    method ToggleSimulation()
      modifies this
      ensures showSimulation == !old(showSimulation) && showInspector == old(showInspector)
      ensures SameCanvas() && SameSimulation()
    {
      showSimulation := !showSimulation;
    }

    /** Empties the canvas and the results and clears selection and scenario; `isSimulating` and the panels stay. */
    method ResetCanvas()
      modifies this
      ensures bricks == [] && connections == [] && selectedBrickId == None
      ensures simulationResults == [] && currentScenario == None
      ensures isSimulating == old(isSimulating) && SamePanels()
    {
      bricks, connections, selectedBrickId := [], [], None;
      simulationResults, currentScenario := [], None;
    }
  }
}

/**
 * What the store actions do to the canvas graph: exactly which bricks and
 * connections survive, when an action changes nothing, and which actions
 * keep a well-formed graph well-formed.
 */
module StoreProperties {
  import opened Wrappers
  import opened Seqs
  import opened Bricks
  import opened Store

  // ---------------------------------------------------------------------------
  // Port resolution under the three ways the store rebuilds `bricks`

  lemma OutputPortKept(bricks: seq<Brick>, keep: Brick -> bool, brickId: string, portId: string)
    requires HasOutputPort(bricks, brickId, portId)
    requires forall i :: 0 <= i < |bricks| && bricks[i].id == brickId ==> keep(bricks[i])
    ensures HasOutputPort(Filter(bricks, keep), brickId, portId)
  {
    var r := Filter(bricks, keep);
    var i, k :| 0 <= i < |bricks| && 0 <= k < |bricks[i].outputs| && bricks[i].id == brickId && bricks[i].outputs[k].id == portId;
    var j := FilterIndexOf(bricks, keep, i);
    assert 0 <= k < |r[j].outputs| && r[j].id == brickId && r[j].outputs[k].id == portId;
  }

  lemma InputPortKept(bricks: seq<Brick>, keep: Brick -> bool, brickId: string, portId: string)
    requires HasInputPort(bricks, brickId, portId)
    requires forall i :: 0 <= i < |bricks| && bricks[i].id == brickId ==> keep(bricks[i])
    ensures HasInputPort(Filter(bricks, keep), brickId, portId)
  {
    var r := Filter(bricks, keep);
    var i, k :| 0 <= i < |bricks| && 0 <= k < |bricks[i].inputs| && bricks[i].id == brickId && bricks[i].inputs[k].id == portId;
    var j := FilterIndexOf(bricks, keep, i);
    assert 0 <= k < |r[j].inputs| && r[j].id == brickId && r[j].inputs[k].id == portId;
  }

  /** A connection that resolved before still resolves after an update that keeps ids and ports. */
  lemma ResolvesAfterUpdate(bricks: seq<Brick>, id: string, u: BrickUpdate, c: BrickConnection)
    requires KeepsShape(u) && Resolves(bricks, c)
    ensures Resolves(Updated(bricks, id, u), c)
  {
    var r := Updated(bricks, id, u);
    var i, k :| 0 <= i < |bricks| && 0 <= k < |bricks[i].outputs| && bricks[i].id == c.sourceId && bricks[i].outputs[k].id == c.sourceOutputId;
    assert r[i].id == bricks[i].id && r[i].outputs == bricks[i].outputs;
    var i', k' :| 0 <= i' < |bricks| && 0 <= k' < |bricks[i'].inputs| && bricks[i'].id == c.targetId && bricks[i'].inputs[k'].id == c.targetInputId;
    assert r[i'].id == bricks[i'].id && r[i'].inputs == bricks[i'].inputs;
  }

  /** A connection that resolved before still resolves once a brick is appended. */
  lemma ResolvesAfterAppend(bricks: seq<Brick>, b: Brick, c: BrickConnection)
    requires Resolves(bricks, c)
    ensures Resolves(bricks + [b], c)
  {
    var r := bricks + [b];
    var i, k :| 0 <= i < |bricks| && 0 <= k < |bricks[i].outputs| && bricks[i].id == c.sourceId && bricks[i].outputs[k].id == c.sourceOutputId;
    assert r[i] == bricks[i];
    var i', k' :| 0 <= i' < |bricks| && 0 <= k' < |bricks[i'].inputs| && bricks[i'].id == c.targetId && bricks[i'].inputs[k'].id == c.targetInputId;
    assert r[i'] == bricks[i'];
  }

  // ---------------------------------------------------------------------------
  // addBrick

  /** Adding a brick under an id no brick has keeps a well-formed graph well-formed. */
  lemma AddBrickPreservesGraph(bricks: seq<Brick>, conns: seq<BrickConnection>, brick: Brick, freshId: string)
    requires forall i :: 0 <= i < |bricks| ==> bricks[i].id != freshId
    requires WellFormedGraph(bricks, conns)
    ensures WellFormedGraph(bricks + [brick.(id := freshId)], conns)
  {
    var r := bricks + [brick.(id := freshId)];
    forall i, j | 0 <= i < j < |r| ensures r[i].id != r[j].id {
      assert r[i] == bricks[i];
    }
    forall i | 0 <= i < |conns| ensures Resolves(r, conns[i]) {
      ResolvesAfterAppend(bricks, brick.(id := freshId), conns[i]);
    }
  }

  // ---------------------------------------------------------------------------
  // updateBrick

  /** Updating an id no brick has changes nothing. */
  lemma UpdateAbsentIsNoop(bricks: seq<Brick>, id: string, u: BrickUpdate)
    requires forall i :: 0 <= i < |bricks| ==> bricks[i].id != id
    ensures Updated(bricks, id, u) == bricks
  {
  }

  /** The same update applied twice is applied once. */
  lemma UpdateIdempotent(bricks: seq<Brick>, id: string, u: BrickUpdate)
    ensures Updated(Updated(bricks, id, u), id, u) == Updated(bricks, id, u)
  {
    var once := Updated(bricks, id, u);
    forall i | 0 <= i < |bricks| ensures Updated(once, id, u)[i] == once[i] {
      MergeIdempotent(bricks[i], u);
    }
  }

  /** An update that keeps ids and ports keeps a well-formed graph well-formed. */
  lemma UpdatePreservesGraph(bricks: seq<Brick>, conns: seq<BrickConnection>, id: string, u: BrickUpdate)
    requires KeepsShape(u) && WellFormedGraph(bricks, conns)
    ensures WellFormedGraph(Updated(bricks, id, u), conns)
  {
    var r := Updated(bricks, id, u);
    forall i, j | 0 <= i < j < |r| ensures r[i].id != r[j].id {
      assert r[i].id == bricks[i].id && r[j].id == bricks[j].id;
    }
    forall i | 0 <= i < |conns| ensures Resolves(r, conns[i]) {
      ResolvesAfterUpdate(bricks, id, u, conns[i]);
    }
  }

  /** A property edit replaces the record of exactly the bricks called `id`; their kind, category and ports stay. */
  lemma PropertyEditLands(bricks: seq<Brick>, id: string, props: Properties)
    ensures var r := Updated(bricks, id, PropertiesUpdate(props));
      && |r| == |bricks|
      && forall i :: 0 <= i < |r| ==>
           && r[i].id == bricks[i].id && r[i].kind == bricks[i].kind && r[i].category == bricks[i].category
           && r[i].inputs == bricks[i].inputs && r[i].outputs == bricks[i].outputs
           && r[i].properties == (if bricks[i].id == id then props else bricks[i].properties)
  {
  }

  // ---------------------------------------------------------------------------
  // deleteBrick

  /** deleteBrick drops every brick called `id` and keeps every other brick with its multiplicity. */
  lemma DeleteBrickExact(bricks: seq<Brick>, id: string, b: Brick)
    ensures multiset(WithoutBrick(bricks, id))[b] == if b.id == id then 0 else multiset(bricks)[b]
  {
    FilterCounts(bricks, OtherBrick(id), b);
  }

  /** The cascade: exactly the connections touching `id` go; the others stay, with their multiplicity. */
  lemma DeleteBrickCascade(conns: seq<BrickConnection>, id: string, c: BrickConnection)
    ensures multiset(WithoutTouching(conns, id))[c] == if Touches(c, id) then 0 else multiset(conns)[c]
    ensures forall d :: d in WithoutTouching(conns, id) ==> !Touches(d, id)
  {
    FilterCounts(conns, Untouched(id), c);
  }

  /** Surviving connections keep their relative order. */
  lemma DeleteKeepsOrder(before: seq<BrickConnection>, after: seq<BrickConnection>, id: string)
    ensures WithoutTouching(before + after, id) == WithoutTouching(before, id) + WithoutTouching(after, id)
  {
    FilterAppend(before, after, Untouched(id));
  }

  /** Deleting an id that no brick has and no connection touches changes neither list. */
  lemma DeleteAbsentIsNoop(bricks: seq<Brick>, conns: seq<BrickConnection>, id: string)
    requires forall i :: 0 <= i < |bricks| ==> bricks[i].id != id
    requires forall i :: 0 <= i < |conns| ==> !Touches(conns[i], id)
    ensures WithoutBrick(bricks, id) == bricks && WithoutTouching(conns, id) == conns
  {
    FilterAll(bricks, OtherBrick(id));
    FilterAll(conns, Untouched(id));
  }

  /** deleteBrick keeps a well-formed graph well-formed: no connection is left dangling. */
  lemma DeleteBrickPreservesGraph(bricks: seq<Brick>, conns: seq<BrickConnection>, id: string)
    requires WellFormedGraph(bricks, conns)
    ensures WellFormedGraph(WithoutBrick(bricks, id), WithoutTouching(conns, id))
  {
    var rb, rc := WithoutBrick(bricks, id), WithoutTouching(conns, id);
    FilterPairwise(bricks, OtherBrick(id), (a: Brick, b: Brick) => a.id != b.id);
    FilterPairwise(conns, Untouched(id), (a: BrickConnection, b: BrickConnection) => a.id != b.id);
    FilterPairwise(conns, Untouched(id), (a: BrickConnection, b: BrickConnection) =>
      a.targetId != b.targetId || a.targetInputId != b.targetInputId);
    forall i | 0 <= i < |rc| ensures Resolves(rb, rc[i]) {
      var c := rc[i];
      assert c in conns && !Touches(c, id);
      var m :| 0 <= m < |conns| && conns[m] == c;
      OutputPortKept(bricks, OtherBrick(id), c.sourceId, c.sourceOutputId);
      InputPortKept(bricks, OtherBrick(id), c.targetId, c.targetInputId);
    }
  }

  // ---------------------------------------------------------------------------
  // addConnection and removeConnection

  /** addConnection does not check its endpoints: a connection that does not resolve leaves the graph dangling. */
  lemma AddConnectionUnchecked(bricks: seq<Brick>, conns: seq<BrickConnection>, c: BrickConnection, freshId: string)
    requires !Resolves(bricks, c)
    ensures !EndpointsResolve(bricks, conns + [c.(id := freshId)])
  {
    var r := conns + [c.(id := freshId)];
    assert r[|conns|] == c.(id := freshId);
    assert !Resolves(bricks, r[|conns|]);
  }

  /** addConnection does not check fan-in: a second connection into an occupied input port breaks it. */
  lemma AddConnectionFanInUnchecked(conns: seq<BrickConnection>, c: BrickConnection, freshId: string, i: nat)
    requires i < |conns| && conns[i].targetId == c.targetId && conns[i].targetInputId == c.targetInputId
    ensures !FanInAtMostOne(conns + [c.(id := freshId)])
  {
    var r := conns + [c.(id := freshId)];
    assert r[i] == conns[i] && r[|conns|] == c.(id := freshId);
  }

  /** Adding a connection that resolves, under a new id, into a free input port keeps the graph well-formed. */
  lemma AddConnectionPreservesGraph(bricks: seq<Brick>, conns: seq<BrickConnection>, c: BrickConnection, freshId: string)
    requires WellFormedGraph(bricks, conns) && Resolves(bricks, c)
    requires forall i :: 0 <= i < |conns| ==> conns[i].id != freshId
    requires forall i :: 0 <= i < |conns| ==> conns[i].targetId != c.targetId || conns[i].targetInputId != c.targetInputId
    ensures WellFormedGraph(bricks, conns + [c.(id := freshId)])
  {
    var r := conns + [c.(id := freshId)];
    forall i | 0 <= i < |r| ensures Resolves(bricks, r[i]) {
      if i < |conns| { assert r[i] == conns[i]; }
    }
    forall i, j | 0 <= i < j < |r| ensures r[i].id != r[j].id {
      assert r[i] == conns[i];
    }
    forall i, j | 0 <= i < j < |r| ensures r[i].targetId != r[j].targetId || r[i].targetInputId != r[j].targetInputId {
      assert r[i] == conns[i];
    }
  }

  /** removeConnection drops every connection called `id` and keeps every other one with its multiplicity. */
  lemma RemoveConnectionExact(conns: seq<BrickConnection>, id: string, c: BrickConnection)
    ensures multiset(WithoutConnection(conns, id))[c] == if c.id == id then 0 else multiset(conns)[c]
  {
    FilterCounts(conns, OtherConnection(id), c);
  }

  /** Removing an id no connection has changes nothing. */
  lemma RemoveAbsentIsNoop(conns: seq<BrickConnection>, id: string)
    requires forall i :: 0 <= i < |conns| ==> conns[i].id != id
    ensures WithoutConnection(conns, id) == conns
  {
    FilterAll(conns, OtherConnection(id));
  }

  /** removeConnection keeps a well-formed graph well-formed. */
  lemma RemoveConnectionPreservesGraph(bricks: seq<Brick>, conns: seq<BrickConnection>, id: string)
    requires WellFormedGraph(bricks, conns)
    ensures WellFormedGraph(bricks, WithoutConnection(conns, id))
  {
    var rc := WithoutConnection(conns, id);
    FilterPairwise(conns, OtherConnection(id), (a: BrickConnection, b: BrickConnection) => a.id != b.id);
    FilterPairwise(conns, OtherConnection(id), (a: BrickConnection, b: BrickConnection) =>
      a.targetId != b.targetId || a.targetInputId != b.targetInputId);
    forall i | 0 <= i < |rc| ensures Resolves(bricks, rc[i]) {
      assert rc[i] in conns;
      var m :| 0 <= m < |conns| && conns[m] == rc[i];
    }
  }

  /** The canvas `resetCanvas` leaves is trivially well-formed. */
  lemma ResetIsWellFormed()
    ensures WellFormedGraph([], [])
  {
  }
}

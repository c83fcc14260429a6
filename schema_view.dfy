/**
  The schema view: the height estimate of a card, its fixed width, and how
  the centres computed by the force simulation are turned back into the
  top-left positions of the cards. The simulation itself is a parameter:
  it yields one centre per card, in the order of the cards.
 */
module SchemaView {
  import opened Wrappers
  import opened Geometry
  import SG = SchemaGraph

  // ---------------------------------------------------------------------------
  // Card size
  // ---------------------------------------------------------------------------

  const HeaderHeight: nat := 56
  const FooterHeight: nat := 48
  const FieldRowHeight: nat := 44
  const DividerHeight: nat := 40
  const SmallRowHeight: nat := 32
  const Padding: nat := 20
  const MinHeight: nat := 180
  const MaxHeight: nat := 1200

  /** A divider and one small row each, or nothing for an empty section. */
  function Section(count: nat): nat {
    if count > 0 then DividerHeight + count * SmallRowHeight else 0
  }

  /** The height of the card before it is clamped. */
  function RawHeight(fields: nat, constraints: nat, indexes: nat): nat {
    HeaderHeight + fields * FieldRowHeight + Section(constraints) + Section(indexes) + FooterHeight + Padding
  }

  /** `estimateNodeHeight` from the three counts: the raw height clamped to the card limits. */
  function EstimateHeight(fields: nat, constraints: nat, indexes: nat): (h: nat)
    ensures MinHeight <= h <= MaxHeight
    ensures MinHeight <= RawHeight(fields, constraints, indexes) <= MaxHeight ==> h == RawHeight(fields, constraints, indexes)
    ensures RawHeight(fields, constraints, indexes) < MinHeight ==> h == MinHeight
    ensures RawHeight(fields, constraints, indexes) > MaxHeight ==> h == MaxHeight
  {
    var total := RawHeight(fields, constraints, indexes);
    var atLeast := if total > MinHeight then total else MinHeight;
    if atLeast < MaxHeight then atLeast else MaxHeight
  }

  /** The rows a card shows: fields of a model, values (with the enum's own row) of an enum. */
  function FieldCount(n: SG.SchemaNode): nat {
    match n
    case ModelNode(_, _, _, _, schema, _, _, _, _, _) => |schema|
    case EnumNode(_, _, _, _, enumSchema, _) => |enumSchema|
  }

  /** Enum cards have no model-level constraints. */
  function ConstraintCount(n: SG.SchemaNode): nat {
    if n.ModelNode? then |n.constraints| else 0
  }

  /** Regular and unique indexes together; enum cards have none. */
  function IndexCount(n: SG.SchemaNode): nat {
    if n.ModelNode? then |n.indexes| + |n.uniqueIndexes| else 0
  }

  function NodeHeight(n: SG.SchemaNode): nat {
    EstimateHeight(FieldCount(n), ConstraintCount(n), IndexCount(n))
  }

  /** `getNodeWidth`: every card is as wide as the card container. */
  const NodeWidth: nat := 320

  /** Each count adds height until the maximum is reached: the estimate never shrinks as a count grows. */
  lemma EstimateMonotone(f1: nat, c1: nat, i1: nat, f2: nat, c2: nat, i2: nat)
    requires f1 <= f2 && c1 <= c2 && i1 <= i2
    ensures EstimateHeight(f1, c1, i1) <= EstimateHeight(f2, c2, i2)
  {
    SectionMonotone(c1, c2);
    SectionMonotone(i1, i2);
    assert f1 * FieldRowHeight <= f2 * FieldRowHeight;
  }

  lemma SectionMonotone(a: nat, b: nat)
    requires a <= b
    ensures Section(a) <= Section(b)
  {
    assert a * SmallRowHeight <= b * SmallRowHeight;
  }

  /** A card with at most one row and no constraint or index gets the minimum height. */
  lemma SmallCardIsMinimum(fields: nat)
    requires fields <= 1
    ensures EstimateHeight(fields, 0, 0) == MinHeight
  {
    assert RawHeight(fields, 0, 0) <= 168;
  }

  /** Up to the maximum, one more field row makes the card exactly one row taller. */
  lemma OneMoreField(fields: nat, constraints: nat, indexes: nat)
    requires MinHeight <= RawHeight(fields, constraints, indexes)
    requires RawHeight(fields + 1, constraints, indexes) <= MaxHeight
    ensures EstimateHeight(fields + 1, constraints, indexes) == EstimateHeight(fields, constraints, indexes) + FieldRowHeight
  {
    assert (fields + 1) * FieldRowHeight == fields * FieldRowHeight + FieldRowHeight;
  }

  // ---------------------------------------------------------------------------
  // Positions from the simulation
  // ---------------------------------------------------------------------------

  /** The top-left corner of a card centred at `c`. */
  function Corner(n: SG.SchemaNode, c: Position): (p: Position)
    ensures p.x + (NodeWidth as real) / 2.0 == c.x && p.y + (NodeHeight(n) as real) / 2.0 == c.y
  {
    Position(c.x - (NodeWidth as real) / 2.0, c.y - (NodeHeight(n) as real) / 2.0)
  }

  /**
    `positionMap`: the simulated cards are visited in order, each one setting
    its id to its corner, so a later card with the same id overwrites an
    earlier one.
   */
  function PositionMap(nodes: seq<SG.SchemaNode>, centres: seq<Position>): map<string, Position>
    requires |centres| == |nodes|
  {
    if nodes == [] then map[]
    else
      var k := |nodes| - 1;
      PositionMap(nodes[..k], centres[..k])[nodes[k].id := Corner(nodes[k], centres[k])]
  }

  function Ids(nodes: seq<SG.SchemaNode>): set<string> {
    set k | 0 <= k < |nodes| :: nodes[k].id
  }

  /** The map has an entry for every card's id and no other. */
  lemma {:induction false} PositionMapKeys(nodes: seq<SG.SchemaNode>, centres: seq<Position>)
    requires |centres| == |nodes|
    ensures PositionMap(nodes, centres).Keys == Ids(nodes)
  {
    if nodes != [] {
      var k := |nodes| - 1;
      PositionMapKeys(nodes[..k], centres[..k]);
      assert Ids(nodes) == Ids(nodes[..k]) + {nodes[k].id} by {
        forall id | id in Ids(nodes) ensures id in Ids(nodes[..k]) + {nodes[k].id} {
          var j :| 0 <= j < |nodes| && nodes[j].id == id;
          if j < k { assert nodes[..k][j] == nodes[j]; }
        }
        forall id | id in Ids(nodes[..k]) ensures id in Ids(nodes) {
          var j :| 0 <= j < k && nodes[..k][j].id == id;
          assert nodes[j] == nodes[..k][j];
        }
      }
    }
  }

  /** The entry of an id is the corner of the last card carrying it. */
  lemma {:induction false} PositionMapLast(nodes: seq<SG.SchemaNode>, centres: seq<Position>, k: nat)
    requires |centres| == |nodes| && k < |nodes|
    requires forall j :: k < j < |nodes| ==> nodes[j].id != nodes[k].id
    ensures nodes[k].id in PositionMap(nodes, centres)
    ensures PositionMap(nodes, centres)[nodes[k].id] == Corner(nodes[k], centres[k])
  {
    var last := |nodes| - 1;
    if k < last {
      var p := nodes[..last];
      forall j | k < j < |p| ensures p[j].id != p[k].id {
        assert p[j] == nodes[j];
      }
      PositionMapLast(p, centres[..last], k);
      assert p[k] == nodes[k] && centres[..last][k] == centres[k];
    }
  }

  /**
    `applyForceLayout`: empty input is returned as it is; otherwise each
    card keeps everything but its position, which is looked up by id in the
    map (the card's own position is the fallback of a missing entry).
   */
  function ForceLayout(nodes: seq<SG.SchemaNode>, centres: seq<Position>): seq<SG.SchemaNode>
    requires |centres| == |nodes|
  {
    if |nodes| == 0 then nodes
    else
      var m := PositionMap(nodes, centres);
      seq(|nodes|, k requires 0 <= k < |nodes| =>
        nodes[k].(position := if nodes[k].id in m then m[nodes[k].id] else nodes[k].position))
  }

  predicate DistinctIds(nodes: seq<SG.SchemaNode>) {
    forall i, j :: 0 <= i < j < |nodes| ==> nodes[i].id != nodes[j].id
  }

  /**
    The layout keeps the cards, their order and every field but the
    position; the position of a card whose id is not repeated later is its
    centre moved up and left by half its width and height.
   */
  lemma ForceLayoutShape(nodes: seq<SG.SchemaNode>, centres: seq<Position>)
    requires |centres| == |nodes|
    ensures var r := ForceLayout(nodes, centres);
      |r| == |nodes|
      && (forall k :: 0 <= k < |r| ==> r[k].(position := nodes[k].position) == nodes[k])
      && (forall k :: 0 <= k < |r| && (forall j :: k < j < |nodes| ==> nodes[j].id != nodes[k].id) ==>
            r[k].position == Corner(nodes[k], centres[k]))
  {
    var r := ForceLayout(nodes, centres);
    forall k | 0 <= k < |r| && (forall j :: k < j < |nodes| ==> nodes[j].id != nodes[k].id)
      ensures r[k].position == Corner(nodes[k], centres[k])
    {
      PositionMapLast(nodes, centres, k);
    }
  }

  /** With distinct ids every card sits at its own simulated centre. */
  lemma ForceLayoutDistinct(nodes: seq<SG.SchemaNode>, centres: seq<Position>, k: nat)
    requires |centres| == |nodes| && DistinctIds(nodes) && k < |nodes|
    ensures ForceLayout(nodes, centres)[k].position == Corner(nodes[k], centres[k])
    ensures ForceLayout(nodes, centres)[k].id == nodes[k].id
  {
    ForceLayoutShape(nodes, centres);
  }

  /** The map always has the looked-up id, so the card's own position is never kept. */
  lemma ForceLayoutNoFallback(nodes: seq<SG.SchemaNode>, centres: seq<Position>, k: nat)
    requires |centres| == |nodes| && k < |nodes|
    ensures ForceLayout(nodes, centres)[k].position in PositionMap(nodes, centres).Values
  {
    PositionMapKeys(nodes, centres);
    assert nodes[k].id in Ids(nodes);
  }

  /** The position merge-back as the loop over the simulated cards and then over the cards. */
  method ApplyForceLayout(nodes: seq<SG.SchemaNode>, centres: seq<Position>) returns (r: seq<SG.SchemaNode>)
    requires |centres| == |nodes|
    ensures r == ForceLayout(nodes, centres)
  {
    if |nodes| == 0 {
      return nodes;
    }
    var positionMap: map<string, Position> := map[];
    var i := 0;
    while i < |nodes|
      invariant i <= |nodes|
      invariant positionMap == PositionMap(nodes[..i], centres[..i])
    {
      var n := nodes[i];
      assert nodes[..i + 1][..i] == nodes[..i] && centres[..i + 1][..i] == centres[..i];
      positionMap := positionMap[n.id := Position(centres[i].x - (NodeWidth as real) / 2.0,
                                                  centres[i].y - (NodeHeight(n) as real) / 2.0)];
      i := i + 1;
    }
    assert nodes[..i] == nodes && centres[..i] == centres;
    r := [];
    i := 0;
    while i < |nodes|
      invariant i <= |nodes|
      invariant |r| == i
      invariant forall k :: 0 <= k < i ==> r[k] == ForceLayout(nodes, centres)[k]
    {
      var n := nodes[i];
      var p := if n.id in positionMap then positionMap[n.id] else n.position;
      r := r + [n.(position := p)];
      i := i + 1;
    }
  }

  /** What the schema loader produced: the cards and the edges. */
  datatype SchemaData = SchemaData(nodes: seq<SG.SchemaNode>, edges: seq<SG.SchemaEdge>)

  /**
    `graphData`: nothing before the schema is loaded; afterwards the laid
    out cards with the original edges.
   */
  function GraphData(data: Option<SchemaData>, centres: seq<Position>): (r: SchemaData)
    requires data.Some? ==> |centres| == |data.value.nodes|
    ensures data.None? ==> r == SchemaData([], [])
    ensures data.Some? ==> r.edges == data.value.edges && |r.nodes| == |data.value.nodes|
  {
    match data
    case None => SchemaData([], [])
    case Some(d) =>
      ForceLayoutShape(d.nodes, centres);
      SchemaData(ForceLayout(d.nodes, centres), d.edges)
  }

  /** A data model's cards, laid out, keep the order in which they were created. */
  lemma LayoutOfModel(dm: SG.Datamodel, centres: seq<Position>, k: nat)
    requires |centres| == |SG.Nodes(dm)| && k < |SG.Nodes(dm)|
    ensures ForceLayout(SG.Nodes(dm), centres)[k].id == SG.Nodes(dm)[k].id
    ensures ForceLayout(SG.Nodes(dm), centres)[k].labelText == SG.Nodes(dm)[k].labelText
  {
    ForceLayoutShape(SG.Nodes(dm), centres);
  }
}

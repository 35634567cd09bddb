/**
 * The list operations of the ER-diagram editor: deleting a model together with its
 * relationships, adding a fresh entity, connecting two entities, and turning relationships
 * into diagram edges. Each handler computes new arrays and hands them to its parent.
 */
module ERDiagram {
  import opened Wrappers
  import opened Text
  import opened DomainModel
  import Lists

  /** The models left after deleting `modelId`. */
  function ModelsAfterDelete(models: seq<DomainModel>, modelId: string): seq<DomainModel>
  {
    Lists.Filter(models, (m: DomainModel) => m.id != modelId)
  }

  /** Whether a relationship has `modelId` at either end. */
  predicate Touches(r: ModelRelationship, modelId: string)
  {
    r.sourceModel == modelId || r.targetModel == modelId
  }

  /** The relationships left after deleting `modelId`: those touching it are dropped. */
  function RelationshipsAfterDelete(rels: seq<ModelRelationship>, modelId: string): seq<ModelRelationship>
  {
    Lists.Filter(rels, (r: ModelRelationship) => !Touches(r, modelId))
  }

  /**
   * Deleting removes exactly the models with that id and exactly the relationships that
   * touch it; everything else survives.
   */
  lemma DeleteRemovesExactly(models: seq<DomainModel>, rels: seq<ModelRelationship>, modelId: string)
    ensures forall m :: m in ModelsAfterDelete(models, modelId) <==> m in models && m.id != modelId
    ensures forall r :: r in RelationshipsAfterDelete(rels, modelId) <==> r in rels && !Touches(r, modelId)
  {
  }

  /** The survivors keep their order: deletion distributes over any split of the lists. */
  lemma DeleteKeepsOrder(m1: seq<DomainModel>, m2: seq<DomainModel>,
                         r1: seq<ModelRelationship>, r2: seq<ModelRelationship>, modelId: string)
    ensures ModelsAfterDelete(m1 + m2, modelId) == ModelsAfterDelete(m1, modelId) + ModelsAfterDelete(m2, modelId)
    ensures RelationshipsAfterDelete(r1 + r2, modelId)
              == RelationshipsAfterDelete(r1, modelId) + RelationshipsAfterDelete(r2, modelId)
  {
    Lists.FilterConcat(m1, m2, (m: DomainModel) => m.id != modelId);
    Lists.FilterConcat(r1, r2, (r: ModelRelationship) => !Touches(r, modelId));
  }

  /** Deleting a model that nothing refers to changes nothing. */
  lemma DeleteUnknownIsNoop(models: seq<DomainModel>, rels: seq<ModelRelationship>, modelId: string)
    requires forall m :: m in models ==> m.id != modelId
    requires forall r :: r in rels ==> !Touches(r, modelId)
    ensures ModelsAfterDelete(models, modelId) == models
    ensures RelationshipsAfterDelete(rels, modelId) == rels
  {
    Lists.FilterAll(models, (m: DomainModel) => m.id != modelId);
    Lists.FilterAll(rels, (r: ModelRelationship) => !Touches(r, modelId));
  }

  /** A diagram edge: the fields the model decides (id, endpoints, and `caption`, the edge's label). */
  datatype Edge = Edge(id: string, source: string, target: string, caption: string)

  function EdgeOf(r: ModelRelationship): Edge
  {
    Edge(r.id, r.sourceModel, r.targetModel, RelationshipTypeName(r.relType))
  }

  /** `relationships.map(rel => edge)`. */
  function Edges(rels: seq<ModelRelationship>): (r: seq<Edge>)
    ensures |r| == |rels|
    ensures forall i :: 0 <= i < |rels| ==> r[i] == EdgeOf(rels[i])
  {
    if rels == [] then [] else [EdgeOf(rels[0])] + Edges(rels[1..])
  }

  /** Every edge keeps its relationship's id and endpoints and is labelled with the type's name; distinct types get distinct labels. */
  lemma {:induction false} EdgesMirrorRelationships(rels: seq<ModelRelationship>, i: nat, j: nat)
    requires i < |rels| && j < |rels|
    ensures Edges(rels)[i].id == rels[i].id
    ensures Edges(rels)[i].source == rels[i].sourceModel && Edges(rels)[i].target == rels[i].targetModel
    ensures Edges(rels)[i].caption == Edges(rels)[j].caption <==> rels[i].relType == rels[j].relType
  {
    var a := rels[i].relType;
    var b := rels[j].relType;
    if a != b {
      assert RelationshipTypeName(a) != RelationshipTypeName(b) by {
        LabelsDiffer(a, b);
      }
    }
  }

  lemma LabelsDiffer(a: RelationshipType, b: RelationshipType)
    requires a != b
    ensures RelationshipTypeName(a) != RelationshipTypeName(b)
  {
    var x := RelationshipTypeName(a);
    var y := RelationshipTypeName(b);
    assert |x| != |y| || x[5] != y[5] || x[0] != y[0];
  }

  /** After a deletion no edge has the deleted model at either end. */
  lemma {:induction false} NoEdgeToDeletedModel(rels: seq<ModelRelationship>, modelId: string)
    ensures forall e :: e in Edges(RelationshipsAfterDelete(rels, modelId)) ==> e.source != modelId && e.target != modelId
  {
    var kept := RelationshipsAfterDelete(rels, modelId);
    forall e | e in Edges(kept) ensures e.source != modelId && e.target != modelId {
      var i :| 0 <= i < |kept| && Edges(kept)[i] == e;
      assert kept[i] in kept;
    }
  }

  /** The entity `handleAddModel` creates when `n` models exist, at clock time `now`. */
  function NewModel(n: nat, now: nat): (m: DomainModel)
    ensures m.name == "Entity" + NatToString(n + 1)
    ensures |m.fields| == 1 && m.fields[0].name == "id" && m.fields[0].fieldType == "string"
    ensures m.fields[0].required && m.fields[0].primaryKey == Some(true)
    ensures m.relationships == [] && m.businessRules == []
  {
    var field := ModelField("field_" + NatToString(now), "id", "string", true, Some(true), None, Some("Primary Key"));
    DomainModel("model_" + NatToString(now), "Entity" + NatToString(n + 1), "新しいエンティティ", [field], [], [],
                Some(Position(100, 100)))
  }

  /** `handleAddModel`: the list with one new entity appended. */
  function AddModel(models: seq<DomainModel>, now: nat): (r: seq<DomainModel>)
    ensures |r| == |models| + 1 && r[..|models|] == models
    ensures r[|models|] == NewModel(|models|, now)
  {
    models + [NewModel(|models|, now)]
  }

  /** Two additions in a row name their entities differently (`Entity{n+1}`, then `Entity{n+2}`). */
  lemma AddTwiceNamesDiffer(models: seq<DomainModel>, t1: nat, t2: nat)
    ensures var once := AddModel(models, t1);
            var twice := AddModel(once, t2);
            twice[|models|].name != twice[|models| + 1].name
  {
    var once := AddModel(models, t1);
    var twice := AddModel(once, t2);
    assert twice[|models|] == once[|models|];
    var a := NatToString(|models| + 1);
    var b := NatToString(|models| + 2);
    if "Entity" + a == "Entity" + b {
      assert a == ("Entity" + a)[6..] == ("Entity" + b)[6..] == b;
      NatToStringRoundTrip(|models| + 1);
      NatToStringRoundTrip(|models| + 2);
      assert false;
    }
  }

  /** The relationship `onConnect` creates from `source` to `target` at clock time `now`. */
  function NewRelationship(source: string, target: string, now: nat): (r: ModelRelationship)
    ensures r.relType == OneToMany && r.sourceModel == source && r.targetModel == target
    ensures r.sourceField == "id" && r.targetField == source + "_id"
  {
    ModelRelationship("rel_" + NatToString(now), OneToMany, source, target, "id", source + "_id", None,
                      Some("Auto-generated relationship"))
  }

  /**
   * `onConnect`: with both endpoints present (non-null, non-empty) one relationship is
   * appended; otherwise the list is unchanged.
   */
  function Connect(rels: seq<ModelRelationship>, source: Option<string>, target: Option<string>, now: nat)
    : (r: seq<ModelRelationship>)
    ensures source.None? || target.None? ==> r == rels
    ensures source == Some("") || target == Some("") ==> r == rels
    ensures source.Some? && target.Some? && source.value != "" && target.value != "" ==>
              r == rels + [NewRelationship(source.value, target.value, now)]
    ensures |r| <= |rels| + 1 && rels <= r
  {
    match (source, target)
    case (Some(s), Some(t)) => if s != "" && t != "" then rels + [NewRelationship(s, t, now)] else rels
    case _ => rels
  }

  /** A connection adds exactly one edge, at the end, labelled `one-to-many`. */
  lemma {:induction false} ConnectAddsOneEdge(rels: seq<ModelRelationship>, source: string, target: string, now: nat)
    requires source != "" && target != ""
    ensures Edges(Connect(rels, Some(source), Some(target), now))
              == Edges(rels) + [Edge("rel_" + NatToString(now), source, target, "one-to-many")]
  {
    var r := Connect(rels, Some(source), Some(target), now);
    assert |Edges(r)| == |rels| + 1;
    forall i | 0 <= i < |rels| ensures Edges(r)[i] == Edges(rels)[i] {
      assert r[i] == rels[i];
    }
  }
}

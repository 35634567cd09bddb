/**
 * The domain-model types the model editors share: entities with fields, relationships
 * between entities, and business rules.
 */
module DomainModel {
  import opened Wrappers

  datatype RelationshipType = OneToOne | OneToMany | ManyToOne | ManyToMany

  /** The relationship type's wire name. */
  function RelationshipTypeName(t: RelationshipType): (r: string)
    ensures r in {"one-to-one", "one-to-many", "many-to-one", "many-to-many"}
  {
    match t
    case OneToOne => "one-to-one"
    case OneToMany => "one-to-many"
    case ManyToOne => "many-to-one"
    case ManyToMany => "many-to-many"
  }

  /** A field; `fieldType` is one of the `FieldType` names (`string`, `number`, …) or, when parsed from text, any word. */
  datatype ModelField = ModelField(
    id: string,
    name: string,
    fieldType: string,
    required: bool,
    primaryKey: Option<bool>,
    unique: Option<bool>,
    description: Option<string>)

  datatype ModelRelationship = ModelRelationship(
    id: string,
    relType: RelationshipType,
    sourceModel: string,
    targetModel: string,
    sourceField: string,
    targetField: string,
    cascade: Option<bool>,
    description: Option<string>)

  datatype Priority = Low | Medium | High

  datatype BusinessRule = BusinessRule(id: string, name: string, description: string, condition: string,
                                       action: string, priority: Priority)

  datatype Position = Position(x: int, y: int)

  datatype DomainModel = DomainModel(
    id: string,
    name: string,
    description: string,
    fields: seq<ModelField>,
    relationships: seq<ModelRelationship>,
    businessRules: seq<BusinessRule>,
    position: Option<Position>)
}

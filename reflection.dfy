/**
 * What the bundle reads through PHP reflection and Doctrine class metadata,
 * as an explicit table: for each entity class, its properties in declaration
 * order, its public methods, and its Doctrine field and association mappings.
 */
module Reflection {

  /** Doctrine field mapping of a column: its type name and nullability. */
  datatype FieldMapping = FieldMapping(fieldType: string, nullable: bool)

  /** Doctrine association mapping: the type bitmask and the target entity class. */
  datatype AssociationMapping = AssociationMapping(assocType: bv8, targetEntity: string)

  datatype ClassInfo = ClassInfo(
    properties: seq<string>,
    publicMethods: set<string>,
    fields: map<string, FieldMapping>,
    associations: map<string, AssociationMapping>)

  /** Class name to class description; a name missing here makes `new ReflectionClass` throw. */
  type Schema = map<string, ClassInfo>
}

/**
 * The concept-key record the fakers import: a clinical concept's numeric id
 * (always present) and its optional short and fully specified names.
 */
module Faker {
  import opened Wrappers

  datatype ConceptKeys = ConceptKeys(
    conceptId: int,
    shortName: Option<string>,
    fullySpecifiedName: Option<string>)
}

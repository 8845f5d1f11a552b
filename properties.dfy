/**
 * The five properties (projects) the `customer_enquiry` views know by code,
 * with their display names.
 */
module Properties {

  /** `PROPERTY_MAPPING` and the per-view copies of its names. */
  const PropertyNames: map<string, string> := map[
    "Alt" := "Altavista",
    "Orn" := "Ornata",
    "Med" := "Medius",
    "Star" := "Spenta Stardeous",
    "Ant" := "Spenta Anthea"]

  /** The codes the OTP login accepts, in the order the view lists them. */
  const ValidPropertyCodes: seq<string> := ["Alt", "Orn", "Med", "Star", "Ant"]

  /**
   * `property_mapping.get(code, code)`: the display name of a known code,
   * the code itself otherwise.
   */
  function PropertyName(code: string): (name: string)
    ensures code in PropertyNames ==> name == PropertyNames[code]
    ensures code !in PropertyNames ==> name == code
  {
    if code in PropertyNames then PropertyNames[code] else code
  }

  /** The login accepts exactly the codes that have a display name. */
  lemma ValidCodesAreNamed()
    ensures forall c :: c in ValidPropertyCodes <==> c in PropertyNames
  {
  }

  /** A name differs from its code exactly when the code is known: no name is itself a code. */
  lemma NameDiffersIffKnown(code: string)
    ensures PropertyName(code) != code <==> code in PropertyNames
  {
  }
}

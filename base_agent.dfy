/** What every agent inherits from its base class: the required-field check. Logging, the
    agent's only other effect, is not modelled. */
module BaseAgent {

  /** `validate_input`: walks the required fields in order and stops at the first one that is
      not a key of the input. Only presence is checked, never the value. */
  function ValidateInput(keys: set<string>, requiredFields: seq<string>): (ok: bool)
    ensures ok <==> forall i :: 0 <= i < |requiredFields| ==> requiredFields[i] in keys
  {
    if requiredFields == [] then true
    else if requiredFields[0] !in keys then false
    else ValidateInput(keys, requiredFields[1..])
  }

  /** With nothing required, every input passes. */
  lemma NothingRequiredAlwaysValid(keys: set<string>)
    ensures ValidateInput(keys, [])
  {
  }
}

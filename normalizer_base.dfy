/** `ABCNormalizer` (core/NormalizerBase.py): the input shape every adapter accepts. */
module NormalizerBase {
  import opened Wrappers
  import opened Values
  import Normalize

  /** `ABCNormalizer.normalize_input`: a dict becomes a one-element list, a list of dicts (the
      empty list included) comes back as it is, and anything else raises ValueError. */
  function NormalizeInput(v: Value): (r: Result<Value>)
    ensures r.Ok? ==> r.value.PyList? && AllDicts(r.value.items)
    ensures v.PyDict? ==> r == Ok(PyList([v]))
    ensures v.PyList? && AllDicts(v.items) ==> r == Ok(v)
    ensures !v.PyDict? && !(v.PyList? && AllDicts(v.items)) ==> r == Err(ValueError)
  {
    if v.PyDict? then Ok(PyList([v]))
    else if v.PyList? && AllDicts(v.items) then Ok(v)
    else Err(ValueError)
  }

  /** The same shaping as `Normalization.normalize_list`, except that the failure is a
      ValueError rather than a NormalizationError; normalising twice is normalising once. */
  lemma AgreesWithNormalizeList(v: Value)
    ensures NormalizeInput(v).Ok? <==> Normalize.NormalizeList(v).Ok?
    ensures NormalizeInput(v).Ok? ==> NormalizeInput(v).value == Normalize.NormalizeList(v).value
    ensures NormalizeInput(v).Err? ==> NormalizeInput(v).error == ValueError &&
                                       Normalize.NormalizeList(v).error == NormalizationError
    ensures NormalizeInput(v).Ok? ==> NormalizeInput(NormalizeInput(v).value) == NormalizeInput(v)
  {
  }
}

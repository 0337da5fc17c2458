/**
 * resolve_label of the backend: a stored label may arrive as a label name
 * or as a numeric code, and is turned into the label name using an
 * id -> name mapping (the INV_* maps, key/value swaps of the schema's
 * label maps).
 */
module LabelConverter {
  import opened Wrappers
  import LabelMaps

  /** The Python values resolve_label distinguishes; a bool is an int in Python. */
  datatype PyValue = PyNone | PyStr(s: string) | PyInt(i: int) | PyBool(b: bool) | PyOther

  datatype ConvertError = InvalidLabel | InvalidCode | UnexpectedType

  /** int(True) == 1 and int(False) == 0, and a bool looks a dict key up as that int. */
  function AsInt(v: PyValue): int
    requires v.PyInt? || v.PyBool?
  {
    if v.PyInt? then v.i else if v.b then 1 else 0
  }

  /**
   * None stays None; a string passes only if it is one of the mapping's
   * names; an int (or bool) must be one of its codes; anything else is a
   * type error.
   */
  function ResolveLabel(value: PyValue, mapping: map<int, string>): (r: Result<Option<string>, ConvertError>)
    ensures r.Ok? && r.value.Some? ==> r.value.value in mapping.Values
  {
    match value
    case PyNone => Ok(None)
    case PyStr(s) => if s in mapping.Values then Ok(Some(s)) else Err(InvalidLabel)
    case PyInt(_) | PyBool(_) =>
      var n := AsInt(value);
      if n in mapping then Ok(Some(mapping[n])) else Err(InvalidCode)
    case PyOther => Err(UnexpectedType)
  }

  /** Every outcome, by the type of the value, in both directions. */
  lemma ResolveLabelCases(value: PyValue, mapping: map<int, string>)
    ensures ResolveLabel(value, mapping) == Ok(None) <==> value.PyNone?
    ensures value.PyStr? ==>
      (ResolveLabel(value, mapping) == Ok(Some(value.s)) <==> value.s in mapping.Values)
    ensures value.PyStr? ==>
      (ResolveLabel(value, mapping) == Err(InvalidLabel) <==> value.s !in mapping.Values)
    ensures (value.PyInt? || value.PyBool?) && AsInt(value) in mapping ==>
      ResolveLabel(value, mapping) == Ok(Some(mapping[AsInt(value)]))
    ensures (value.PyInt? || value.PyBool?) ==>
      (ResolveLabel(value, mapping) == Err(InvalidCode) <==> AsInt(value) !in mapping)
    ensures ResolveLabel(value, mapping) == Err(UnexpectedType) <==> value.PyOther?
  {
  }

  /** True resolves exactly like the code 1, and False like 0. */
  lemma BoolResolvesAsInt(b: bool, mapping: map<int, string>)
    ensures ResolveLabel(PyBool(b), mapping) == ResolveLabel(PyInt(if b then 1 else 0), mapping)
  {
  }

  /** Whatever a value resolves to, the name resolves to itself: resolving twice is resolving once. */
  lemma ResolveIdempotent(value: PyValue, mapping: map<int, string>)
    requires ResolveLabel(value, mapping).Ok? && ResolveLabel(value, mapping).value.Some?
    ensures var s := ResolveLabel(value, mapping).value.value;
      ResolveLabel(PyStr(s), mapping) == Ok(Some(s))
  {
  }

  /**
   * INV_URGENCY_LABEL_MAP and INV_DEPARTMENT_LABEL_MAP swap a label dict
   * written as a one-to-one literal of codes to names. The id the INV_* map
   * gives a name resolves back to that name, and a code's name goes back to
   * that code.
   */
  lemma ResolveInverseCode(labels: LabelMaps.Pairs<int, string>, name: string, code: int)
    requires LabelMaps.OneToOne(labels)
    ensures name in LabelMaps.Inverse(labels) ==>
      ResolveLabel(PyInt(LabelMaps.Inverse(labels)[name]), LabelMaps.ToMap(labels)) == Ok(Some(name))
    ensures code in LabelMaps.ToMap(labels) ==>
      && ResolveLabel(PyInt(code), LabelMaps.ToMap(labels)).Ok?
      && var n := ResolveLabel(PyInt(code), LabelMaps.ToMap(labels)).value.value;
         n in LabelMaps.Inverse(labels) && LabelMaps.Inverse(labels)[n] == code
  {
    LabelMaps.InverseInverts(labels);
  }
}

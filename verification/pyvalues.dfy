/** The dynamically typed values the remote clients hand back, as far as the
    service inspects them: strings, and other objects known only by their
    type name and truthiness. */
module PyValues {
  import opened Errors
  import opened Text

  /** One byte of an upload or of synthesised audio. */
  newtype Byte = x: int | 0 <= x < 256

  datatype PyValue = PyStr(s: string) | PyObject(typeName: string, truthy: bool)

  /** `d.get(key, default)`. */
  function DictGet(d: map<string, PyValue>, key: string, default: PyValue): (v: PyValue)
    ensures key in d ==> v == d[key]
    ensures key !in d ==> v == default
  {
    if key in d then d[key] else default
  }

  /** `bool(v)`: a string is true when non-empty. */
  predicate Truthy(v: PyValue) {
    match v
    case PyStr(s) => s != []
    case PyObject(_, t) => t
  }

  /** The shared tail of the ASR and chat adapters:
      `if not text or not text.strip(): raise empty; return text.strip()`.
      A false value raises `empty`; a true value that is not a string has no
      `strip` method and raises `AttributeError`. */
  function StripReplyText(v: PyValue, empty: Exc): (r: Result<string>)
    ensures r.Ok? <==> v.PyStr? && !IsBlank(v.s)
    ensures r.Ok? ==> r.value == Strip(v.s) && r.value != [] && HasNoOuterSpace(r.value)
    ensures !Truthy(v) || (v.PyStr? && IsBlank(v.s)) ==> r == Raise(empty)
    ensures v.PyObject? && v.truthy ==> r.Raise? && r.exc.kind == AttributeError
  {
    match v
    case PyObject(t, truthy) =>
      if truthy then Raise(Exc(AttributeError, "'" + t + "' object has no attribute 'strip'")) else Raise(empty)
    case PyStr(s) =>
      var t := Strip(s);
      StripHasNoOuterSpace(s);
      if t == [] then Raise(empty) else Ok(t)
  }
}

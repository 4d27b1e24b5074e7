/** Python values as the JSON decoder produces them, Python exceptions, and the
    few dynamically typed operations the flash-card pipeline applies to them. */
module Values {

  import opened Wrappers

  /** A decoded JSON document as Python holds it: `null` is `None`, an object is a
      dict whose fields are kept in document order. Numbers are kept as integers. */
  datatype Value =
    | Null
    | Bool(b: bool)
    | Num(n: int)
    | Str(s: string)
    | List(items: seq<Value>)
    | Dict(fields: seq<(string, Value)>)

  /** The exceptions the modelled code can raise or let through. */
  datatype Error =
    | GenerationError(attempts: int)   // the retry wrapper gave up after this many attempts
    | ServiceError                     // the generation client raised and nothing caught it
    | KeyError(key: string)
    | TypeError
    | AttributeError
    | ValueError
    | FileNotFound(path: string)

  /** The result of a Python call: a returned value or a raised exception. */
  datatype Outcome<+T> = Done(value: T) | Raised(error: Error)

  /** The value bound to `key` among the first `upto` fields, searching backwards. */
  function LookupBelow(fields: seq<(string, Value)>, key: string, upto: nat): Option<Value>
    requires upto <= |fields|
  {
    if upto == 0 then None
    else if fields[upto - 1].0 == key then Some(fields[upto - 1].1)
    else LookupBelow(fields, key, upto - 1)
  }

  /** The value bound to `key`; when the key occurs more than once the last binding
      wins, as it does for `json.loads`. */
  function Lookup(fields: seq<(string, Value)>, key: string): Option<Value> {
    LookupBelow(fields, key, |fields|)
  }

  /** The search among the first `upto` fields finds nothing exactly when no field
      there has the key, and otherwise finds the value of the last field that has it. */
  lemma {:induction false} LookupBelowBinding(fields: seq<(string, Value)>, key: string, upto: nat)
    requires upto <= |fields|
    ensures var r := LookupBelow(fields, key, upto);
            && (r.None? <==> forall i :: 0 <= i < upto ==> fields[i].0 != key)
            && (r.Some? ==> exists i :: 0 <= i < upto && fields[i] == (key, r.value)
                                        && forall j :: i < j < upto ==> fields[j].0 != key)
    decreases upto
  {
    if upto > 0 && fields[upto - 1].0 != key {
      LookupBelowBinding(fields, key, upto - 1);
      var r := LookupBelow(fields, key, upto - 1);
      if r.Some? {
        var i :| 0 <= i < upto - 1 && fields[i] == (key, r.value)
                 && forall j :: i < j < upto - 1 ==> fields[j].0 != key;
        assert forall j :: i < j < upto ==> fields[j].0 != key;
      }
    }
  }

  /** A dict lookup finds nothing exactly when no field has the key, and otherwise
      finds the value of the last field that has it. */
  lemma LookupBinding(fields: seq<(string, Value)>, key: string)
    ensures var r := Lookup(fields, key);
            && (r.None? <==> forall i :: 0 <= i < |fields| ==> fields[i].0 != key)
            && (r.Some? ==> exists i :: 0 <= i < |fields| && fields[i] == (key, r.value)
                                        && forall j :: i < j < |fields| ==> fields[j].0 != key)
  {
    LookupBelowBinding(fields, key, |fields|);
  }

  predicate HasKey(v: Value, key: string) {
    v.Dict? && Lookup(v.fields, key).Some?
  }

  /** Python's `v[key]` for a string key. */
  function Subscript(v: Value, key: string): (r: Outcome<Value>)
    ensures r.Done? <==> HasKey(v, key)
    ensures r.Done? ==> Lookup(v.fields, key) == Some(r.value)
    ensures r.Raised? ==> r.error == (if v.Dict? then KeyError(key) else TypeError)
  {
    match v
    case Dict(fields) =>
      (match Lookup(fields, key)
       case Some(x) => Done(x)
       case None => Raised(KeyError(key)))
    case _ => Raised(TypeError)
  }

  /** Python's `v.get(key, default)`, which exists only on dicts. */
  function Get(v: Value, key: string, default: Value): (r: Outcome<Value>)
    ensures r.Done? <==> v.Dict?
    ensures HasKey(v, key) ==> r == Done(Lookup(v.fields, key).value)
    ensures v.Dict? && !HasKey(v, key) ==> r == Done(default)
  {
    match v
    case Dict(fields) => Done(Lookup(fields, key).GetOr(default))
    case _ => Raised(AttributeError)
  }

  /** What a Python `for` loop visits in `v`: a list's items, a dict's keys, a
      string's characters; other values are not iterable. */
  function Elements(v: Value): (r: Outcome<seq<Value>>)
    ensures r.Raised? <==> !(v.List? || v.Dict? || v.Str?)
    ensures v.List? ==> r == Done(v.items)
    ensures r.Done? && !v.List? ==> forall k :: 0 <= k < |r.value| ==> r.value[k].Str?
    ensures r.Done? && !v.List? ==> (|r.value| == 0 <==> (v.Dict? && v.fields == []) || (v.Str? && v.s == ""))
  {
    match v
    case List(items) => Done(items)
    case Dict(fields) => Done(seq(|fields|, i requires 0 <= i < |fields| => Str(fields[i].0)))
    case Str(s) => Done(seq(|s|, i requires 0 <= i < |s| => Str([s[i]])))
    case _ => Raised(TypeError)
  }

  /** Python's `json.loads(v)` given the decoder `parse`: a string is decoded (None
      standing for `JSONDecodeError`), anything else raises `TypeError`. */
  function Decode(parse: string -> Option<Value>, v: Value): (r: Outcome<Option<Value>>)
    ensures r.Done? <==> v.Str?
    ensures v.Str? ==> r.value == parse(v.s)
  {
    match v
    case Str(s) => Done(parse(s))
    case _ => Raised(TypeError)
  }

  /** The generation client's text content as a Python value: `None` when the
      wrapper returned nothing. */
  function AsValue(content: Option<string>): (r: Value)
    ensures r.Str? <==> content.Some?
    ensures r.Str? ==> r.s == content.value
    ensures content.None? ==> r == Null
  {
    match content
    case Some(s) => Str(s)
    case None => Null
  }
}

/**
 * The Python values that flow through the HTTP client service: keyword
 * arguments, credentials, header dictionaries, and the errors the service
 * raises or lets Python raise.
 */
module PyValues {

  datatype Option<+T> = None | Some(value: T)

  datatype Result<+R, +E> = Success(value: R) | Failure(error: E)

  /** A Python value as far as the service inspects it. */
  datatype Value =
    | NoneValue                         // None
    | Str(s: string)                    // a str
    | Tuple(items: seq<Value>)          // a tuple, e.g. a (user, password) basic-auth pair
    | List(items: seq<Value>)           // a list, e.g. a treq header value
    | Dict(entries: map<string, Value>) // a dict with string keys
    | Opaque(name: string)              // any other object: a custom auth, a callback
    | Ref(obj: object)                  // an object of this model handed over by identity (the treq agent)

  /** Keyword arguments of a call, as Python collects them with `**kwargs`. */
  type Kwargs = map<string, Value>

  /** The exceptions the service raises or lets Python raise. */
  datatype Error =
    | AttributeError(attribute: string) // an attribute or method missing on a value or on the service
    | ImportError(message: string)      // no usable HTTP backend at start-up

  /** `kwargs.get(key, default)` */
  function GetOr(kwargs: Kwargs, key: string, default: Value): Value
  {
    if key in kwargs then kwargs[key] else default
  }

  /** `s` holds `part` starting at index `i`. */
  ghost predicate OccursAt(part: string, s: string, i: nat)
  {
    i + |part| <= |s| && s[i..i + |part|] == part
  }

  /** `part in s` for Python strings. */
  ghost predicate Contains(s: string, part: string)
  {
    exists i: nat :: OccursAt(part, s, i)
  }

  /** A string ending with `part` contains it. */
  lemma ContainsSuffix(prefix: string, part: string)
    ensures Contains(prefix + part, part)
  {
    var s := prefix + part;
    assert s[|prefix|..|prefix| + |part|] == part;
    assert OccursAt(part, s, |prefix|);
  }

  /** Appending text keeps every occurrence. */
  lemma ContainsAppend(s: string, t: string, part: string)
    requires Contains(s, part)
    ensures Contains(s + t, part)
  {
    var i: nat :| OccursAt(part, s, i);
    assert (s + t)[i..i + |part|] == s[i..i + |part|];
    assert OccursAt(part, s + t, i);
  }
}

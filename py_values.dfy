/** Python values as the news pipeline sees them: dictionary entries, the
    exceptions its handlers catch, and the Option/Result wrappers used to
    model the exception paths. */
module PyValues {

  datatype Option<+T> = None | Some(value: T) {
    function GetOr(default: T): T {
      match this
      case Some(v) => v
      case None => default
    }
  }

  /** The Python exceptions raised on the paths the model follows. */
  datatype Exception =
    | ValueError(message: string)
    | KeyError(key: string)
    | TypeError
    | AttributeError
    | RuntimeError
    | RequestFailed

  datatype Result<+T> = Ok(value: T) | Err(error: Exception)

  /** A value stored in a dictionary entry, a store metadata field or a
      provider's JSON item: a string, a list of strings, or None / null. */
  datatype Value = Str(s: string) | StrList(items: seq<string>) | Null {
    /** Python truthiness of the value. */
    predicate Truthy() {
      match this
      case Str(s) => s != ""
      case StrList(items) => items != []
      case Null => false
    }
  }

  type Dict = map<string, Value>

  /** `xs[key]` for a list `xs` and a str `key`: a list index must be an
      integer, so Python raises TypeError whatever the list holds. */
  function ListItemByKey<T>(xs: seq<T>, key: string): Result<T> {
    Err(TypeError)
  }

  /** `d.get(key, default)` */
  function Get(d: Dict, key: string, default: Value): (v: Value)
    ensures key in d ==> v == d[key]
    ensures key !in d ==> v == default
  {
    if key in d then d[key] else default
  }

  /** Two sequence identities, stated once for every element type so that
      proofs about sequences of large values do not re-derive them. */
  lemma ConsTail<T>(xs: seq<T>)
    requires xs != []
    ensures xs == [xs[0]] + xs[1..]
  {
  }

  lemma AppendAssoc<T>(a: seq<T>, b: seq<T>, c: seq<T>)
    ensures a + b + c == a + (b + c)
  {
  }
}

/**
 * The Python values that the containers, the joiners and `iter_flatten`
 * inspect: strings, lists (and tuples), the two list wrappers of the
 * grammar package, None, and non-iterable things such as numbers.
 */
module PyValues {

  datatype Value =
    | Str(s: string)
      /** A list or a tuple. */
    | List(items: seq<Value>)
      /** An instance of `WordList` (a `UserList`). */
    | WordListObject(items: seq<Value>)
      /** An instance of `SentencesAsWordLists` (a `UserList`). */
    | SentencesObject(items: seq<Value>)
    | NoneValue
    | Int(n: int)

  /** What `hasattr(x, "lower")` tests for. */
  predicate IsStringLike(v: Value) {
    v.Str?
  }

  /** `isinstance(x, collections.Iterable)`. */
  predicate IsIterable(v: Value) {
    v.Str? || v.List? || v.WordListObject? || v.SentencesObject?
  }

  /** Python truthiness. */
  predicate Truthy(v: Value) {
    match v
    case Str(s) => s != ""
    case List(items) => items != []
    case WordListObject(items) => items != []
    case SentencesObject(items) => items != []
    case NoneValue => false
    case Int(n) => n != 0
  }

  /** One-character strings, which is what iterating over a string yields. */
  function Chars(s: string): (r: seq<Value>)
    ensures |r| == |s| && forall i :: 0 <= i < |s| ==> r[i] == Str([s[i]])
  {
    seq(|s|, i requires 0 <= i < |s| => Str([s[i]]))
  }

  /** What `for x in v` visits, for an iterable `v`. */
  function Elements(v: Value): seq<Value>
    requires IsIterable(v)
  {
    if v.Str? then Chars(v.s) else v.items
  }

  /** Plain `unicode` strings as values. */
  function Strs(ws: seq<string>): (r: seq<Value>)
    ensures |r| == |ws| && forall i :: 0 <= i < |ws| ==> r[i] == Str(ws[i])
  {
    seq(|ws|, i requires 0 <= i < |ws| => Str(ws[i]))
  }
}

/**
 * `presswork/text/grammar/containers.py`: `SentencesAsWordLists` and
 * `WordList`, thin list wrappers that check only their first element.
 */
module Containers {
  import opened Wrappers
  import opened PyValues

  /** The list `UserList(v)` copies: the items of a list or of another
      `UserList`, the characters of a string, nothing for None; anything
      else is not iterable. */
  function UserListData(v: Value): (r: Result<seq<Value>>)
    ensures r.Failure? <==> v.Int?
    ensures r.Failure? ==> r.error == TypeError
  {
    match v
    case Str(s) => Success(Chars(s))
    case List(items) => Success(items)
    case WordListObject(items) => Success(items)
    case SentencesObject(items) => Success(items)
    case NoneValue => Success([])
    case Int(_) => Failure(TypeError)
  }

  /** `SentencesAsWordLists(v)`: rejected when its first element looks like a string. */
  function NewSentencesAsWordLists(v: Value): (r: Result<Value>)
    ensures r.Success? ==> r.value.SentencesObject?
    ensures v.Str? && v.s != "" ==> r == Failure(ValueError)
    ensures (v.List? || v.WordListObject? || v.SentencesObject?)
         ==> (r.Failure? <==> v.items != [] && IsStringLike(v.items[0]))
  {
    var data :- UserListData(v);
    if data != [] && IsStringLike(data[0]) then Failure(ValueError) else Success(SentencesObject(data))
  }

  /** `WordList(v)`: rejected when its first element does not look like a string. */
  function NewWordList(v: Value): (r: Result<Value>)
    ensures r.Success? ==> r.value.WordListObject?
    ensures (v.List? || v.WordListObject? || v.SentencesObject?)
         ==> (r.Failure? <==> v.items != [] && !IsStringLike(v.items[0]))
  {
    var data :- UserListData(v);
    if data != [] && !IsStringLike(data[0]) then Failure(ValueError) else Success(WordListObject(data))
  }

  /** `SentencesAsWordLists.ensure(v)`: an instance is returned as it is,
      anything else is wrapped (and so checked). */
  function Ensure(v: Value): (r: Result<Value>)
    ensures r.Success? ==> r.value.SentencesObject?
    ensures v.SentencesObject? ==> r == Success(v)
  {
    if v.SentencesObject? then Success(v) else NewSentencesAsWordLists(v)
  }

  /** Ensuring twice is ensuring once. */
  lemma EnsureIdempotent(v: Value)
    requires Ensure(v).Success?
    ensures Ensure(Ensure(v).value) == Ensure(v)
  {
  }

  /** Both wrappers have `unwrap`; plain lists and strings do not. */
  predicate HasUnwrap(v: Value) {
    v.WordListObject? || v.SentencesObject?
  }

  /** The body of `SentencesAsWordLists.unwrap()` for its items: each item
      unwrapped when every item has `unwrap` (the first one that lacks it
      raises AttributeError and the items are copied as they are). */
  function UnwrapItems(xs: seq<Value>): seq<Value>
    decreases xs, 1
  {
    if forall i :: 0 <= i < |xs| ==> HasUnwrap(xs[i]) then UnwrapEach(xs) else xs
  }

  function UnwrapEach(xs: seq<Value>): seq<Value>
    decreases xs, 0
  {
    if xs == [] then []
    else
      var head := match xs[0]
        case WordListObject(items) => List(items)
        case SentencesObject(items) => List(UnwrapItems(items))
        case other => other;
      [head] + UnwrapEach(xs[1..])
  }

  /** `WordList.unwrap()` gives its list and `SentencesAsWordLists.unwrap()` its items unwrapped. */
  function Unwrap(v: Value): Value
    requires HasUnwrap(v)
  {
    if v.WordListObject? then List(v.items) else List(UnwrapItems(v.items))
  }

  /** Values as Python's `==` sees them: a `UserList` compares equal to the
      plain list of its items. */
  function PlainItems(xs: seq<Value>): seq<Value>
    decreases xs
  {
    if xs == [] then []
    else
      var head := match xs[0]
        case List(items) => List(PlainItems(items))
        case WordListObject(items) => List(PlainItems(items))
        case SentencesObject(items) => List(PlainItems(items))
        case other => other;
      [head] + PlainItems(xs[1..])
  }

  /** Python equality of two values. */
  predicate PyEquals(a: Value, b: Value) {
    PlainItems([a]) == PlainItems([b])
  }

  lemma {:induction false} UnwrapItemsEqual(xs: seq<Value>)
    ensures PlainItems(UnwrapItems(xs)) == PlainItems(xs)
    decreases xs, 1
  {
    if forall i :: 0 <= i < |xs| ==> HasUnwrap(xs[i]) {
      UnwrapEachEqual(xs);
    }
  }

  lemma {:induction false} UnwrapEachEqual(xs: seq<Value>)
    ensures PlainItems(UnwrapEach(xs)) == PlainItems(xs)
    decreases xs, 0
  {
    if xs != [] {
      UnwrapEachEqual(xs[1..]);
      match xs[0]
      case SentencesObject(items) => UnwrapItemsEqual(items);
      case _ =>
    }
  }

  /** `unwrap()` returns something equal to the wrapper it came from, so
      wrapping a list of lists and unwrapping it gives an equal list back. */
  lemma UnwrapEqualsWrapped(v: Value)
    requires HasUnwrap(v)
    ensures PyEquals(Unwrap(v), v)
  {
    UnwrapItemsEqual(v.items);
  }

  /** A list of lists of strings passes the check, and the wrapped value
      equals the list it wraps. */
  lemma SentencesOfWordsAccepted(sentences: seq<seq<string>>)
    ensures var v := List(seq(|sentences|, i requires 0 <= i < |sentences| => List(Strs(sentences[i]))));
      NewSentencesAsWordLists(v).Success? && PyEquals(NewSentencesAsWordLists(v).value, v)
  {
  }

  /** A non-empty string, or a flat list of strings, is refused. */
  lemma FlatListRejected(words: seq<string>)
    requires words != []
    ensures NewSentencesAsWordLists(List(Strs(words))) == Failure(ValueError)
  {
  }
}

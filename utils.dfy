/** `presswork/utils.py`: flattening nested lists of strings. */
module Utils {
  import opened Wrappers
  import opened PyValues
  import opened PyStr

  /** An element that `iter_flatten` yields as it is rather than descending into. */
  predicate IsLeaf(v: Value) {
    !IsIterable(v) || v.Str?
  }

  /** The leaves of a list of elements, left to right, descending into every
      iterable that is not a string. */
  function Leaves(xs: seq<Value>): (r: seq<Value>)
    ensures forall i :: 0 <= i < |r| ==> IsLeaf(r[i])
    decreases xs, 1
  {
    if xs == [] then [] else Expanded(xs[0]) + Leaves(xs[1..])
  }

  /** One element's leaves: the element itself when it is a leaf. */
  function Expanded(v: Value): (r: seq<Value>)
    ensures forall i :: 0 <= i < |r| ==> IsLeaf(r[i])
    decreases v, 0
  {
    match v
    case List(items) => Leaves(items)
    case WordListObject(items) => Leaves(items)
    case SentencesObject(items) => Leaves(items)
    case _ => [v]
  }

  /** `list(iter_flatten(v))`: a string is rejected with ValueError, and
      iterating over something that is not iterable raises TypeError. */
  function IterFlatten(v: Value): (r: Result<seq<Value>>)
    ensures v.Str? ==> r == Failure(ValueError)
    ensures !IsIterable(v) ==> r == Failure(TypeError)
    ensures IsIterable(v) && !v.Str? ==> r.Success? && forall i :: 0 <= i < |r.value| ==> IsLeaf(r.value[i])
  {
    if v.Str? then Failure(ValueError)
    else if !IsIterable(v) then Failure(TypeError)
    else Success(Leaves(v.items))
  }

  /** Flattening distributes over concatenation, so the leaves keep their order. */
  lemma {:induction false} LeavesAppend(xs: seq<Value>, ys: seq<Value>)
    ensures Leaves(xs + ys) == Leaves(xs) + Leaves(ys)
  {
    if xs == [] {
      assert xs + ys == ys;
    } else {
      var zs := xs + ys;
      assert zs[0] == xs[0] && zs[1..] == xs[1..] + ys;
      LeavesAppend(xs[1..], ys);
      SeqConcatAssoc(Expanded(xs[0]), Leaves(xs[1..]), Leaves(ys));
    }
  }

  /** A list that holds only leaves is already flat. */
  lemma {:induction false} LeavesOfFlat(xs: seq<Value>)
    requires forall i :: 0 <= i < |xs| ==> IsLeaf(xs[i])
    ensures Leaves(xs) == xs
  {
    if xs != [] {
      LeavesOfFlat(xs[1..]);
    }
  }

  /** Flattening the result of a flattening changes nothing. */
  lemma IterFlattenIdempotent(v: Value)
    requires IterFlatten(v).Success?
    ensures IterFlatten(List(IterFlatten(v).value)) == IterFlatten(v)
  {
    LeavesOfFlat(IterFlatten(v).value);
  }

  /** A list of sentences, each a list of words, flattens to all the words in order. */
  lemma {:induction false} FlattenSentences(sentences: seq<seq<string>>)
    ensures Leaves(seq(|sentences|, i requires 0 <= i < |sentences| => List(Strs(sentences[i]))))
         == Strs(ConcatWords(sentences))
  {
    var vs := seq(|sentences|, i requires 0 <= i < |sentences| => List(Strs(sentences[i])));
    if sentences != [] {
      var rest := seq(|sentences| - 1, i requires 0 <= i < |sentences| - 1 => List(Strs(sentences[1..][i])));
      assert vs[1..] == rest;
      LeavesOfFlat(Strs(sentences[0]));
      FlattenSentences(sentences[1..]);
      StrsAppend(sentences[0], ConcatWords(sentences[1..]));
    }
  }

  function ConcatWords(sentences: seq<seq<string>>): seq<string> {
    if sentences == [] then [] else sentences[0] + ConcatWords(sentences[1..])
  }

  lemma StrsAppend(a: seq<string>, b: seq<string>)
    ensures Strs(a + b) == Strs(a) + Strs(b)
  {
  }
}

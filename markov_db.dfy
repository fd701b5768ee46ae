/**
 * The probability database of `presswork/text/markov/thirdparty/_pymarkovchain.py`
 * (shared, line for line, by the three NLTK-based copies): a map from each
 * word tuple to its `{next_word: weight}` map, filled with counts whose
 * missing entries start at 1.0, then normalised key by key.
 */
module MarkovDb {
  import opened Wrappers
  import opened PyStr

  /** `SPECIAL_TOKEN`: the empty word, which starts and ends sentences. */
  const SpecialToken: string := ""

  /** `(SPECIAL_TOKEN,)`: the tuple every sentence is seeded with. */
  const Special: seq<string> := [SpecialToken]

  /** A `{next_word: weight}` map, as (candidate, weight) pairs in the
      order the candidates were added. */
  type Weights = seq<(string, real)>

  /** `{word_tuple: {next_word: weight}}`. */
  type Db = map<seq<string>, Weights>

  /** One increment: a word tuple and the word counted after it. */
  type Observation = (seq<string>, string)

  function WeightOf(ws: Weights, w: string): Option<real> {
    if ws == [] then None else if ws[0].0 == w then Some(ws[0].1) else WeightOf(ws[1..], w)
  }

  function Candidates(ws: Weights): set<string> {
    if ws == [] then {} else {ws[0].0} + Candidates(ws[1..])
  }

  /** `db[k]` on the `defaultdict`: a missing tuple reads as an empty map. */
  function Entry(db: Db, k: seq<string>): Weights {
    if k in db then db[k] else []
  }

  /** `self.db[(SPECIAL_TOKEN,)]` on the `defaultdict`, which inserts an
      empty map when the special tuple is missing. */
  function Touch(db: Db): Db {
    if Special in db then db else db[Special := []]
  }

  /** The weight of `w` after `k`, if there is one. */
  function Weight(db: Db, k: seq<string>, w: string): Option<real> {
    if k in db then WeightOf(db[k], w) else None
  }

  /** `probmap[w] += 1` on a map whose missing entries default to 1.0. */
  function AddOne(ws: Weights, w: string): Weights {
    if ws == [] then [(w, 1.0 + 1.0)]
    else if ws[0].0 == w then [(w, ws[0].1 + 1.0)] + ws[1..]
    else [ws[0]] + AddOne(ws[1..], w)
  }

  /** `probmap[w] = v`. */
  function SetWeight(ws: Weights, w: string, v: real): Weights {
    if ws == [] then [(w, v)]
    else if ws[0].0 == w then [(w, v)] + ws[1..]
    else [ws[0]] + SetWeight(ws[1..], w, v)
  }

  /** `db[k][w] += 1`. */
  function Increment(db: Db, o: Observation): Db {
    db[o.0 := AddOne(Entry(db, o.0), o.1)]
  }

  /** The increments made one after the other. */
  function Count(db: Db, obs: seq<Observation>): Db
    decreases |obs|
  {
    if obs == [] then db else Increment(Count(db, obs[..|obs| - 1]), obs[|obs| - 1])
  }

  /** `db[(SPECIAL_TOKEN,)][SPECIAL_TOKEN] = 0.0`. */
  function Initialized(db: Db): Db {
    db[Special := SetWeight(Entry(db, Special), SpecialToken, 0.0)]
  }

  /** `word_seq[len(word_seq) - order:len(word_seq)]` with Python's slice
      rules. */
  function EndKey(ws: seq<string>, order: int): seq<string> {
    PySlice(ws, |ws| - order, |ws|)
  }

  /** The number of tuples of `order` words that have a word after them. */
  function Inner(len: nat, order: nat): nat {
    if len > order then len - order else 0
  }

  /** The increments for one order: each `order` words and the word after
      them, then the end key and the end token. */
  function OrderObservations(ws: seq<string>, order: nat): (r: seq<Observation>)
    ensures |r| == Inner(|ws|, order) + 1
    ensures r[|r| - 1] == (EndKey(ws, order), SpecialToken)
    ensures forall i :: 0 <= i < Inner(|ws|, order) ==> r[i] == (ws[i..i + order], ws[i + order])
  {
    seq(Inner(|ws|, order), i requires 0 <= i < Inner(|ws|, order) => (ws[i..i + order], ws[i + order]))
      + [(EndKey(ws, order), SpecialToken)]
  }

  /** The increments for orders 1 to `k`. */
  function Orders(ws: seq<string>, k: nat): seq<Observation> {
    if k == 0 then [] else Orders(ws, k - 1) + OrderObservations(ws, k)
  }

  /** `range(1, window + 1)` has this many orders. */
  function OrderCount(window: int): nat {
    if window < 0 then 0 else window
  }

  /** A non-empty sentence's increments: its first word after the special
      tuple, then every order from 1 to the window. */
  function SentenceObservations(ws: seq<string>, window: int): seq<Observation>
    requires ws != []
  {
    [(Special, ws[0])] + Orders(ws, OrderCount(window))
  }

  /** Every sentence's increments; empty sentences are skipped. */
  function Observations(sentences: seq<seq<string>>, window: int): seq<Observation>
    decreases |sentences|
  {
    if sentences == [] then []
    else
      var last := sentences[|sentences| - 1];
      Observations(sentences[..|sentences| - 1], window) + (if last == [] then [] else SentenceObservations(last, window))
  }

  function Sum(ws: Weights): real
    decreases |ws|
  {
    if ws == [] then 0.0 else Sum(ws[..|ws| - 1]) + ws[|ws| - 1].1
  }

  /** Every weight divided by `d`. */
  function Scaled(ws: Weights, d: real): (r: Weights)
    requires d != 0.0
    ensures |r| == |ws| && forall i :: 0 <= i < |ws| ==> r[i] == (ws[i].0, ws[i].1 / d)
  {
    seq(|ws|, i requires 0 <= i < |ws| => (ws[i].0, ws[i].1 / d))
  }

  /** A key's weights divided by their sum, unless the sum is zero. */
  function Normalized(ws: Weights): Weights {
    if Sum(ws) == 0.0 then ws else Scaled(ws, Sum(ws))
  }

  function Normalize(db: Db): Db {
    map k | k in db :: Normalized(db[k])
  }

  /** `database_init(sentences)` as a value. */
  function Trained(db: Db, sentences: seq<seq<string>>, window: int): Db {
    Normalize(Count(Initialized(db), Observations(sentences, window)))
  }

  // ---------------------------------------------------------------------
  // The loops of `database_init`

  /** One order of one sentence: `for i in range(len(word_seq) - 1)`, then
      the end key. */
  method CountOrder(db: Db, ws: seq<string>, order: nat) returns (db': Db)
    requires order >= 1
    ensures db' == Count(db, OrderObservations(ws, order))
  {
    ghost var inner := Inner(|ws|, order);
    db' := db;
    var i := 0;
    while i < |ws| - 1
      invariant 0 <= i && (i <= |ws| - 1 || i == 0)
      invariant db' == Count(db, OrderObservations(ws, order)[..if i < inner then i else inner])
    {
      if i + order >= |ws| {
        i := i + 1;
        continue;
      }
      var word := ws[i..i + order];
      InnerStep(db, ws, order, i);
      db' := db'[word := AddOne(Entry(db', word), ws[i + order])];
      i := i + 1;
    }
    var key := PySlice(ws, |ws| - order, |ws|);
    EndStep(db, ws, order);
    db' := db'[key := AddOne(Entry(db', key), SpecialToken)];
  }

  /** Counting the `i`-th tuple of an order. */
  lemma InnerStep(db: Db, ws: seq<string>, order: nat, i: nat)
    requires i < Inner(|ws|, order)
    ensures Count(db, OrderObservations(ws, order)[..i + 1])
         == Increment(Count(db, OrderObservations(ws, order)[..i]), (ws[i..i + order], ws[i + order]))
  {
    CountStep(db, OrderObservations(ws, order), i);
  }

  /** Counting the end key completes an order. */
  lemma EndStep(db: Db, ws: seq<string>, order: nat)
    ensures Count(db, OrderObservations(ws, order))
         == Increment(Count(db, OrderObservations(ws, order)[..Inner(|ws|, order)]), (EndKey(ws, order), SpecialToken))
  {
    var obs := OrderObservations(ws, order);
    CountStep(db, obs, Inner(|ws|, order));
    assert obs[..Inner(|ws|, order) + 1] == obs;
  }

  lemma CountStep(db: Db, obs: seq<Observation>, i: nat)
    requires i < |obs|
    ensures Count(db, obs[..i + 1]) == Increment(Count(db, obs[..i]), obs[i])
  {
    assert obs[..i + 1][..i] == obs[..i];
  }

  lemma {:induction false} CountAppend(db: Db, a: seq<Observation>, b: seq<Observation>)
    ensures Count(db, a + b) == Count(Count(db, a), b)
    decreases |b|
  {
    if b == [] {
      assert a + b == a;
    } else {
      assert (a + b)[..|a + b| - 1] == a + b[..|b| - 1];
      CountAppend(db, a, b[..|b| - 1]);
    }
  }

  /** The counting of one non-empty sentence. */
  method CountSentence(db: Db, ws: seq<string>, window: int) returns (db': Db)
    requires ws != []
    ensures db' == Count(db, SentenceObservations(ws, window))
  {
    db' := db[Special := AddOne(Entry(db, Special), ws[0])];
    assert db' == Count(db, [(Special, ws[0])]) by {
      assert [(Special, ws[0])][..0] == [];
    }
    var order := 1;
    while order <= window
      invariant 1 <= order && order - 1 <= OrderCount(window)
      invariant db' == Count(db, [(Special, ws[0])] + Orders(ws, order - 1))
    {
      db' := CountOrder(db', ws, order);
      CountNextOrder(db, [(Special, ws[0])], ws, order);
      order := order + 1;
    }
    assert order - 1 == OrderCount(window);
    assert SentenceObservations(ws, window) == [(Special, ws[0])] + Orders(ws, order - 1);
  }

  lemma CountNextOrder(db: Db, first: seq<Observation>, ws: seq<string>, order: nat)
    requires order >= 1
    ensures Count(db, first + Orders(ws, order)) == Count(Count(db, first + Orders(ws, order - 1)), OrderObservations(ws, order))
  {
    CountAppend(db, first + Orders(ws, order - 1), OrderObservations(ws, order));
    SeqConcatAssoc(first, Orders(ws, order - 1), OrderObservations(ws, order));
  }

  /** The sum loop and the in-place division of one key's weights. */
  method NormalizeWeights(ws: Weights) returns (ws': Weights)
    ensures ws' == Normalized(ws)
  {
    var wordsum := 0.0;
    var i := 0;
    while i < |ws|
      invariant 0 <= i <= |ws| && wordsum == Sum(ws[..i])
    {
      assert ws[..i + 1][..i] == ws[..i];
      wordsum := wordsum + ws[i].1;
      i := i + 1;
    }
    assert ws[..|ws|] == ws;
    ws' := ws;
    if wordsum != 0.0 {
      var j := 0;
      while j < |ws|
        invariant 0 <= j <= |ws| && |ws'| == |ws|
        invariant forall k :: 0 <= k < j ==> ws'[k] == (ws[k].0, ws[k].1 / wordsum)
        invariant forall k :: j <= k < |ws| ==> ws'[k] == ws[k]
      {
        ws' := ws'[j := (ws'[j].0, ws'[j].1 / wordsum)];
        j := j + 1;
      }
      assert ws' == Scaled(ws, wordsum);
    }
  }

  /** `for word in self.db: ...`: every key normalised, in any order. */
  method NormalizeDb(db: Db) returns (db': Db)
    ensures db' == Normalize(db)
  {
    db' := db;
    var todo := db.Keys;
    while todo != {}
      invariant todo <= db.Keys && db'.Keys == db.Keys
      invariant forall k :: k in db ==> db'[k] == if k in todo then db[k] else Normalized(db[k])
      decreases |todo|
    {
      var k :| k in todo;
      var ws := NormalizeWeights(db'[k]);
      db' := db'[k := ws];
      todo := todo - {k};
    }
    assert db'.Keys == Normalize(db).Keys;
  }

  /** `database_init(sentences_as_word_lists)` on the database `db`. */
  method Train(db: Db, sentences: seq<seq<string>>, window: int) returns (db': Db)
    ensures db' == Trained(db, sentences, window)
  {
    db' := db[Special := SetWeight(Entry(db, Special), SpecialToken, 0.0)];
    var s := 0;
    while s < |sentences|
      invariant 0 <= s <= |sentences|
      invariant db' == Count(Initialized(db), Observations(sentences[..s], window))
    {
      ghost var before := Observations(sentences[..s], window);
      assert sentences[..s + 1][..s] == sentences[..s];
      if |sentences[s]| == 0 {
        assert Observations(sentences[..s + 1], window) == before + [];
        assert before + [] == before;
        s := s + 1;
        continue;
      }
      db' := CountSentence(db', sentences[s], window);
      CountAppend(Initialized(db), before, SentenceObservations(sentences[s], window));
      s := s + 1;
    }
    assert sentences[..|sentences|] == sentences;
    db' := NormalizeDb(db');
  }

  // ---------------------------------------------------------------------
  // What the database holds

  /** The number of times an increment was made. */
  function Occurrences(obs: seq<Observation>, k: seq<string>, w: string): nat
    decreases |obs|
  {
    if obs == [] then 0
    else Occurrences(obs[..|obs| - 1], k, w) + (if obs[|obs| - 1] == (k, w) then 1 else 0)
  }

  /** The weight a count starts from: the stored one, else the 1.0 default. */
  function BaseWeight(db: Db, k: seq<string>, w: string): real {
    match Weight(db, k, w)
    case Some(x) => x
    case None => 1.0
  }

  lemma {:induction false} AddOneWeight(ws: Weights, w: string, v: string)
    ensures WeightOf(AddOne(ws, w), v) == if v == w then Some((match WeightOf(ws, w) case Some(x) => x case None => 1.0) + 1.0) else WeightOf(ws, v)
    decreases |ws|
  {
    if ws != [] && ws[0].0 != w {
      AddOneWeight(ws[1..], w, v);
    }
  }

  lemma {:induction false} SetWeightWeight(ws: Weights, w: string, x: real, v: string)
    ensures WeightOf(SetWeight(ws, w, x), v) == if v == w then Some(x) else WeightOf(ws, v)
    decreases |ws|
  {
    if ws != [] && ws[0].0 != w {
      SetWeightWeight(ws[1..], w, x, v);
    }
  }

  /** A missing entry starts at 1.0, so the first increment stores 2.0 and
      every later one adds 1: after counting, an entry that was counted c
      times holds its old weight (or 1.0) plus c, and every other entry is
      as it was. */
  lemma {:induction false} CountWeights(db: Db, obs: seq<Observation>, k: seq<string>, w: string)
    ensures Weight(Count(db, obs), k, w)
      == if Occurrences(obs, k, w) == 0 then Weight(db, k, w)
         else Some(BaseWeight(db, k, w) + Occurrences(obs, k, w) as real)
    decreases |obs|
  {
    if obs != [] {
      var init := obs[..|obs| - 1];
      var o := obs[|obs| - 1];
      CountWeights(db, init, k, w);
      AddOneWeight(Entry(Count(db, init), o.0), o.1, w);
    }
  }

  /** The first count of an entry that did not exist stores 2.0. */
  lemma FirstIncrementStoresTwo(db: Db, k: seq<string>, w: string)
    requires Weight(db, k, w).None?
    ensures Weight(Increment(db, (k, w)), k, w) == Some(2.0)
  {
    AddOneWeight(Entry(db, k), w, w);
  }

  /** Initialisation sets the end token's weight after the special tuple
      to 0.0 and leaves every other entry as it was. */
  lemma InitializedWeights(db: Db, k: seq<string>, w: string)
    ensures Weight(Initialized(db), k, w) == if k == Special && w == SpecialToken then Some(0.0) else Weight(db, k, w)
  {
    SetWeightWeight(Entry(db, Special), SpecialToken, 0.0, w);
  }

  /** Counting from a fresh database: the end token after the special tuple
      weighs 0.0 plus its count, and every other entry that was counted c
      times weighs 1.0 plus c; nothing else has a weight. */
  lemma FreshCounts(obs: seq<Observation>, k: seq<string>, w: string)
    ensures Weight(Count(Initialized(map[]), obs), k, w)
      == if k == Special && w == SpecialToken then Some(Occurrences(obs, k, w) as real)
         else if Occurrences(obs, k, w) == 0 then None
         else Some(1.0 + Occurrences(obs, k, w) as real)
  {
    CountWeights(Initialized(map[]), obs, k, w);
    InitializedWeights(map[], k, w);
  }

  /** The end key: the last `order` words while there are that many; for
      a longer order Python's slice wraps the negative start once, giving
      the last `order - len` words; from twice the length on, the start is
      clamped and the key is the whole sentence. */
  lemma EndKeyCases(ws: seq<string>, order: int)
    requires ws != [] && order >= 1
    ensures order <= |ws| ==> EndKey(ws, order) == ws[|ws| - order..]
    ensures |ws| < order < 2 * |ws| ==> EndKey(ws, order) == ws[2 * |ws| - order..]
    ensures order >= 2 * |ws| ==> EndKey(ws, order) == ws
  {
    assert order >= 2 * |ws| ==> ws[0..|ws|] == ws;
  }

  lemma {:induction false} SumScaled(ws: Weights, d: real)
    requires d != 0.0
    ensures Sum(Scaled(ws, d)) == Sum(ws) / d
    decreases |ws|
  {
    if ws != [] {
      var init := ws[..|ws| - 1];
      SumScaled(init, d);
      assert Scaled(ws, d)[..|ws| - 1] == Scaled(init, d);
    }
  }

  lemma {:induction false} WeightOfScaled(ws: Weights, d: real, w: string)
    requires d != 0.0
    ensures WeightOf(Scaled(ws, d), w) == match WeightOf(ws, w) case Some(x) => Some(x / d) case None => None
    ensures Candidates(Scaled(ws, d)) == Candidates(ws)
    decreases |ws|
  {
    if ws != [] {
      assert Scaled(ws, d)[1..] == Scaled(ws[1..], d);
      WeightOfScaled(ws[1..], d, w);
    }
  }

  /** After normalisation a key whose weights have a non-zero sum holds
      each weight divided by that sum, and the new weights sum to 1; a key
      with a zero sum is left unchanged; no key and no candidate is added
      or removed. */
  lemma NormalizeWeightsSumToOne(db: Db, k: seq<string>, w: string)
    requires k in db
    ensures Normalize(db).Keys == db.Keys
    ensures Candidates(Normalize(db)[k]) == Candidates(db[k])
    ensures Sum(db[k]) != 0.0 ==> Sum(Normalize(db)[k]) == 1.0
    ensures Sum(db[k]) != 0.0 ==>
      Weight(Normalize(db), k, w) == match Weight(db, k, w) case Some(x) => Some(x / Sum(db[k])) case None => None
    ensures Sum(db[k]) == 0.0 ==> Normalize(db)[k] == db[k]
  {
    var ws := db[k];
    if Sum(ws) != 0.0 {
      SumScaled(ws, Sum(ws));
      WeightOfScaled(ws, Sum(ws), w);
      assert Normalize(db)[k] == Scaled(ws, Sum(ws));
      assert Sum(ws) / Sum(ws) == 1.0;
    }
  }

  // ---------------------------------------------------------------------
  // Where the candidates come from

  lemma {:induction false} AddOneCandidates(ws: Weights, w: string)
    ensures Candidates(AddOne(ws, w)) == Candidates(ws) + {w}
    decreases |ws|
  {
    if ws != [] && ws[0].0 != w {
      AddOneCandidates(ws[1..], w);
      assert AddOne(ws, w)[1..] == AddOne(ws[1..], w);
    } else if ws != [] {
      assert AddOne(ws, w)[1..] == ws[1..];
    }
  }

  lemma {:induction false} SetWeightCandidates(ws: Weights, w: string, x: real)
    ensures Candidates(SetWeight(ws, w, x)) == Candidates(ws) + {w}
    decreases |ws|
  {
    if ws != [] && ws[0].0 != w {
      SetWeightCandidates(ws[1..], w, x);
      assert SetWeight(ws, w, x)[1..] == SetWeight(ws[1..], w, x);
    } else if ws != [] {
      assert SetWeight(ws, w, x)[1..] == ws[1..];
    }
  }

  /** A word counted after some tuple. */
  predicate Counted(obs: seq<Observation>, c: string) {
    exists i :: 0 <= i < |obs| && obs[i].1 == c
  }

  /** Every candidate after counting was a candidate before or was counted. */
  lemma {:induction false} CountCandidates(db: Db, obs: seq<Observation>, k: seq<string>, c: string)
    requires k in Count(db, obs) && c in Candidates(Count(db, obs)[k])
    ensures c in Candidates(Entry(db, k)) || Counted(obs, c)
    decreases |obs|
  {
    if obs != [] {
      var init := obs[..|obs| - 1];
      var o := obs[|obs| - 1];
      var m := Count(db, init);
      if o.0 == k {
        AddOneCandidates(Entry(m, k), o.1);
      }
      if c == o.1 && o.0 == k {
        assert obs[|obs| - 1].1 == c;
      } else {
        assert k in m && c in Candidates(m[k]);
        CountCandidates(db, init, k, c);
        if Counted(init, c) {
          var i :| 0 <= i < |init| && init[i].1 == c;
          assert obs[i] == init[i];
        }
      }
    }
  }

  /** A word of the input, or the end token. */
  predicate FromInput(sentences: seq<seq<string>>, c: string) {
    c == SpecialToken || exists j :: 0 <= j < |sentences| && c in sentences[j]
  }

  lemma {:induction false} OrdersCountInput(ws: seq<string>, k: nat, c: string)
    requires Counted(Orders(ws, k), c)
    ensures c == SpecialToken || c in ws
    decreases k
  {
    var obs := Orders(ws, k);
    var i :| 0 <= i < |obs| && obs[i].1 == c;
    var a := Orders(ws, k - 1);
    if i < |a| {
      assert obs[i] == a[i];
      OrdersCountInput(ws, k - 1, c);
    } else {
      var b := OrderObservations(ws, k);
      assert obs[i] == b[i - |a|];
      if i - |a| < Inner(|ws|, k) {
        assert c == ws[i - |a| + k];
      }
    }
  }

  lemma {:induction false} ObservationsCountInput(sentences: seq<seq<string>>, window: int, c: string)
    requires Counted(Observations(sentences, window), c)
    ensures FromInput(sentences, c)
    decreases |sentences|
  {
    var init := sentences[..|sentences| - 1];
    var last := sentences[|sentences| - 1];
    var a := Observations(init, window);
    var obs := Observations(sentences, window);
    var i :| 0 <= i < |obs| && obs[i].1 == c;
    if i < |a| {
      assert obs[i] == a[i];
      ObservationsCountInput(init, window, c);
      if c != SpecialToken {
        var j :| 0 <= j < |init| && c in init[j];
        assert sentences[j] == init[j];
      }
    } else {
      var b := SentenceObservations(last, window);
      assert obs[i] == b[i - |a|];
      if i - |a| == 0 {
        assert c == last[0];
      } else {
        assert b[i - |a|] == Orders(last, OrderCount(window))[i - |a| - 1];
        OrdersCountInput(last, OrderCount(window), c);
      }
      assert c == SpecialToken || c in sentences[|sentences| - 1];
    }
  }

  /** A database trained from nothing holds, after every key, only words
      of the input sentences and the end token. */
  lemma TrainedCandidatesFromInput(sentences: seq<seq<string>>, window: int, k: seq<string>, c: string)
    requires k in Trained(map[], sentences, window) && c in Candidates(Trained(map[], sentences, window)[k])
    ensures FromInput(sentences, c)
  {
    var counted := Count(Initialized(map[]), Observations(sentences, window));
    NormalizeWeightsSumToOne(counted, k, c);
    CountCandidates(Initialized(map[]), Observations(sentences, window), k, c);
    if Counted(Observations(sentences, window), c) {
      ObservationsCountInput(sentences, window, c);
    } else {
      SetWeightCandidates([], SpecialToken, 0.0);
    }
  }
}

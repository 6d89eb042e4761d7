/** The aggregation step of encode_data: the games are concatenated, their
    positions grouped by FEN string in the order each is first seen, and every
    distinct position becomes one training example made of its canonical
    planes, the distribution of the moves played from it and the mean reward
    of the games it occurred in. */
module Aggregation {
  import opened Failures
  import opened Planes
  import Vocabulary
  import Sequences

  /** One recorded game: the positions reached (FEN strings), the move played
      from each (UCI strings) and the reward of the game. */
  datatype Game = Game(states: seq<string>, actions: seq<string>, reward: real)

  /** What state_prob_dict holds for a position: the move distribution over
      the label vocabulary and the position's value. */
  datatype Entry = Entry(policy: seq<real>, value: real)

  /** The three lists encode_data saves: features, labels and rewards. */
  datatype Encoded = Encoded(features: seq<Tensor>, policies: seq<seq<real>>, values: seq<real>)

  // ---------------------------------------------------------------------------
  // Concatenating the games

  function AllStates(games: seq<Game>): seq<string> {
    if |games| == 0 then [] else AllStates(games[..|games| - 1]) + games[|games| - 1].states
  }

  function AllActions(games: seq<Game>): seq<string> {
    if |games| == 0 then [] else AllActions(games[..|games| - 1]) + games[|games| - 1].actions
  }

  function Repeat(x: real, k: nat): seq<real> {
    seq(k, _ => x)
  }

  /** The reward of each game, once per position of the game. */
  function AllRewards(games: seq<Game>): seq<real> {
    if |games| == 0 then []
    else AllRewards(games[..|games| - 1]) + Repeat(games[|games| - 1].reward, |games[|games| - 1].states|)
  }

  /** The loop over the games: extend the position and move lists, append the
      game's reward once per position. */
  method Collect(games: seq<Game>) returns (states: seq<string>, actions: seq<string>, rewards: seq<real>)
    ensures states == AllStates(games) && actions == AllActions(games) && rewards == AllRewards(games)
  {
    states, actions, rewards := [], [], [];
    for g := 0 to |games|
      invariant states == AllStates(games[..g])
      invariant actions == AllActions(games[..g])
      invariant rewards == AllRewards(games[..g])
    {
      var game := games[g];
      assert games[..g + 1][..g] == games[..g];
      states := states + game.states;
      actions := actions + game.actions;
      ghost var before := rewards;
      for t := 0 to |game.states|
        invariant rewards == before + Repeat(game.reward, t)
      {
        assert Repeat(game.reward, t + 1) == Repeat(game.reward, t) + [game.reward];
        rewards := rewards + [game.reward];
      }
    }
    assert games[..|games|] == games;
  }

  /** The reward list always has one entry per position, each the reward of
      one of the games. */
  lemma {:induction false} CollectedRewards(games: seq<Game>)
    ensures |AllRewards(games)| == |AllStates(games)|
    ensures forall i :: 0 <= i < |AllRewards(games)| ==>
      exists g :: 0 <= g < |games| && AllRewards(games)[i] == games[g].reward
  {
    if |games| > 0 {
      var init := games[..|games| - 1];
      CollectedRewards(init);
      var last := games[|games| - 1];
      forall i | 0 <= i < |AllRewards(games)|
        ensures exists g :: 0 <= g < |games| && AllRewards(games)[i] == games[g].reward
      {
        if i < |AllRewards(init)| {
          var g :| 0 <= g < |init| && AllRewards(init)[i] == init[g].reward;
          assert games[g] == init[g];
        } else {
          assert AllRewards(games)[i] == games[|games| - 1].reward;
        }
      }
    }
  }

  // ---------------------------------------------------------------------------
  // Grouping the positions

  /** The distinct elements of s in the order each first occurs: the key
      order of a Python dict filled from s. */
  function Distinct(s: seq<string>): seq<string> {
    if |s| == 0 then []
    else
      var d := Distinct(s[..|s| - 1]);
      if s[|s| - 1] in d then d else d + [s[|s| - 1]]
  }

  /** The positions of s that hold x, in increasing order. */
  function Positions(s: seq<string>, x: string): seq<nat> {
    if |s| == 0 then []
    else Positions(s[..|s| - 1], x) + (if s[|s| - 1] == x then [|s| - 1] else [])
  }

  lemma {:induction false} DistinctMembers(s: seq<string>)
    ensures forall x :: x in Distinct(s) <==> x in s
  {
    if |s| > 0 {
      DistinctMembers(s[..|s| - 1]);
      assert s == s[..|s| - 1] + [s[|s| - 1]];
    }
  }

  /** Every position is grouped under exactly one key. */
  lemma {:induction false} DistinctUnique(s: seq<string>)
    ensures Sequences.Unique(Distinct(s))
  {
    if |s| > 0 {
      DistinctUnique(s[..|s| - 1]);
    }
  }

  /** x is first seen in s before y is. */
  predicate SeenBefore(s: seq<string>, x: string, y: string) {
    var i, j := Vocabulary.IndexOf(s, x), Vocabulary.IndexOf(s, y);
    i.Some? && j.Some? && i.value < j.value
  }

  lemma IndexOfExtended(s: seq<string>, a: string, x: string)
    ensures x in s ==> Vocabulary.IndexOf(s + [a], x) == Vocabulary.IndexOf(s, x)
    ensures x !in s && x == a ==> Vocabulary.IndexOf(s + [a], x) == Some(|s|)
  {
    var r, q := Vocabulary.IndexOf(s + [a], x), Vocabulary.IndexOf(s, x);
    if x in s {
      assert (s + [a])[q.value] == x;
    }
    if x !in s && x == a {
      assert (s + [a])[|s|] == x;
    }
  }

  /** The keys come in the order their positions are first seen. */
  lemma {:induction false} DistinctOrder(s: seq<string>)
    ensures forall i, j :: 0 <= i < j < |Distinct(s)| ==> SeenBefore(s, Distinct(s)[i], Distinct(s)[j])
  {
    if |s| > 0 {
      var init, a := s[..|s| - 1], s[|s| - 1];
      assert s == init + [a];
      DistinctOrder(init);
      DistinctMembers(init);
      var d := Distinct(s);
      forall i, j | 0 <= i < j < |d|
        ensures SeenBefore(s, d[i], d[j])
      {
        IndexOfExtended(init, a, d[i]);
        IndexOfExtended(init, a, d[j]);
        if j == |Distinct(init)| {
          assert d[i] in init;
          assert Vocabulary.IndexOf(init, d[i]).value < |init|;
        }
      }
    }
  }

  /** The occurrence list of x: every position holding x, each once, in order. */
  lemma {:induction false} PositionsSpec(s: seq<string>, x: string)
    ensures |Positions(s, x)| == multiset(s)[x]
    ensures forall k :: 0 <= k < |Positions(s, x)| ==> Positions(s, x)[k] < |s| && s[Positions(s, x)[k]] == x
    ensures forall k, l :: 0 <= k < l < |Positions(s, x)| ==> Positions(s, x)[k] < Positions(s, x)[l]
    ensures forall i :: 0 <= i < |s| && s[i] == x ==> i in Positions(s, x)
  {
    PositionsCount(s, x);
    PositionsOrdered(s, x);
    PositionsComplete(s, x);
  }

  lemma {:induction false} PositionsCount(s: seq<string>, x: string)
    ensures |Positions(s, x)| == multiset(s)[x]
  {
    if |s| > 0 {
      var init := s[..|s| - 1];
      PositionsCount(init, x);
      assert s == init + [s[|s| - 1]];
      assert multiset(s) == multiset(init) + multiset{s[|s| - 1]};
    }
  }

  lemma {:induction false} PositionsOrdered(s: seq<string>, x: string)
    ensures forall k :: 0 <= k < |Positions(s, x)| ==> Positions(s, x)[k] < |s| && s[Positions(s, x)[k]] == x
    ensures forall k, l :: 0 <= k < l < |Positions(s, x)| ==> Positions(s, x)[k] < Positions(s, x)[l]
  {
    if |s| > 0 {
      var init := s[..|s| - 1];
      PositionsOrdered(init, x);
      forall k | 0 <= k < |Positions(init, x)|
        ensures s[Positions(init, x)[k]] == x
      {
        assert s[Positions(init, x)[k]] == init[Positions(init, x)[k]];
      }
    }
  }

  lemma {:induction false} PositionsComplete(s: seq<string>, x: string)
    ensures forall i :: 0 <= i < |s| && s[i] == x ==> i in Positions(s, x)
  {
    if |s| > 0 {
      var init := s[..|s| - 1];
      PositionsComplete(init, x);
      forall i | 0 <= i < |init| && s[i] == x
        ensures i in Positions(s, x)
      {
        assert init[i] == s[i];
      }
    }
  }

  /** The first loop over the positions: the defaultdict of occurrence lists. */
  method GroupOccurrences(states: seq<string>) returns (keys: seq<string>, occurrences: map<string, seq<nat>>)
    ensures keys == Distinct(states)
    ensures forall x :: x in occurrences <==> x in states
    ensures forall x :: x in occurrences ==> occurrences[x] == Positions(states, x)
  {
    keys, occurrences := [], map[];
    for i := 0 to |states|
      invariant keys == Distinct(states[..i])
      invariant forall x :: x in occurrences <==> x in states[..i]
      invariant forall x :: x in occurrences ==> occurrences[x] == Positions(states[..i], x)
    {
      var item := states[i];
      assert states[..i + 1][..i] == states[..i];
      assert states[..i + 1] == states[..i] + [item];
      DistinctMembers(states[..i]);
      ghost var before := occurrences;
      if item in occurrences {
        occurrences := occurrences[item := occurrences[item] + [i]];
      } else {
        keys := keys + [item];
        occurrences := occurrences[item := [i]];
      }
      forall x | x in occurrences
        ensures occurrences[x] == Positions(states[..i + 1], x)
      {
        assert Positions(states[..i + 1], x) == Positions(states[..i], x) + (if item == x then [i] else []);
        if x != item {
          assert Positions(states[..i], x) + [] == Positions(states[..i], x);
        } else if item in before {
          assert occurrences[x] == before[x] + [i];
        } else {
          PositionsSpec(states[..i], x);
        }
      }
    }
    assert states[..|states|] == states;
  }

  /** The counting loop over the moves played from one position. */
  method CountActions(actions: seq<string>) returns (keys: seq<string>, counts: map<string, nat>)
    ensures keys == Distinct(actions)
    ensures forall x :: x in counts <==> x in actions
    ensures forall x :: x in counts ==> counts[x] == multiset(actions)[x]
  {
    keys, counts := [], map[];
    for i := 0 to |actions|
      invariant keys == Distinct(actions[..i])
      invariant forall x :: x in counts <==> x in actions[..i]
      invariant forall x :: x in counts ==> counts[x] == multiset(actions[..i])[x]
    {
      var n := actions[i];
      assert actions[..i + 1][..i] == actions[..i];
      assert actions[..i + 1] == actions[..i] + [n];
      DistinctMembers(actions[..i]);
      if n !in counts {
        keys := keys + [n];
      }
      counts := counts[n := (if n in counts then counts[n] else 0) + 1];
    }
    assert actions[..|actions|] == actions;
  }

  // ---------------------------------------------------------------------------
  // The move distribution and the value of one position

  /** Python's sum over a list of numbers, left to right. */
  function SumReal(xs: seq<real>): real {
    if |xs| == 0 then 0.0 else SumReal(xs[..|xs| - 1]) + xs[|xs| - 1]
  }

  /** sum(rewards) / total_repetitions. */
  function Mean(xs: seq<real>): real
    requires |xs| > 0
  {
    SumReal(xs) / |xs| as real
  }

  /** The list comprehension [xs[i] for i in indices]. */
  function Gather<T>(xs: seq<T>, indices: seq<nat>): seq<T>
    requires forall k :: 0 <= k < |indices| ==> indices[k] < |xs|
  {
    seq(|indices|, k requires 0 <= k < |indices| => xs[indices[k]])
  }

  /** Some move played is missing from the labels: list.index raises ValueError. */
  predicate Unlisted(actions: seq<string>, labels: seq<string>) {
    exists i :: 0 <= i < |actions| && Vocabulary.IndexOf(labels, actions[i]).None?
  }

  /** The probs vector of one position: at the index list.index finds for each
      move played, the share of the position's occurrences in which it was
      played; zero elsewhere. */
  function PolicyOf(actions: seq<string>, labels: seq<string>): Result<seq<real>>
    requires |actions| > 0
  {
    if Unlisted(actions, labels) then Err(ValueError)
    else Ok(seq(|labels|, j requires 0 <= j < |labels| => Placed(actions, labels, actions, j)))
  }

  /** Entry j of probs once the moves in `done` have been written. */
  function Placed(actions: seq<string>, labels: seq<string>, done: seq<string>, j: int): real
    requires |actions| > 0 && 0 <= j < |labels|
  {
    if Vocabulary.IndexOf(labels, labels[j]) == Some(j) && labels[j] in done
    then multiset(actions)[labels[j]] as real / |actions| as real
    else 0.0
  }

  /** The loop over counts.items(): look each move up in the labels and write
      its frequency there. */
  method Policy(actions: seq<string>, labels: seq<string>) returns (res: Result<seq<real>>)
    requires |actions| > 0
    ensures res == PolicyOf(actions, labels)
  {
    var keys, counts := CountActions(actions);
    DistinctMembers(actions);
    var total := |actions|;
    var probs := new real[|labels|](_ => 0.0);
    for k := 0 to |keys|
      invariant forall i :: 0 <= i < k ==> Vocabulary.IndexOf(labels, keys[i]).Some?
      invariant forall j :: 0 <= j < |labels| ==> probs[j] == Placed(actions, labels, keys[..k], j)
    {
      var index := Vocabulary.IndexOf(labels, keys[k]);
      if index.None? {
        assert keys[k] in actions;
        return Err(ValueError);
      }
      ghost var before := probs[..];
      probs[index.value] := counts[keys[k]] as real / total as real;
      assert probs[..] == before[index.value := multiset(actions)[keys[k]] as real / |actions| as real];
      PlacedWrite(actions, labels, keys[..k], keys[k], index.value, before, probs[..]);
      assert keys[..k + 1] == keys[..k] + [keys[k]];
    }
    assert keys[..|keys|] == keys;
    PolicyWritten(actions, labels, keys, probs[..]);
    return Ok(probs[..]);
  }

  /** Writing the share of one more move changes entry j only where list.index finds that move. */
  lemma PlacedStep(actions: seq<string>, labels: seq<string>, done: seq<string>, key: string, index: nat, j: int)
    requires |actions| > 0 && 0 <= j < |labels|
    requires Vocabulary.IndexOf(labels, key) == Some(index)
    ensures Placed(actions, labels, done + [key], j) ==
      if j == index then multiset(actions)[key] as real / |actions| as real else Placed(actions, labels, done, j)
  {
  }

  /** One step of the probs loop: writing the share of one more move at its
      label index keeps every entry equal to its share among the moves done. */
  lemma PlacedWrite(actions: seq<string>, labels: seq<string>, done: seq<string>, key: string, index: nat,
                    before: seq<real>, after: seq<real>)
    requires |actions| > 0 && |before| == |labels|
    requires Vocabulary.IndexOf(labels, key) == Some(index)
    requires forall j :: 0 <= j < |labels| ==> before[j] == Placed(actions, labels, done, j)
    requires after == before[index := multiset(actions)[key] as real / |actions| as real]
    ensures forall j :: 0 <= j < |labels| ==> after[j] == Placed(actions, labels, done + [key], j)
  {
    forall j | 0 <= j < |labels|
      ensures after[j] == Placed(actions, labels, done + [key], j)
    {
      PlacedStep(actions, labels, done, key, index, j);
    }
  }

  /** Once the share of every move played is written, the vector is the distribution. */
  lemma PolicyWritten(actions: seq<string>, labels: seq<string>, keys: seq<string>, probs: seq<real>)
    requires |actions| > 0 && |probs| == |labels|
    requires forall x :: x in keys <==> x in actions
    requires forall i :: 0 <= i < |keys| ==> Vocabulary.IndexOf(labels, keys[i]).Some?
    requires forall j :: 0 <= j < |labels| ==> probs[j] == Placed(actions, labels, keys, j)
    ensures PolicyOf(actions, labels) == Ok(probs)
  {
    forall i | 0 <= i < |actions|
      ensures Vocabulary.IndexOf(labels, actions[i]).Some?
    {
      assert actions[i] in keys;
    }
    assert !Unlisted(actions, labels);
    assert probs == seq(|labels|, j requires 0 <= j < |labels| => Placed(actions, labels, actions, j));
  }

  lemma PolicyEntry(actions: seq<string>, labels: seq<string>, j: int)
    requires |actions| > 0 && Sequences.Unique(labels) && PolicyOf(actions, labels).Ok? && 0 <= j < |labels|
    ensures |PolicyOf(actions, labels).value| == |labels|
    ensures PolicyOf(actions, labels).value[j] == multiset(actions)[labels[j]] as real / |actions| as real
    ensures multiset(actions)[labels[j]] <= |actions|
  {
    Vocabulary.IndexOfUnique(labels, j);
    assert multiset(actions)[labels[j]] <= |multiset(actions)|;
    if labels[j] !in actions {
      assert multiset(actions)[labels[j]] == 0;
      assert 0 as real / |actions| as real == 0.0;
    }
  }

  lemma ShareBounded(count: int, total: int)
    requires 0 <= count <= total && total > 0
    ensures 0.0 <= count as real / total as real <= 1.0
  {
  }

  /** For a list without repeats, such as the UCI labels: the distribution has
      one entry per label, each the share of the occurrences in which that
      move was played. */
  lemma PolicyEntries(actions: seq<string>, labels: seq<string>)
    requires |actions| > 0 && Sequences.Unique(labels) && PolicyOf(actions, labels).Ok?
    ensures |PolicyOf(actions, labels).value| == |labels|
    ensures forall j :: 0 <= j < |labels| ==>
      PolicyOf(actions, labels).value[j] == multiset(actions)[labels[j]] as real / |actions| as real
    ensures forall j :: 0 <= j < |labels| ==> 0.0 <= PolicyOf(actions, labels).value[j] <= 1.0
  {
    forall j | 0 <= j < |labels|
      ensures PolicyOf(actions, labels).value[j] == multiset(actions)[labels[j]] as real / |actions| as real
      ensures 0.0 <= PolicyOf(actions, labels).value[j] <= 1.0
    {
      PolicyEntry(actions, labels, j);
      ShareBounded(multiset(actions)[labels[j]], |actions|);
    }
  }

  /** Over the UCI labels, the distribution fails exactly when a move played
      is not a UCI move string of the vocabulary's two shapes. */
  lemma PolicyFails(actions: seq<string>)
    requires |actions| > 0
    ensures PolicyOf(actions, Vocabulary.UciLabels()).Err? <==>
      exists i :: 0 <= i < |actions| && !(Vocabulary.IsMoveLabel(actions[i]) || Vocabulary.IsPromotionLabel(actions[i]))
    ensures PolicyOf(actions, Vocabulary.UciLabels()).Err? ==> PolicyOf(actions, Vocabulary.UciLabels()).error == ValueError
  {
    forall i | 0 <= i < |actions|
      ensures Vocabulary.IndexOf(Vocabulary.UciLabels(), actions[i]).Some? <==>
        Vocabulary.IsMoveLabel(actions[i]) || Vocabulary.IsPromotionLabel(actions[i])
    {
      Vocabulary.UciLabelsIndex(actions[i]);
    }
  }

  /** Counting each label's occurrences among moves that are all labels, the
      counts add up to the number of moves. */
  lemma {:induction false} LabelCounts(actions: seq<string>, labels: seq<string>)
    requires Sequences.Unique(labels)
    requires forall i :: 0 <= i < |actions| ==> actions[i] in labels
    ensures Sequences.Sum(seq(|labels|, j requires 0 <= j < |labels| => multiset(actions)[labels[j]])) == |actions|
  {
    var counts := seq(|labels|, j requires 0 <= j < |labels| => multiset(actions)[labels[j]]);
    if |actions| > 0 {
      var init, a := actions[..|actions| - 1], actions[|actions| - 1];
      assert actions == init + [a];
      LabelCounts(init, labels);
      var before := seq(|labels|, j requires 0 <= j < |labels| => multiset(init)[labels[j]]);
      SumAdd(before, Indicator(labels, a), counts);
      IndicatorSum(labels, a);
      CountDistinct(labels, a);
    } else {
      ZeroSum(counts);
    }
  }

  lemma {:induction false} ZeroSum(xs: seq<int>)
    requires forall j :: 0 <= j < |xs| ==> xs[j] == 0
    ensures Sequences.Sum(xs) == 0
  {
    if |xs| > 0 {
      ZeroSum(xs[..|xs| - 1]);
    }
  }

  /** Dividing every term by n divides the sum by n. */
  lemma {:induction false} SumScaled(xs: seq<int>, n: nat)
    requires n > 0
    ensures SumReal(seq(|xs|, j requires 0 <= j < |xs| => xs[j] as real / n as real)) == Sequences.Sum(xs) as real / n as real
  {
    if |xs| > 0 {
      var m := |xs| - 1;
      SumScaled(xs[..m], n);
      var scaled := seq(|xs|, j requires 0 <= j < |xs| => xs[j] as real / n as real);
      assert scaled[..m] == seq(m, j requires 0 <= j < m => xs[..m][j] as real / n as real);
    }
  }

  /** For labels without repeats, a distribution that is computed sums to one. */
  lemma PolicySumsToOne(actions: seq<string>, labels: seq<string>)
    requires |actions| > 0 && Sequences.Unique(labels) && PolicyOf(actions, labels).Ok?
    ensures SumReal(PolicyOf(actions, labels).value) == 1.0
  {
    PolicyEntries(actions, labels);
    forall i | 0 <= i < |actions|
      ensures actions[i] in labels
    {
      assert !Vocabulary.IndexOf(labels, actions[i]).None?;
    }
    LabelCounts(actions, labels);
    var counts := seq(|labels|, j requires 0 <= j < |labels| => multiset(actions)[labels[j]]);
    SumScaled(counts, |actions|);
    var n := |actions| as real;
    var policy := PolicyOf(actions, labels).value;
    assert policy == seq(|counts|, j requires 0 <= j < |counts| => counts[j] as real / n);
    assert SumReal(policy) == n / n;
    DivideSelf(n);
  }

  lemma DivideSelf(n: real)
    requires n > 0.0
    ensures n / n == 1.0
  {
  }

  lemma {:induction false} SumBounds(xs: seq<real>, lo: real, hi: real)
    requires forall i :: 0 <= i < |xs| ==> lo <= xs[i] <= hi
    ensures |xs| as real * lo <= SumReal(xs) <= |xs| as real * hi
  {
    if |xs| > 0 {
      SumBounds(xs[..|xs| - 1], lo, hi);
    }
  }

  /** The value of a position lies between the least and the greatest reward. */
  lemma MeanBounded(xs: seq<real>, lo: real, hi: real)
    requires |xs| > 0
    requires forall i :: 0 <= i < |xs| ==> lo <= xs[i] <= hi
    ensures lo <= Mean(xs) <= hi
  {
    SumBounds(xs, lo, hi);
    var n := |xs| as real;
    assert Mean(xs) * n == SumReal(xs);
  }

  // ---------------------------------------------------------------------------
  // One entry per distinct position

  /** The occurrence list of a position: nonempty, and every index in range. */
  lemma OccurrencesInRange(states: seq<string>, x: string)
    requires x in states
    ensures |Positions(states, x)| > 0
    ensures forall k :: 0 <= k < |Positions(states, x)| ==> Positions(states, x)[k] < |states|
  {
    PositionsSpec(states, x);
  }

  /** The entries of a column (the moves, or the rewards) at the occurrences
      of position x, in order: entry k is the column's value at the k-th
      occurrence of x. */
  function AtOccurrences<T>(states: seq<string>, column: seq<T>, x: string): (gathered: seq<T>)
    requires |column| == |states| && x in states
    ensures |gathered| == multiset(states)[x] > 0
    ensures |gathered| == |Positions(states, x)|
    ensures forall k :: 0 <= k < |gathered| ==>
      Positions(states, x)[k] < |column| && gathered[k] == column[Positions(states, x)[k]]
    ensures forall k :: 0 <= k < |gathered| ==>
      exists i :: 0 <= i < |states| && states[i] == x && gathered[k] == column[i]
  {
    PositionsSpec(states, x);
    var gathered := Gather(column, Positions(states, x));
    assert forall k :: 0 <= k < |gathered| ==> gathered[k] == column[Positions(states, x)[k]];
    gathered
  }

  /** The body of the loop over occurences_dict for position x. */
  function EntryOf(states: seq<string>, actions: seq<string>, rewards: seq<real>, labels: seq<string>, x: string): Result<Entry>
    requires |actions| == |states| == |rewards| && x in states
  {
    OccurrencesInRange(states, x);
    match PolicyOf(AtOccurrences(states, actions, x), labels)
      case Err(e) => Err(e)
      case Ok(policy) => Ok(Entry(policy, Mean(AtOccurrences(states, rewards, x))))
  }

  /** A loop over the keys that computes one value per key and stops at the
      first exception: the values in key order, or that exception. */
  function Traverse<T>(keys: seq<string>, step: string --> Result<T>): Result<seq<T>>
    requires forall k :: 0 <= k < |keys| ==> step.requires(keys[k])
  {
    if |keys| == 0 then Ok([])
    else
      match Traverse(keys[..|keys| - 1], step)
        case Err(e) => Err(e)
        case Ok(values) =>
          match step(keys[|keys| - 1])
            case Err(e) => Err(e)
            case Ok(v) => Ok(values + [v])
  }

  /** The body of the loop over occurences_dict, as a step of that loop. */
  function EntryStep(states: seq<string>, actions: seq<string>, rewards: seq<real>, labels: seq<string>): string --> Result<Entry> {
    x requires |actions| == |states| == |rewards| && x in states => EntryOf(states, actions, rewards, labels, x)
  }

  /** get_canonical_board(state) with its default perspective, as a step of
      the loop over state_prob_dict. */
  function Board(state: string): Result<Tensor> {
    CanonicalBoard(state, true)
  }

  /** encode_data without its file I/O: the examples of the given games, or
      the exception that stops it. */
  function Encode(games: seq<Game>): Result<Encoded> {
    var states, actions, rewards := AllStates(games), AllActions(games), AllRewards(games);
    if |states| != |actions| || |actions| != |rewards| then Err(AssertionError)
    else
      var keys := Distinct(states);
      DistinctMembers(states);
      match Traverse(keys, EntryStep(states, actions, rewards, Vocabulary.UciLabels()))
        case Err(e) => Err(e)
        case Ok(entries) => Outputs(keys, entries)
  }

  /** The loop over state_prob_dict: the canonical board of each position
      beside its distribution and value, or the first exception a board raises. */
  function Outputs(keys: seq<string>, entries: seq<Entry>): Result<Encoded> {
    match Traverse(keys, Board)
      case Err(e) => Err(e)
      case Ok(features) =>
        Ok(Encoded(features, Policies(entries), Values(entries)))
  }

  function Policies(entries: seq<Entry>): seq<seq<real>> {
    if |entries| == 0 then [] else Policies(entries[..|entries| - 1]) + [entries[|entries| - 1].policy]
  }

  function Values(entries: seq<Entry>): seq<real> {
    if |entries| == 0 then [] else Values(entries[..|entries| - 1]) + [entries[|entries| - 1].value]
  }


  /** The loop computes a value for every key, in key order, and fails
      exactly when the step fails for some key, with the first such
      exception. */
  lemma {:induction false} TraverseSpec<T>(keys: seq<string>, step: string --> Result<T>)
    requires forall k :: 0 <= k < |keys| ==> step.requires(keys[k])
    ensures Traverse(keys, step).Ok? <==> forall k :: 0 <= k < |keys| ==> step(keys[k]).Ok?
    ensures Traverse(keys, step).Err? ==>
      exists k :: 0 <= k < |keys| && step(keys[k]) == Err(Traverse(keys, step).error) &&
        forall m :: 0 <= m < k ==> step(keys[m]).Ok?
    ensures Traverse(keys, step).Ok? ==>
      |Traverse(keys, step).value| == |keys| &&
      forall k :: 0 <= k < |keys| ==> Traverse(keys, step).value[k] == step(keys[k]).value
  {
    if |keys| > 0 {
      var init := keys[..|keys| - 1];
      TraverseSpec(init, step);
      forall k | 0 <= k < |init|
        ensures init[k] == keys[k]
      {
      }
    }
  }

  /** Once a prefix of the keys fails, the whole loop fails with its exception. */
  lemma {:induction false} TraverseStop<T>(keys: seq<string>, step: string --> Result<T>, n: nat)
    requires forall k :: 0 <= k < |keys| ==> step.requires(keys[k])
    requires n <= |keys| && Traverse(keys[..n], step).Err?
    ensures Traverse(keys, step) == Traverse(keys[..n], step)
  {
    if n < |keys| {
      var init := keys[..|keys| - 1];
      assert init[..n] == keys[..n];
      TraverseStop(init, step, n);
    } else {
      assert keys[..n] == keys;
    }
  }

  // ---------------------------------------------------------------------------
  // encode_data

  /** The body of the loop over occurences_dict for one position and its
      occurrence list: gather its moves and rewards, average the rewards,
      build the move distribution. */
  method EncodeState(states: seq<string>, actions: seq<string>, rewards: seq<real>, labels: seq<string>,
                     x: string, indices: seq<nat>) returns (res: Result<Entry>)
    requires |actions| == |states| == |rewards| && x in states && indices == Positions(states, x)
    ensures res == EntryOf(states, actions, rewards, labels, x)
  {
    OccurrencesInRange(states, x);
    var moves := seq(|indices|, k requires 0 <= k < |indices| => actions[indices[k]]);
    var played := seq(|indices|, k requires 0 <= k < |indices| => rewards[indices[k]]);
    var totalRepetitions := |indices|;
    var correctValue := SumReal(played) / totalRepetitions as real;
    assert moves == AtOccurrences(states, actions, x);
    assert played == AtOccurrences(states, rewards, x);
    var probs := Policy(moves, labels);
    if probs.Err? {
      return Err(probs.error);
    }
    return Ok(Entry(probs.value, correctValue));
  }

  /** The loop over occurences_dict. */
  method ComputeEntries(states: seq<string>, actions: seq<string>, rewards: seq<real>, labels: seq<string>,
                        keys: seq<string>, occurrences: map<string, seq<nat>>) returns (res: Result<seq<Entry>>)
    requires |actions| == |states| == |rewards|
    requires forall k :: 0 <= k < |keys| ==> keys[k] in states && keys[k] in occurrences
    requires forall x :: x in occurrences ==> occurrences[x] == Positions(states, x)
    ensures res == Traverse(keys, EntryStep(states, actions, rewards, labels))
  {
    ghost var step := EntryStep(states, actions, rewards, labels);
    var entries: seq<Entry> := [];
    for k := 0 to |keys|
      invariant Traverse(keys[..k], step) == Ok(entries)
    {
      assert keys[..k + 1][..k] == keys[..k];
      var entry := EncodeState(states, actions, rewards, labels, keys[k], occurrences[keys[k]]);
      if entry.Err? {
        TraverseStop(keys, step, k + 1);
        return Err(entry.error);
      }
      entries := entries + [entry.value];
    }
    assert keys[..|keys|] == keys;
    return Ok(entries);
  }

  /** get_canonical_board of each key in turn, as the loop over
      state_prob_dict calls it. */
  method EncodeFeatures(keys: seq<string>) returns (res: Result<seq<Tensor>>)
    ensures res == Traverse(keys, Board)
  {
    var features: seq<Tensor> := [];
    for k := 0 to |keys|
      invariant Traverse(keys[..k], Board) == Ok(features)
    {
      assert keys[..k + 1][..k] == keys[..k];
      var board := GetCanonicalBoard(keys[k], true);
      if board.Err? {
        TraverseStop(keys, Board, k + 1);
        return Err(board.error);
      }
      features := features + [board.value];
    }
    assert keys[..|keys|] == keys;
    return Ok(features);
  }

  /** The loop over state_prob_dict: the three output lists. */
  method EncodeOutputs(keys: seq<string>, entries: seq<Entry>) returns (res: Result<Encoded>)
    requires |entries| == |keys|
    ensures res == Outputs(keys, entries)
  {
    var encodedStates := EncodeFeatures(keys);
    if encodedStates.Err? {
      return Err(encodedStates.error);
    }
    var encodedActions: seq<seq<real>> := [];
    var encodedValues: seq<real> := [];
    for k := 0 to |entries|
      invariant encodedActions == Policies(entries[..k])
      invariant encodedValues == Values(entries[..k])
    {
      assert entries[..k + 1][..k] == entries[..k];
      encodedActions := encodedActions + [entries[k].policy];
      encodedValues := encodedValues + [entries[k].value];
    }
    assert entries[..|entries|] == entries;
    return Ok(Encoded(encodedStates.value, encodedActions, encodedValues));
  }

  /** encode_data without its file I/O. */
  method EncodeData(games: seq<Game>) returns (res: Result<Encoded>)
    ensures res == Encode(games)
  {
    var states, actions, rewards := Collect(games);
    if |states| != |actions| || |actions| != |rewards| {
      return Err(AssertionError);
    }
    var keys, occurrences := GroupOccurrences(states);
    DistinctMembers(states);
    var labels := Vocabulary.CreateUciLabels();
    var entries := ComputeEntries(states, actions, rewards, labels, keys, occurrences);
    if entries.Err? {
      return Err(entries.error);
    }
    TraverseSpec(keys, EntryStep(states, actions, rewards, labels));
    res := EncodeOutputs(keys, entries.value);
  }

  // ---------------------------------------------------------------------------
  // What encode_data produces

  lemma {:induction false} PoliciesValues(entries: seq<Entry>)
    ensures |Policies(entries)| == |entries| && |Values(entries)| == |entries|
    ensures forall k :: 0 <= k < |entries| ==> Policies(entries)[k] == entries[k].policy && Values(entries)[k] == entries[k].value
  {
    if |entries| > 0 {
      PoliciesValues(entries[..|entries| - 1]);
    }
  }

  /** The assert of encode_data fails exactly when the games hold more
      positions than moves or the other way round: the reward list always
      matches the positions. */
  lemma EncodeAssertion(games: seq<Game>)
    ensures |AllRewards(games)| == |AllStates(games)|
    ensures |AllStates(games)| != |AllActions(games)| ==> Encode(games) == Err(AssertionError)
  {
    CollectedRewards(games);
  }

  /** The entry of the position where a move that is not a UCI label was
      played fails. */
  lemma UnknownMoveEntry(states: seq<string>, actions: seq<string>, rewards: seq<real>, i: int)
    requires |actions| == |states| == |rewards| && 0 <= i < |actions|
    requires !(Vocabulary.IsMoveLabel(actions[i]) || Vocabulary.IsPromotionLabel(actions[i]))
    ensures EntryOf(states, actions, rewards, Vocabulary.UciLabels(), states[i]).Err?
  {
    var x := states[i];
    PositionsSpec(states, x);
    var p :| 0 <= p < |Positions(states, x)| && Positions(states, x)[p] == i;
    var moves := AtOccurrences(states, actions, x);
    assert moves[p] == actions[i];
    PolicyFails(moves);
  }

  /** Every entry that fails, fails with ValueError. */
  lemma EntryError(states: seq<string>, actions: seq<string>, rewards: seq<real>, x: string)
    requires |actions| == |states| == |rewards| && x in states
    ensures EntryOf(states, actions, rewards, Vocabulary.UciLabels(), x).Err? ==>
      EntryOf(states, actions, rewards, Vocabulary.UciLabels(), x).error == ValueError
  {
    OccurrencesInRange(states, x);
    PolicyFails(AtOccurrences(states, actions, x));
  }

  /** A move played that is not a UCI label stops encode_data with ValueError
      once the lengths agree, before any board is encoded. */
  lemma EncodeRejectsUnknownMove(games: seq<Game>, i: int)
    requires |AllStates(games)| == |AllActions(games)| && 0 <= i < |AllActions(games)|
    requires !(Vocabulary.IsMoveLabel(AllActions(games)[i]) || Vocabulary.IsPromotionLabel(AllActions(games)[i]))
    ensures Encode(games) == Err(ValueError)
  {
    var states, actions, rewards := AllStates(games), AllActions(games), AllRewards(games);
    CollectedRewards(games);
    DistinctMembers(states);
    var keys, labels := Distinct(states), Vocabulary.UciLabels();
    assert states[i] in keys;
    var m :| 0 <= m < |keys| && keys[m] == states[i];
    UnknownMoveEntry(states, actions, rewards, i);
    var step := EntryStep(states, actions, rewards, labels);
    TraverseSpec(keys, step);
    var w :| 0 <= w < |keys| && step(keys[w]) == Err(Traverse(keys, step).error);
    EntryError(states, actions, rewards, keys[w]);
  }

  /** What one example holds: the canonical board of its position, the share
      of each UCI label among the moves played from it (a distribution that
      sums to one), and the mean reward of the games it occurred in. */
  predicate Example(states: seq<string>, actions: seq<string>, rewards: seq<real>, x: string,
                    feature: Tensor, policy: seq<real>, value: real)
    requires |actions| == |states| == |rewards| && x in states
  {
    OccurrencesInRange(states, x);
    var moves := AtOccurrences(states, actions, x);
    && Board(x) == Ok(feature)
    && HasShape(feature, 18)
    && |policy| == |Vocabulary.UciLabels()|
    && (forall j :: 0 <= j < |policy| ==>
          policy[j] == multiset(moves)[Vocabulary.UciLabels()[j]] as real / |moves| as real)
    && SumReal(policy) == 1.0
    && value == Mean(AtOccurrences(states, rewards, x))
  }

  lemma EntryExample(states: seq<string>, actions: seq<string>, rewards: seq<real>, x: string, feature: Tensor, entry: Entry)
    requires |actions| == |states| == |rewards| && x in states
    requires EntryOf(states, actions, rewards, Vocabulary.UciLabels(), x) == Ok(entry)
    requires Board(x) == Ok(feature)
    ensures Example(states, actions, rewards, x, feature, entry.policy, entry.value)
  {
    var moves := AtOccurrences(states, actions, x);
    OccurrencesInRange(states, x);
    Vocabulary.UciLabelsUnique();
    PolicyEntries(moves, Vocabulary.UciLabels());
    PolicySumsToOne(moves, Vocabulary.UciLabels());
    CanonicalShape(x, true);
  }

  /** encode_data, when it succeeds, yields one example per distinct position,
      in the order the positions are first seen, and each example is what
      Example describes. */
  lemma EncodedExamples(games: seq<Game>)
    requires Encode(games).Ok?
    ensures var states, out := AllStates(games), Encode(games).value;
      var keys := Distinct(states);
      |AllActions(games)| == |states| == |AllRewards(games)|
      && |out.features| == |keys| && |out.policies| == |keys| && |out.values| == |keys|
      && forall k :: 0 <= k < |keys| ==>
           keys[k] in states && Example(states, AllActions(games), AllRewards(games), keys[k], out.features[k], out.policies[k], out.values[k])
  {
    var states, actions, rewards := AllStates(games), AllActions(games), AllRewards(games);
    var keys := Distinct(states);
    DistinctMembers(states);
    var step := EntryStep(states, actions, rewards, Vocabulary.UciLabels());
    TraverseSpec(keys, step);
    TraverseSpec(keys, Board);
    var entries, features := Traverse(keys, step).value, Traverse(keys, Board).value;
    PoliciesValues(entries);
    forall k | 0 <= k < |keys|
      ensures Example(states, actions, rewards, keys[k], features[k], entries[k].policy, entries[k].value)
    {
      EntryExample(states, actions, rewards, keys[k], features[k], entries[k]);
    }
  }

  /** With every game's reward between lo and hi, so is every value. */
  lemma EncodedValuesBounded(games: seq<Game>, lo: real, hi: real)
    requires forall g :: 0 <= g < |games| ==> lo <= games[g].reward <= hi
    requires Encode(games).Ok?
    ensures forall k :: 0 <= k < |Encode(games).value.values| ==> lo <= Encode(games).value.values[k] <= hi
  {
    var states, actions, rewards := AllStates(games), AllActions(games), AllRewards(games);
    CollectedRewards(games);
    EncodedExamples(games);
    var keys := Distinct(states);
    forall i | 0 <= i < |rewards|
      ensures lo <= rewards[i] <= hi
    {
      var g :| 0 <= g < |games| && rewards[i] == games[g].reward;
    }
    forall k | 0 <= k < |keys|
      ensures lo <= Encode(games).value.values[k] <= hi
    {
      PositionValueBounded(states, rewards, keys[k], lo, hi);
    }
  }

  lemma PositionValueBounded(states: seq<string>, rewards: seq<real>, x: string, lo: real, hi: real)
    requires |rewards| == |states| && x in states
    requires forall i :: 0 <= i < |rewards| ==> lo <= rewards[i] <= hi
    ensures lo <= Mean(AtOccurrences(states, rewards, x)) <= hi
  {
    OccurrencesInRange(states, x);
    MeanBounded(AtOccurrences(states, rewards, x), lo, hi);
  }
}

/** create_uci_labels: the fixed, ordered list of UCI move strings that indexes
    the policy vector. */
module Vocabulary {
  import opened Failures
  import opened Sequences

  /** letters[l]: the file letter of column l. */
  function FileChar(l: int): char
    requires 0 <= l < 8
  {
    ('a' as int + l) as char
  }

  /** numbers[n]: the rank digit of row n. */
  function RankChar(n: int): char
    requires 0 <= n < 8
  {
    ('1' as int + n) as char
  }

  predicate IsFileChar(c: char) {
    'a' <= c <= 'h'
  }

  predicate IsRankChar(c: char) {
    '1' <= c <= '8'
  }

  function FileOf(c: char): int {
    c as int - 'a' as int
  }

  function RankOf(c: char): int {
    c as int - '1' as int
  }

  predicate OnBoard(l: int, n: int) {
    0 <= l < 8 && 0 <= n < 8
  }

  const PromotedTo: string := "qrbn"

  const KnightJumps: seq<(int, int)> :=
    [(-2, -1), (-1, -2), (-2, 1), (1, -2), (2, -1), (-1, 2), (2, 1), (1, 2)]

  /** The number of entries of `destinations`: a rank (8), a file (8), two
      diagonals (15 each) and the knight jumps (8). */
  const DestinationCount := 54

  /** destinations[j] for the origin (l1, n1): the whole rank, the whole file,
      the diagonal and the anti-diagonal for t from -7 to 7, then the knight jumps. */
  function Destination(l1: int, n1: int, j: int): (int, int)
    requires 0 <= j < DestinationCount
  {
    if j < 8 then (j, n1)
    else if j < 16 then (l1, j - 8)
    else if j < 31 then (l1 + (j - 23), n1 + (j - 23))
    else if j < 46 then (l1 + (j - 38), n1 - (j - 38))
    else (l1 + KnightJumps[j - 46].0, n1 + KnightJumps[j - 46].1)
  }

  /** The filter of the inner loop: not the origin, and on the board. */
  predicate Kept(l1: int, n1: int, d: (int, int)) {
    (l1, n1) != d && OnBoard(d.0, d.1)
  }

  /** The label of a move from (l1, n1) to (l2, n2): two squares, file letter then rank digit. */
  function Move(l1: int, n1: int, l2: int, n2: int): string
    requires OnBoard(l1, n1) && OnBoard(l2, n2)
  {
    [FileChar(l1), RankChar(n1), FileChar(l2), RankChar(n2)]
  }

  /** The `destinations` list of the source, built as it builds it: the
      concatenation of the five comprehensions. */
  function Destinations(l1: int, n1: int): (ds: seq<(int, int)>)
    ensures |ds| == DestinationCount
    ensures forall j :: 0 <= j < DestinationCount ==> ds[j] == Destination(l1, n1, j)
  {
    seq(8, t => (t, n1)) + seq(8, t => (l1, t))
    + seq(15, i => (l1 + (i - 7), n1 + (i - 7)))
    + seq(15, i => (l1 + (i - 7), n1 - (i - 7)))
    + seq(8, k requires 0 <= k < 8 => (l1 + KnightJumps[k].0, n1 + KnightJumps[k].1))
  }

  /** The labels the inner loop appends for origin (l1, n1) while it scans the
      destination list ds: one for every kept destination, in order. */
  function OriginMoves(l1: int, n1: int, ds: seq<(int, int)>): seq<string>
    requires OnBoard(l1, n1)
  {
    if |ds| == 0 then []
    else
      var d := ds[|ds| - 1];
      OriginMoves(l1, n1, ds[..|ds| - 1]) + (if Kept(l1, n1, d) then [Move(l1, n1, d.0, d.1)] else [])
  }

  /** The labels of the origins on file l with rank below n, in loop order. */
  function FileMoves(l: int, n: nat): seq<string>
    requires 0 <= l < 8 && n <= 8
  {
    if n == 0 then [] else FileMoves(l, n - 1) + OriginMoves(l, n - 1, Destinations(l, n - 1))
  }

  /** The lists in `parts`, one after the other. */
  function Flatten(parts: seq<seq<string>>): seq<string> {
    if |parts| == 0 then [] else Flatten(parts[..|parts| - 1]) + parts[|parts| - 1]
  }

  /** The labels of the origins on the first k files. */
  function MovesBefore(k: nat): seq<string>
    requires k <= 8
  {
    Flatten(seq(k, l requires 0 <= l < k => FileMoves(l, 8)))
  }

  /** The two labels for one file, one target file and one piece (2->1, then 7->8). */
  function PromotionPair(l: int, l2: int, p: char): seq<string>
    requires 0 <= l < 8 && 0 <= l2 < 8
  {
    var f, g := FileChar(l), FileChar(l2);
    [[f, '2', g, '1', p], [f, '7', g, '8', p]]
  }

  /** The promotion labels appended for file l and piece p: straight, then to the
      left file, then to the right file. */
  function PromotionBlock(l: int, p: char): seq<string>
    requires 0 <= l < 8
  {
    PromotionPair(l, l, p)
    + (if l > 0 then PromotionPair(l, l - 1, p) else [])
    + (if l < 7 then PromotionPair(l, l + 1, p) else [])
  }

  /** The promotion labels of file l for its first k pieces, in loop order. */
  function FilePromotions(l: int, k: nat): seq<string>
    requires 0 <= l < 8 && k <= 4
  {
    if k == 0 then [] else FilePromotions(l, k - 1) + PromotionBlock(l, PromotedTo[k - 1])
  }

  /** The promotion labels of the first k files. */
  function PromotionsBefore(k: nat): seq<string>
    requires k <= 8
  {
    Flatten(seq(k, l requires 0 <= l < k => FilePromotions(l, 4)))
  }

  /** The list create_uci_labels returns. */
  function UciLabels(): seq<string> {
    MovesBefore(8) + PromotionsBefore(8)
  }

  /** The body of the two outer loops for one origin: scan its destinations and
      append the label of each kept one. */
  method AppendOriginMoves(labels: seq<string>, l1: int, n1: int) returns (out: seq<string>)
    requires OnBoard(l1, n1)
    ensures out == labels + OriginMoves(l1, n1, Destinations(l1, n1))
  {
    out := labels;
    var destinations := Destinations(l1, n1);
    for j := 0 to |destinations|
      invariant out == labels + OriginMoves(l1, n1, destinations[..j])
    {
      assert destinations[..j + 1][..j] == destinations[..j];
      var (l2, n2) := destinations[j];
      if (l1, n1) != (l2, n2) && 0 <= l2 < 8 && 0 <= n2 < 8 {
        out := out + [[FileChar(l1), RankChar(n1), FileChar(l2), RankChar(n2)]];
      }
    }
    assert destinations[..|destinations|] == destinations;
  }

  /** The loop over the ranks of one file. */
  method AppendFileMoves(labels: seq<string>, l1: int) returns (out: seq<string>)
    requires 0 <= l1 < 8
    ensures out == labels + FileMoves(l1, 8)
  {
    out := labels;
    for n1 := 0 to 8
      invariant out == labels + FileMoves(l1, n1)
    {
      out := AppendOriginMoves(out, l1, n1);
    }
  }

  lemma MovesStep(l1: nat)
    requires l1 < 8
    ensures MovesBefore(l1 + 1) == MovesBefore(l1) + FileMoves(l1, 8)
  {
    var files := seq(l1 + 1, l requires 0 <= l < l1 + 1 => FileMoves(l, 8));
    assert files[..l1] == seq(l1, l requires 0 <= l < l1 => FileMoves(l, 8));
  }

  /** The body of the promotion loops for one file and one piece. */
  method AppendPromotions(labels: seq<string>, l1: int, p: char) returns (out: seq<string>)
    requires 0 <= l1 < 8
    ensures out == labels + PromotionBlock(l1, p)
  {
    var l := FileChar(l1);
    out := labels + [[l, '2', l, '1', p], [l, '7', l, '8', p]];
    if l1 > 0 {
      var ll := FileChar(l1 - 1);
      out := out + [[l, '2', ll, '1', p], [l, '7', ll, '8', p]];
    }
    if l1 < 7 {
      var lr := FileChar(l1 + 1);
      out := out + [[l, '2', lr, '1', p], [l, '7', lr, '8', p]];
    }
  }

  /** The inner promotion loop for one file: every piece in turn. */
  method AppendFilePromotions(labels: seq<string>, l1: int) returns (out: seq<string>)
    requires 0 <= l1 < 8
    ensures out == labels + FilePromotions(l1, 4)
  {
    out := labels;
    for pi := 0 to 4
      invariant out == labels + FilePromotions(l1, pi)
    {
      out := AppendPromotions(out, l1, PromotedTo[pi]);
      assert out == labels + (FilePromotions(l1, pi) + PromotionBlock(l1, PromotedTo[pi]));
    }
  }

  lemma PromotionsStep(l1: nat)
    requires l1 < 8
    ensures PromotionsBefore(l1 + 1) == PromotionsBefore(l1) + FilePromotions(l1, 4)
  {
    var files := seq(l1 + 1, l requires 0 <= l < l1 + 1 => FilePromotions(l, 4));
    assert files[..l1] == seq(l1, l requires 0 <= l < l1 => FilePromotions(l, 4));
  }

  /** The first two nested loops: every origin square, file by file. */
  method AllMoves() returns (labels: seq<string>)
    ensures labels == MovesBefore(8)
  {
    labels := [];
    for l1 := 0 to 8
      invariant labels == MovesBefore(l1)
    {
      labels := AppendFileMoves(labels, l1);
      MovesStep(l1);
    }
  }

  /** The promotion loops: every file, every piece. */
  method AllPromotions() returns (labels: seq<string>)
    ensures labels == PromotionsBefore(8)
  {
    labels := [];
    for l1 := 0 to 8
      invariant labels == PromotionsBefore(l1)
    {
      labels := AppendFilePromotions(labels, l1);
      PromotionsStep(l1);
    }
  }

  /** create_uci_labels(): the nested loops appending to labels_array. */
  method CreateUciLabels() returns (labels: seq<string>)
    ensures labels == UciLabels()
  {
    labels := AllMoves();
    var promotions := AllPromotions();
    labels := labels + promotions;
  }

  // ---------------------------------------------------------------------------
  // What the labels are: an independent description of the two kinds of label.

  function Abs(a: int): int {
    if a < 0 then -a else a
  }

  predicate IsKnightJump(a: int, b: int) {
    (Abs(a) == 1 && Abs(b) == 2) || (Abs(a) == 2 && Abs(b) == 1)
  }

  /** Two distinct squares on one rank, file or diagonal, or a knight jump apart. */
  predicate QueenOrKnightStep(l1: int, n1: int, l2: int, n2: int) {
    && (l1, n1) != (l2, n2)
    && (n2 == n1 || l2 == l1 || l2 - l1 == n2 - n1 || l2 - l1 == n1 - n2 || IsKnightJump(l2 - l1, n2 - n1))
  }

  /** A non-promotion label: four characters naming two squares on the board
      that are a queen line or a knight jump apart. */
  predicate IsMoveLabel(x: string) {
    && |x| == 4
    && IsFileChar(x[0]) && IsRankChar(x[1]) && IsFileChar(x[2]) && IsRankChar(x[3])
    && QueenOrKnightStep(FileOf(x[0]), RankOf(x[1]), FileOf(x[2]), RankOf(x[3]))
  }

  /** A promotion label: a pawn step from rank 2 to 1 or from rank 7 to 8, to the
      same or an adjacent file, then the piece promoted to. */
  predicate IsPromotionLabel(x: string) {
    && |x| == 5
    && IsFileChar(x[0]) && IsFileChar(x[2]) && -1 <= FileOf(x[2]) - FileOf(x[0]) <= 1
    && ((x[1] == '2' && x[3] == '1') || (x[1] == '7' && x[3] == '8'))
    && x[4] in PromotedTo
  }

  // ---------------------------------------------------------------------------
  // Uniqueness: every label has a key, and the keys increase along the list.

  function KnightIndex(a: int, b: int): int {
    if (a, b) == (-2, -1) then 0
    else if (a, b) == (-1, -2) then 1
    else if (a, b) == (-2, 1) then 2
    else if (a, b) == (1, -2) then 3
    else if (a, b) == (2, -1) then 4
    else if (a, b) == (-1, 2) then 5
    else if (a, b) == (2, 1) then 6
    else 7
  }

  /** A label made by Move reads back as the squares it was made from. */
  lemma MoveDecodes(l1: int, n1: int, l2: int, n2: int)
    requires OnBoard(l1, n1) && OnBoard(l2, n2)
    ensures var x := Move(l1, n1, l2, n2);
      && |x| == 4 && IsFileChar(x[0]) && IsRankChar(x[1]) && IsFileChar(x[2]) && IsRankChar(x[3])
      && FileOf(x[0]) == l1 && RankOf(x[1]) == n1 && FileOf(x[2]) == l2 && RankOf(x[3]) == n2
  {
  }

  /** Where (l2, n2) stands among the destinations of (l1, n1): the inverse of Destination. */
  function DestIndex(l1: int, n1: int, l2: int, n2: int): int {
    if n2 == n1 then l2
    else if l2 == l1 then 8 + n2
    else if l2 - l1 == n2 - n1 then 23 + (l2 - l1)
    else if l2 - l1 == n1 - n2 then 38 + (l2 - l1)
    else 46 + KnightIndex(l2 - l1, n2 - n1)
  }

  /** Every kept destination is a queen-line or knight step, and DestIndex finds it again. */
  lemma DestinationInverse(l1: int, n1: int, j: int)
    requires OnBoard(l1, n1) && 0 <= j < DestinationCount
    requires Kept(l1, n1, Destination(l1, n1, j))
    ensures var d := Destination(l1, n1, j);
      QueenOrKnightStep(l1, n1, d.0, d.1) && DestIndex(l1, n1, d.0, d.1) == j
  {
  }

  /** Every queen-line or knight step from (l1, n1) is one of its destinations. */
  lemma DestinationComplete(l1: int, n1: int, l2: int, n2: int)
    requires OnBoard(l1, n1) && OnBoard(l2, n2) && QueenOrKnightStep(l1, n1, l2, n2)
    ensures 0 <= DestIndex(l1, n1, l2, n2) < DestinationCount
    ensures Destination(l1, n1, DestIndex(l1, n1, l2, n2)) == (l2, n2)
  {
  }

  /** The position a move label takes in the construction order. */
  function MoveKey(x: string): int {
    if |x| < 4 then -1
    else 54 * (8 * FileOf(x[0]) + RankOf(x[1])) + DestIndex(FileOf(x[0]), RankOf(x[1]), FileOf(x[2]), RankOf(x[3]))
  }

  /** Move labels only, with keys strictly below `hi` and strictly increasing. */
  predicate MovesOrdered(s: seq<string>, lo: int, hi: int) {
    && (forall i :: 0 <= i < |s| ==> IsMoveLabel(s[i]) && lo <= MoveKey(s[i]) < hi)
    && (forall i, j :: 0 <= i < j < |s| ==> MoveKey(s[i]) < MoveKey(s[j]))
  }

  lemma MovesOrderedConcat(a: seq<string>, b: seq<string>, lo: int, mid: int, hi: int)
    requires lo <= mid <= hi
    requires MovesOrdered(a, lo, mid) && MovesOrdered(b, mid, hi)
    ensures MovesOrdered(a + b, lo, hi)
  {
    var s := a + b;
    forall i | 0 <= i < |s|
      ensures IsMoveLabel(s[i]) && lo <= MoveKey(s[i]) < hi
    {
      if i < |a| { assert s[i] == a[i]; } else { assert s[i] == b[i - |a|]; }
    }
    forall i, j | 0 <= i < j < |s|
      ensures MoveKey(s[i]) < MoveKey(s[j])
    {
      if j < |a| {
        assert s[i] == a[i] && s[j] == a[j];
      } else if i < |a| {
        assert s[i] == a[i] && s[j] == b[j - |a|];
      } else {
        assert s[i] == b[i - |a|] && s[j] == b[j - |a|];
      }
    }
  }

  /** One more step of the inner loop: the next destination, appended if kept. */
  lemma OriginMovesStep(l: int, n: int, j: nat)
    requires OnBoard(l, n) && 0 < j <= DestinationCount
    ensures var d := Destination(l, n, j - 1);
      OriginMoves(l, n, Destinations(l, n)[..j])
      == OriginMoves(l, n, Destinations(l, n)[..j - 1]) + (if Kept(l, n, d) then [Move(l, n, d.0, d.1)] else [])
  {
    var ds := Destinations(l, n);
    assert ds[..j][..j - 1] == ds[..j - 1];
    assert ds[..j][j - 1] == Destination(l, n, j - 1);
  }

  /** The label of the j-th destination has key j past the origin's base key. */
  lemma MoveKeyOfDestination(l: int, n: int, j: int)
    requires OnBoard(l, n) && 0 <= j < DestinationCount && Kept(l, n, Destination(l, n, j))
    ensures var d := Destination(l, n, j);
      MovesOrdered([Move(l, n, d.0, d.1)], 54 * (8 * l + n) + j, 54 * (8 * l + n) + j + 1)
  {
    var d := Destination(l, n, j);
    DestinationInverse(l, n, j);
    MoveDecodes(l, n, d.0, d.1);
  }

  lemma {:induction false} OriginMovesOrdered(l: int, n: int, j: nat)
    requires OnBoard(l, n) && j <= DestinationCount
    ensures MovesOrdered(OriginMoves(l, n, Destinations(l, n)[..j]), 54 * (8 * l + n), 54 * (8 * l + n) + j)
  {
    if j > 0 {
      var base := 54 * (8 * l + n);
      OriginMovesOrdered(l, n, j - 1);
      OriginMovesStep(l, n, j);
      var d := Destination(l, n, j - 1);
      var before := OriginMoves(l, n, Destinations(l, n)[..j - 1]);
      if Kept(l, n, d) {
        MoveKeyOfDestination(l, n, j - 1);
        MovesOrderedConcat(before, [Move(l, n, d.0, d.1)], base, base + j - 1, base + j);
      } else {
        assert before + [] == before;
      }
    }
  }

  lemma {:induction false} FileMovesOrdered(l: int, n: nat)
    requires 0 <= l < 8 && n <= 8
    ensures MovesOrdered(FileMoves(l, n), 54 * 8 * l, 54 * (8 * l + n))
  {
    if n > 0 {
      FileMovesOrdered(l, n - 1);
      OriginMovesOrdered(l, n - 1, DestinationCount);
      assert Destinations(l, n - 1)[..DestinationCount] == Destinations(l, n - 1);
      MovesOrderedConcat(FileMoves(l, n - 1), OriginMoves(l, n - 1, Destinations(l, n - 1)),
        54 * 8 * l, 54 * (8 * l + n - 1), 54 * (8 * l + n));
    }
  }

  lemma {:induction false} MovesBeforeOrdered(k: nat)
    requires k <= 8
    ensures MovesOrdered(MovesBefore(k), 0, 54 * 8 * k)
  {
    if k > 0 {
      MovesBeforeOrdered(k - 1);
      FileMovesOrdered(k - 1, 8);
      MovesStep(k - 1);
      MovesOrderedConcat(MovesBefore(k - 1), FileMoves(k - 1, 8), 0, 54 * 8 * (k - 1), 54 * 8 * k);
    }
  }

  function PieceIndex(c: char): int {
    if c == 'q' then 0 else if c == 'r' then 1 else if c == 'b' then 2 else 3
  }

  /** The position a promotion label takes in the construction order. */
  function PromotionKey(x: string): int {
    if |x| < 5 then -1
    else
      var side := if x[2] == x[0] then 0 else if FileOf(x[2]) < FileOf(x[0]) then 1 else 2;
      24 * FileOf(x[0]) + 6 * PieceIndex(x[4]) + 2 * side + (if x[1] == '7' then 1 else 0)
  }

  predicate PromotionsOrdered(s: seq<string>, lo: int, hi: int) {
    && (forall i :: 0 <= i < |s| ==> IsPromotionLabel(s[i]) && lo <= PromotionKey(s[i]) < hi)
    && (forall i, j :: 0 <= i < j < |s| ==> PromotionKey(s[i]) < PromotionKey(s[j]))
  }

  lemma PromotionsOrderedConcat(a: seq<string>, b: seq<string>, lo: int, mid: int, hi: int)
    requires lo <= mid <= hi
    requires PromotionsOrdered(a, lo, mid) && PromotionsOrdered(b, mid, hi)
    ensures PromotionsOrdered(a + b, lo, hi)
  {
    var s := a + b;
    forall i | 0 <= i < |s|
      ensures IsPromotionLabel(s[i]) && lo <= PromotionKey(s[i]) < hi
    {
      if i < |a| { assert s[i] == a[i]; } else { assert s[i] == b[i - |a|]; }
    }
    forall i, j | 0 <= i < j < |s|
      ensures PromotionKey(s[i]) < PromotionKey(s[j])
    {
      if j < |a| {
        assert s[i] == a[i] && s[j] == a[j];
      } else if i < |a| {
        assert s[i] == a[i] && s[j] == b[j - |a|];
      } else {
        assert s[i] == b[i - |a|] && s[j] == b[j - |a|];
      }
    }
  }

  lemma PromotionPairOrdered(l: int, l2: int, pi: int, side: int)
    requires 0 <= l < 8 && 0 <= l2 < 8 && 0 <= pi < 4
    requires side == (if l2 == l then 0 else if l2 == l - 1 then 1 else 2) && -1 <= l2 - l <= 1
    ensures var base := 24 * l + 6 * pi + 2 * side;
      PromotionsOrdered(PromotionPair(l, l2, PromotedTo[pi]), base, base + 2)
  {
    assert PieceIndex(PromotedTo[pi]) == pi;
  }

  /** The straight pair, then the pair towards the left file if there is one. */
  lemma StraightLeftOrdered(l: int, pi: int)
    requires 0 <= l < 8 && 0 <= pi < 4
    ensures var p, base := PromotedTo[pi], 24 * l + 6 * pi;
      PromotionsOrdered(PromotionPair(l, l, p) + (if l > 0 then PromotionPair(l, l - 1, p) else []), base, base + 4)
  {
    var p, base := PromotedTo[pi], 24 * l + 6 * pi;
    PromotionPairOrdered(l, l, pi, 0);
    if l > 0 {
      PromotionPairOrdered(l, l - 1, pi, 1);
      PromotionsOrderedConcat(PromotionPair(l, l, p), PromotionPair(l, l - 1, p), base, base + 2, base + 4);
    } else {
      assert PromotionPair(l, l, p) + [] == PromotionPair(l, l, p);
    }
  }

  lemma PromotionBlockOrdered(l: int, pi: int)
    requires 0 <= l < 8 && 0 <= pi < 4
    ensures PromotionsOrdered(PromotionBlock(l, PromotedTo[pi]), 24 * l + 6 * pi, 24 * l + 6 * pi + 6)
  {
    var p, base := PromotedTo[pi], 24 * l + 6 * pi;
    var front := PromotionPair(l, l, p) + (if l > 0 then PromotionPair(l, l - 1, p) else []);
    StraightLeftOrdered(l, pi);
    if l < 7 {
      PromotionPairOrdered(l, l + 1, pi, 2);
      PromotionsOrderedConcat(front, PromotionPair(l, l + 1, p), base, base + 4, base + 6);
    } else {
      assert front + [] == front;
    }
  }

  lemma {:induction false} FilePromotionsOrdered(l: int, k: nat)
    requires 0 <= l < 8 && k <= 4
    ensures PromotionsOrdered(FilePromotions(l, k), 24 * l, 24 * l + 6 * k)
  {
    if k > 0 {
      FilePromotionsOrdered(l, k - 1);
      PromotionBlockOrdered(l, k - 1);
      PromotionsOrderedConcat(FilePromotions(l, k - 1), PromotionBlock(l, PromotedTo[k - 1]),
        24 * l, 24 * l + 6 * (k - 1), 24 * l + 6 * k);
    }
  }

  lemma {:induction false} PromotionsBeforeOrdered(k: nat)
    requires k <= 8
    ensures PromotionsOrdered(PromotionsBefore(k), 0, 24 * k)
  {
    if k > 0 {
      PromotionsBeforeOrdered(k - 1);
      FilePromotionsOrdered(k - 1, 4);
      PromotionsStep(k - 1);
      PromotionsOrderedConcat(PromotionsBefore(k - 1), FilePromotions(k - 1, 4), 0, 24 * (k - 1), 24 * k);
    }
  }

  // ---------------------------------------------------------------------------
  // Completeness: every label of either kind is in the list.

  lemma InLeft(a: seq<string>, b: seq<string>, x: string)
    requires x in a
    ensures x in a + b
  {
  }

  lemma InRight(a: seq<string>, b: seq<string>, x: string)
    requires x in b
    ensures x in a + b
  {
  }

  lemma {:induction false} OriginMovesContain(l: int, n: int, j: nat, i: int)
    requires OnBoard(l, n) && 0 <= i < j <= DestinationCount
    requires Kept(l, n, Destination(l, n, i))
    ensures Move(l, n, Destination(l, n, i).0, Destination(l, n, i).1) in OriginMoves(l, n, Destinations(l, n)[..j])
  {
    var ds := Destinations(l, n);
    assert ds[..j][..j - 1] == ds[..j - 1];
    if i < j - 1 {
      OriginMovesContain(l, n, j - 1, i);
    } else {
      assert ds[..j][j - 1] == Destination(l, n, i);
    }
  }

  lemma {:induction false} FileMovesContain(l: int, n: nat, r: int, x: string)
    requires 0 <= l < 8 && 0 <= r < n <= 8
    requires x in OriginMoves(l, r, Destinations(l, r))
    ensures x in FileMoves(l, n)
  {
    if r < n - 1 {
      FileMovesContain(l, n - 1, r, x);
    }
  }

  lemma {:induction false} MovesBeforeContain(k: nat, l: int, x: string)
    requires 0 <= l < k <= 8
    requires x in FileMoves(l, 8)
    ensures x in MovesBefore(k)
  {
    MovesStep(k - 1);
    if l < k - 1 {
      MovesBeforeContain(k - 1, l, x);
      InLeft(MovesBefore(k - 1), FileMoves(k - 1, 8), x);
    } else {
      InRight(MovesBefore(k - 1), FileMoves(k - 1, 8), x);
    }
  }

  lemma MoveLabelListed(x: string, k: nat)
    requires IsMoveLabel(x) && FileOf(x[0]) < k <= 8
    ensures x in MovesBefore(k)
  {
    var l1, n1, l2, n2 := FileOf(x[0]), RankOf(x[1]), FileOf(x[2]), RankOf(x[3]);
    DestinationComplete(l1, n1, l2, n2);
    var j := DestIndex(l1, n1, l2, n2);
    assert Move(l1, n1, l2, n2) == x;
    OriginMovesContain(l1, n1, DestinationCount, j);
    assert Destinations(l1, n1)[..DestinationCount] == Destinations(l1, n1);
    FileMovesContain(l1, 8, n1, x);
    MovesBeforeContain(k, l1, x);
  }

  lemma {:induction false} FilePromotionsContain(l: int, k: nat, pi: int, x: string)
    requires 0 <= l < 8 && 0 <= pi < k <= 4
    requires x in PromotionBlock(l, PromotedTo[pi])
    ensures x in FilePromotions(l, k)
  {
    if pi < k - 1 {
      FilePromotionsContain(l, k - 1, pi, x);
    }
  }

  lemma {:induction false} PromotionsBeforeContain(k: nat, l: int, x: string)
    requires 0 <= l < k <= 8
    requires x in FilePromotions(l, 4)
    ensures x in PromotionsBefore(k)
  {
    PromotionsStep(k - 1);
    if l < k - 1 {
      PromotionsBeforeContain(k - 1, l, x);
      InLeft(PromotionsBefore(k - 1), FilePromotions(k - 1, 4), x);
    } else {
      InRight(PromotionsBefore(k - 1), FilePromotions(k - 1, 4), x);
    }
  }

  lemma PromotionLabelListed(x: string, k: nat)
    requires IsPromotionLabel(x) && FileOf(x[0]) < k <= 8
    ensures x in PromotionsBefore(k)
  {
    var l, pi := FileOf(x[0]), PieceIndex(x[4]);
    assert PromotedTo[pi] == x[4];
    var block := PromotionBlock(l, x[4]);
    assert x[0] == FileChar(l);
    if x[2] == x[0] {
      assert x == block[if x[1] == '2' then 0 else 1];
    } else if FileOf(x[2]) < l {
      assert x[2] == FileChar(l - 1);
      assert x == block[if x[1] == '2' then 2 else 3];
    } else {
      assert x[2] == FileChar(l + 1);
      assert x == block[(if l > 0 then 4 else 2) + (if x[1] == '2' then 0 else 1)];
    }
    FilePromotionsContain(l, 4, pi, x);
    PromotionsBeforeContain(k, l, x);
  }

  /** The labels of the first k files: no label occurs twice. */
  lemma LabelsBeforeUnique(k: nat)
    requires k <= 8
    ensures Unique(MovesBefore(k) + PromotionsBefore(k))
  {
    var moves, promotions := MovesBefore(k), PromotionsBefore(k);
    MovesBeforeOrdered(k);
    PromotionsBeforeOrdered(k);
    var all := moves + promotions;
    forall i, j | 0 <= i < j < |all|
      ensures all[i] != all[j]
    {
      if j < |moves| {
        assert all[i] == moves[i] && all[j] == moves[j];
        assert MoveKey(moves[i]) < MoveKey(moves[j]);
      } else if i < |moves| {
        assert all[i] == moves[i] && all[j] == promotions[j - |moves|];
        assert |all[i]| == 4 && |all[j]| == 5;
      } else {
        assert all[i] == promotions[i - |moves|] && all[j] == promotions[j - |moves|];
        assert PromotionKey(promotions[i - |moves|]) < PromotionKey(promotions[j - |moves|]);
      }
    }
  }

  /** The key of a move label lies in the block of its origin file. */
  lemma MoveKeyFile(x: string)
    requires IsMoveLabel(x)
    ensures 432 * FileOf(x[0]) <= MoveKey(x) < 432 * (FileOf(x[0]) + 1)
  {
    var l1, n1, l2, n2 := FileOf(x[0]), RankOf(x[1]), FileOf(x[2]), RankOf(x[3]);
    DestinationComplete(l1, n1, l2, n2);
  }

  lemma MoveMember(s: seq<string>, lo: int, hi: int, x: string)
    requires MovesOrdered(s, lo, hi) && x in s
    ensures IsMoveLabel(x) && lo <= MoveKey(x) < hi
  {
    var i :| 0 <= i < |s| && s[i] == x;
  }

  lemma PromotionMember(s: seq<string>, lo: int, hi: int, x: string)
    requires PromotionsOrdered(s, lo, hi) && x in s
    ensures IsPromotionLabel(x) && lo <= PromotionKey(x) < hi
  {
    var i :| 0 <= i < |s| && s[i] == x;
  }

  lemma MoveListedSound(k: nat, x: string)
    requires k <= 8 && x in MovesBefore(k)
    ensures IsMoveLabel(x) && FileOf(x[0]) < k
  {
    MovesBeforeOrdered(k);
    MoveMember(MovesBefore(k), 0, 432 * k, x);
    MoveKeyFile(x);
  }

  lemma PromotionListedSound(k: nat, x: string)
    requires k <= 8 && x in PromotionsBefore(k)
    ensures IsPromotionLabel(x) && FileOf(x[0]) < k
  {
    PromotionsBeforeOrdered(k);
    PromotionMember(PromotionsBefore(k), 0, 24 * k, x);
  }

  /** Every label of the first k files is a move or promotion label from one of them. */
  lemma LabelsBeforeSound(k: nat, x: string)
    requires k <= 8 && x in MovesBefore(k) + PromotionsBefore(k)
    ensures (IsMoveLabel(x) || IsPromotionLabel(x)) && FileOf(x[0]) < k
  {
    if x in MovesBefore(k) {
      MoveListedSound(k, x);
    } else {
      PromotionListedSound(k, x);
    }
  }

  /** The labels of the first k files are exactly the move and promotion labels
      whose origin lies on one of those files. */
  lemma LabelsBeforeCharacterized(k: nat, x: string)
    requires k <= 8
    ensures x in MovesBefore(k) + PromotionsBefore(k) <==>
      (IsMoveLabel(x) || IsPromotionLabel(x)) && FileOf(x[0]) < k
  {
    var moves, promotions := MovesBefore(k), PromotionsBefore(k);
    if x in moves + promotions {
      LabelsBeforeSound(k, x);
    } else if IsMoveLabel(x) && FileOf(x[0]) < k {
      MoveLabelListed(x, k);
      InLeft(moves, promotions, x);
    } else if IsPromotionLabel(x) && FileOf(x[0]) < k {
      PromotionLabelListed(x, k);
      InRight(moves, promotions, x);
    }
  }

  /** No label of create_uci_labels occurs twice. */
  lemma UciLabelsUnique()
    ensures Unique(UciLabels())
  {
    LabelsBeforeUnique(8);
  }

  /** list.index: the first position of `a` in `labels`, or None where Python
      raises ValueError. */
  function IndexOf(labels: seq<string>, a: string): (r: Option<nat>)
    ensures r.Some? ==> r.value < |labels| && labels[r.value] == a
    ensures r.Some? ==> forall i :: 0 <= i < r.value ==> labels[i] != a
    ensures r.None? ==> forall i :: 0 <= i < |labels| ==> labels[i] != a
  {
    if |labels| == 0 then None
    else if labels[0] == a then Some(0)
    else
      match IndexOf(labels[1..], a)
      case None => None
      case Some(i) => Some(i + 1)
  }

  /** In a list without repeats, index finds every entry at its own position. */
  lemma IndexOfUnique(labels: seq<string>, i: int)
    requires Unique(labels) && 0 <= i < |labels|
    ensures IndexOf(labels, labels[i]) == Some(i)
  {
  }

  lemma LabelsBeforeIndex(k: nat, x: string)
    requires k <= 8
    ensures IndexOf(MovesBefore(k) + PromotionsBefore(k), x).Some? <==>
      (IsMoveLabel(x) || IsPromotionLabel(x)) && FileOf(x[0]) < k
  {
    LabelsBeforeCharacterized(k, x);
  }

  /** create_uci_labels().index(x) succeeds exactly when x is a queen-line or
      knight move between two squares or a pawn promotion to q, r, b or n. */
  lemma UciLabelsIndex(x: string)
    ensures IndexOf(UciLabels(), x).Some? <==> IsMoveLabel(x) || IsPromotionLabel(x)
  {
    LabelsBeforeIndex(8, x);
  }

  // ---------------------------------------------------------------------------
  // How many labels there are: 1792 moves and 176 promotions.

  function Min(a: int, b: int): int {
    if a < b then a else b
  }

  function Max(a: int, b: int): int {
    if a < b then b else a
  }

  /** How many of the first k knight jumps from (l, n) stay on the board. */
  function KnightsOnBoard(l: int, n: int, k: nat): nat
    requires k <= 8
  {
    if k == 0 then 0
    else KnightsOnBoard(l, n, k - 1) + (if OnBoard(l + KnightJumps[k - 1].0, n + KnightJumps[k - 1].1) then 1 else 0)
  }

  /** The number of move labels from (l, n): seven along the rank, seven along the
      file, the squares on both diagonals, and the knight jumps that stay on the board. */
  function OriginCount(l: int, n: int): int {
    14 + Min(l, n) + Min(7 - l, 7 - n) + Min(l, 7 - n) + Min(7 - l, n) + KnightsOnBoard(l, n, 8)
  }

  /** The number of labels the first j destinations of (l, n) give. */
  function PrefixCount(l: int, n: int, j: int): int
    requires 0 <= j <= DestinationCount
  {
    var diagonal := Min(l, n) + Min(7 - l, 7 - n);
    if j <= 8 then j - (if l < j then 1 else 0)
    else if j <= 16 then 7 + (j - 8) - (if n < j - 8 then 1 else 0)
    else if j <= 31 then 14 + Max(0, Min(j - 23, Min(7 - l, 7 - n) + 1) + Min(l, n)) - (if j > 23 then 1 else 0)
    else if j <= 46 then 14 + diagonal + Max(0, Min(j - 38, Min(7 - l, n) + 1) + Min(l, 7 - n)) - (if j > 38 then 1 else 0)
    else 14 + diagonal + Min(l, 7 - n) + Min(7 - l, n) + KnightsOnBoard(l, n, j - 46)
  }

  /** Each destination adds one to the count exactly when it is kept. */
  lemma PrefixCountStep(l: int, n: int, j: int)
    requires OnBoard(l, n) && 0 < j <= DestinationCount
    ensures PrefixCount(l, n, j) == PrefixCount(l, n, j - 1) + (if Kept(l, n, Destination(l, n, j - 1)) then 1 else 0)
  {
    if j <= 16 {
      LineCountStep(l, n, j);
    } else if j <= 46 {
      DiagonalCountStep(l, n, j);
    } else {
      KnightCountStep(l, n, j);
    }
  }

  lemma LineCountStep(l: int, n: int, j: int)
    requires OnBoard(l, n) && 0 < j <= 16
    ensures PrefixCount(l, n, j) == PrefixCount(l, n, j - 1) + (if Kept(l, n, Destination(l, n, j - 1)) then 1 else 0)
  {
  }

  lemma DiagonalCountStep(l: int, n: int, j: int)
    requires OnBoard(l, n) && 16 < j <= 46
    ensures PrefixCount(l, n, j) == PrefixCount(l, n, j - 1) + (if Kept(l, n, Destination(l, n, j - 1)) then 1 else 0)
  {
    if j <= 31 {
    } else {
    }
  }

  lemma KnightCountStep(l: int, n: int, j: int)
    requires OnBoard(l, n) && 46 < j <= DestinationCount
    ensures PrefixCount(l, n, j) == PrefixCount(l, n, j - 1) + (if Kept(l, n, Destination(l, n, j - 1)) then 1 else 0)
  {
    if j == 47 {
      assert Min(8, Min(7 - l, n) + 1) == Min(7 - l, n) + 1;
      assert KnightsOnBoard(l, n, 0) == 0;
      assert Destination(l, n, 46) == (l - 2, n - 1);
    }
  }

  lemma {:induction false} OriginMovesCount(l: int, n: int, j: nat)
    requires OnBoard(l, n) && j <= DestinationCount
    ensures |OriginMoves(l, n, Destinations(l, n)[..j])| == PrefixCount(l, n, j)
  {
    if j > 0 {
      OriginMovesCount(l, n, j - 1);
      OriginMovesStep(l, n, j);
      PrefixCountStep(l, n, j);
    }
  }

  /** The number of move labels of each origin on file l with rank below n. */
  function RankTotals(l: int, n: nat): seq<int> {
    seq(n, r requires 0 <= r < n => OriginCount(l, r))
  }

  lemma {:induction false} FileMovesCount(l: int, n: nat)
    requires 0 <= l < 8 && n <= 8
    ensures |FileMoves(l, n)| == Sum(RankTotals(l, n))
  {
    if n > 0 {
      FileMovesCount(l, n - 1);
      OriginMovesCount(l, n - 1, DestinationCount);
      assert Destinations(l, n - 1)[..DestinationCount] == Destinations(l, n - 1);
      assert RankTotals(l, n)[..n - 1] == RankTotals(l, n - 1);
    }
  }

  /** The number of move labels of each of the first k files. */
  function FileTotals(k: nat): seq<int> {
    seq(k, l requires 0 <= l < k => Sum(RankTotals(l, 8)))
  }

  lemma {:induction false} MovesBeforeCount(k: nat)
    requires k <= 8
    ensures |MovesBefore(k)| == Sum(FileTotals(k))
  {
    if k > 0 {
      MovesBeforeCount(k - 1);
      MovesStep(k - 1);
      FileMovesCount(k - 1, 8);
      assert FileTotals(k)[..k - 1] == FileTotals(k - 1);
    }
  }

  /** The number of move labels of each file, a to h. */
  const FileTotalTable: seq<int> := [194, 218, 240, 244, 244, 240, 218, 194]

  lemma FileATotal(l: int)
    requires l == 0
    ensures Sum(RankTotals(l, 8)) == 194
  {
    assert OriginCount(0, 0) == 23 && OriginCount(0, 1) == 24 && OriginCount(0, 2) == 25 && OriginCount(0, 3) == 25;
    assert OriginCount(0, 4) == 25 && OriginCount(0, 5) == 25 && OriginCount(0, 6) == 24 && OriginCount(0, 7) == 23;
    SumOfEight(RankTotals(l, 8));
  }

  lemma FileBTotal(l: int)
    requires l == 1
    ensures Sum(RankTotals(l, 8)) == 218
  {
    assert OriginCount(1, 0) == 24 && OriginCount(1, 1) == 27 && OriginCount(1, 2) == 29 && OriginCount(1, 3) == 29;
    assert OriginCount(1, 4) == 29 && OriginCount(1, 5) == 29 && OriginCount(1, 6) == 27 && OriginCount(1, 7) == 24;
    SumOfEight(RankTotals(l, 8));
  }

  lemma FileCTotal(l: int)
    requires l == 2
    ensures Sum(RankTotals(l, 8)) == 240
  {
    assert OriginCount(2, 0) == 25 && OriginCount(2, 1) == 29 && OriginCount(2, 2) == 33 && OriginCount(2, 3) == 33;
    assert OriginCount(2, 4) == 33 && OriginCount(2, 5) == 33 && OriginCount(2, 6) == 29 && OriginCount(2, 7) == 25;
    SumOfEight(RankTotals(l, 8));
  }

  lemma FileDTotal(l: int)
    requires l == 3
    ensures Sum(RankTotals(l, 8)) == 244
  {
    assert OriginCount(3, 0) == 25 && OriginCount(3, 1) == 29 && OriginCount(3, 2) == 33 && OriginCount(3, 3) == 35;
    assert OriginCount(3, 4) == 35 && OriginCount(3, 5) == 33 && OriginCount(3, 6) == 29 && OriginCount(3, 7) == 25;
    SumOfEight(RankTotals(l, 8));
  }

  lemma FileETotal(l: int)
    requires l == 4
    ensures Sum(RankTotals(l, 8)) == 244
  {
    assert OriginCount(4, 0) == 25 && OriginCount(4, 1) == 29 && OriginCount(4, 2) == 33 && OriginCount(4, 3) == 35;
    assert OriginCount(4, 4) == 35 && OriginCount(4, 5) == 33 && OriginCount(4, 6) == 29 && OriginCount(4, 7) == 25;
    SumOfEight(RankTotals(l, 8));
  }

  lemma FileFTotal(l: int)
    requires l == 5
    ensures Sum(RankTotals(l, 8)) == 240
  {
    assert OriginCount(5, 0) == 25 && OriginCount(5, 1) == 29 && OriginCount(5, 2) == 33 && OriginCount(5, 3) == 33;
    assert OriginCount(5, 4) == 33 && OriginCount(5, 5) == 33 && OriginCount(5, 6) == 29 && OriginCount(5, 7) == 25;
    SumOfEight(RankTotals(l, 8));
  }

  lemma FileGTotal(l: int)
    requires l == 6
    ensures Sum(RankTotals(l, 8)) == 218
  {
    assert OriginCount(6, 0) == 24 && OriginCount(6, 1) == 27 && OriginCount(6, 2) == 29 && OriginCount(6, 3) == 29;
    assert OriginCount(6, 4) == 29 && OriginCount(6, 5) == 29 && OriginCount(6, 6) == 27 && OriginCount(6, 7) == 24;
    SumOfEight(RankTotals(l, 8));
  }

  lemma FileHTotal(l: int)
    requires l == 7
    ensures Sum(RankTotals(l, 8)) == 194
  {
    assert OriginCount(7, 0) == 23 && OriginCount(7, 1) == 24 && OriginCount(7, 2) == 25 && OriginCount(7, 3) == 25;
    assert OriginCount(7, 4) == 25 && OriginCount(7, 5) == 25 && OriginCount(7, 6) == 24 && OriginCount(7, 7) == 23;
    SumOfEight(RankTotals(l, 8));
  }

  lemma FileTotal(l: int)
    requires 0 <= l < 8
    ensures Sum(RankTotals(l, 8)) == FileTotalTable[l]
  {
    if l == 0 { FileATotal(l); }
    else if l == 1 { FileBTotal(l); }
    else if l == 2 { FileCTotal(l); }
    else if l == 3 { FileDTotal(l); }
    else if l == 4 { FileETotal(l); }
    else if l == 5 { FileFTotal(l); }
    else if l == 6 { FileGTotal(l); }
    else { FileHTotal(l); }
  }

  /** The running totals of move labels after each file. */
  const MovesAfterFile: seq<int> := [0, 194, 412, 652, 896, 1140, 1380, 1598, 1792]

  lemma {:induction false} MoveCountValue(k: nat)
    requires k <= 8
    ensures Sum(FileTotals(k)) == MovesAfterFile[k]
  {
    if k > 0 {
      MoveCountValue(k - 1);
      FileTotal(k - 1);
      assert FileTotals(k)[..k - 1] == FileTotals(k - 1);
    }
  }

  /** Two labels per direction: straight, and towards each neighbouring file that exists. */
  function BlockSize(l: int): int {
    2 + (if l > 0 then 2 else 0) + (if l < 7 then 2 else 0)
  }

  lemma {:induction false} FilePromotionsCount(l: int, k: nat)
    requires 0 <= l < 8 && k <= 4
    ensures |FilePromotions(l, k)| == k * BlockSize(l)
  {
    if k > 0 {
      FilePromotionsCount(l, k - 1);
    }
  }

  lemma {:induction false} PromotionsBeforeCount(k: nat)
    requires k <= 8
    ensures |PromotionsBefore(k)| == 24 * k - (if k > 0 then 8 else 0) - (if k == 8 then 8 else 0)
  {
    if k > 0 {
      PromotionsBeforeCount(k - 1);
      PromotionsStep(k - 1);
      FilePromotionsCount(k - 1, 4);
    }
  }

  /** create_uci_labels returns 1792 move labels followed by 176 promotion labels. */
  lemma UciLabelsCount()
    ensures |MovesBefore(8)| == 1792 && |PromotionsBefore(8)| == 176
    ensures |UciLabels()| == 1968
  {
    MovesBeforeCount(8);
    MoveCountValue(8);
    PromotionsBeforeCount(8);
  }
}

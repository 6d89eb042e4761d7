/** position_planes, helper_planes and get_canonical_board: a FEN string as a
    stack of 8x8 integer grids, 12 piece planes followed by 6 helper planes. */
module Planes {
  import opened Failures
  import opened Text
  import opened Perspective
  import Vocabulary
  import Sequences

  /** Eight rows of eight columns; a stack of grids is a Tensor. */
  type Grid = seq<seq<int>>
  type Tensor = seq<Grid>

  /** pieces_order: the piece letter of each occupancy plane. */
  const PieceOrder: string := "KQRBNPkqrbnp"

  /** str.isalpha() on one character (ASCII letters). */
  predicate IsAlpha(c: char) {
    'A' <= c <= 'Z' || 'a' <= c <= 'z'
  }

  /** A tensor of shape (depth, 8, 8). */
  predicate HasShape(t: Tensor, depth: nat) {
    && |t| == depth
    && (forall p :: 0 <= p < depth ==> |t[p]| == 8)
    && (forall p, r :: 0 <= p < depth && 0 <= r < 8 ==> |t[p][r]| == 8)
  }

  /** No letter names two planes, and every plane is named by a letter. */
  lemma PieceOrderLetters()
    ensures forall p, q :: 0 <= p < q < 12 ==> PieceOrder[p] != PieceOrder[q]
    ensures forall p :: 0 <= p < 12 ==> IsAlpha(PieceOrder[p])
  {
  }

  /** The first position of c in s. */
  function Find(s: string, c: char): (r: Option<nat>)
    ensures r.Some? ==> r.value < |s| && s[r.value] == c
    ensures r.None? <==> c !in s
  {
    if |s| == 0 then None
    else if s[0] == c then Some(0)
    else match Find(s[1..], c)
      case None => None
      case Some(i) => Some(i + 1)
  }

  /** pieces_dict[c]: the plane of a piece letter; any other character raises KeyError. */
  function PlaneIndex(c: char): (r: Result<nat>)
    ensures r.Ok? <==> c in PieceOrder
    ensures r.Ok? ==> r.value < 12 && PieceOrder[r.value] == c
    ensures r.Err? ==> r.error == KeyError
  {
    match Find(PieceOrder, c)
      case None => Err(KeyError)
      case Some(i) => Ok(i)
  }

  // ---------------------------------------------------------------------------
  // The squares of a placement field.

  /** '1' * k. */
  function Ones(k: nat): (s: string)
    ensures |s| == k && forall i :: 0 <= i < k ==> s[i] == '1'
  {
    seq(k, _ => '1')
  }

  /** check_location[idx] after the rewrite: a digit d becomes d empty squares
      written '1', any other character stays as it is. */
  function Expand(c: char): string {
    if IsDigit(c) then Ones(DigitValue(c)) else [c]
  }

  /** s.replace("/", ""). */
  function RemoveSlashes(s: string): string {
    if |s| == 0 then "" else (if s[0] == '/' then "" else [s[0]]) + RemoveSlashes(s[1..])
  }

  /** The squares a placement field describes, in reading order: a piece as its
      letter, an empty square as '1'; rank separators name no square. */
  function Squares(placement: string): string {
    if |placement| == 0 then ""
    else (if placement[0] == '/' then "" else Expand(placement[0])) + Squares(placement[1..])
  }

  lemma RemoveSlashesAppend(a: string, b: string)
    ensures RemoveSlashes(a + b) == RemoveSlashes(a) + RemoveSlashes(b)
  {
    if |a| > 0 {
      assert (a + b)[1..] == a[1..] + b;
      RemoveSlashesAppend(a[1..], b);
    } else {
      assert a + b == b;
    }
  }

  lemma RemoveSlashesExpand(c: char)
    ensures RemoveSlashes(Expand(c)) == if c == '/' then "" else Expand(c)
  {
    var e := Expand(c);
    if IsDigit(c) {
      RemoveSlashesOnes(DigitValue(c));
    } else {
      assert e[1..] == "";
    }
  }

  lemma {:induction false} RemoveSlashesOnes(k: nat)
    ensures RemoveSlashes(Ones(k)) == Ones(k)
  {
    if k > 0 {
      assert Ones(k)[1..] == Ones(k - 1);
      RemoveSlashesOnes(k - 1);
      assert [Ones(k)[0]] + Ones(k - 1) == Ones(k);
    }
  }

  /** The list position_planes builds from the placement field: each character
      rewritten, a digit as that many '1's. */
  function ExpandEach(placement: string): seq<string> {
    seq(|placement|, i requires 0 <= i < |placement| => Expand(placement[i]))
  }

  lemma ExpandEachJoin(placement: string)
    requires |placement| > 1
    ensures Join(ExpandEach(placement), "") == Expand(placement[0]) + Join(ExpandEach(placement[1..]), "")
  {
    assert ExpandEach(placement)[1..] == ExpandEach(placement[1..]);
  }

  /** The rewrite loop, the join and the replace of position_planes compute the
      squares of the placement field. */
  lemma {:induction false} ExpandedSquares(placement: string)
    ensures RemoveSlashes(Join(ExpandEach(placement), "")) == Squares(placement)
  {
    if |placement| == 1 {
      RemoveSlashesExpand(placement[0]);
      assert Squares(placement[1..]) == "";
    } else if |placement| > 1 {
      ExpandEachJoin(placement);
      RemoveSlashesAppend(Expand(placement[0]), Join(ExpandEach(placement[1..]), ""));
      RemoveSlashesExpand(placement[0]);
      ExpandedSquares(placement[1..]);
    }
  }

  // ---------------------------------------------------------------------------
  // position_planes

  /** A letter that names no piece: pieces_dict has no entry for it. */
  predicate Unknown(c: char) {
    IsAlpha(c) && c !in PieceOrder
  }

  /** What the row/column loop of position_planes raises. It reads the first 64
      squares in order: a letter naming no piece raises KeyError, running out of
      squares raises IndexError; squares after the 64th are never read. */
  function PlacementFault(squares: string): Option<Error> {
    if exists i :: 0 <= i < |squares| && i < 64 && Unknown(squares[i]) then Some(KeyError)
    else if |squares| < 64 then Some(IndexError)
    else None
  }

  /** Plane p holds a one exactly where square 8 * r + c is the letter of piece p. */
  function Occupancy(squares: string): Tensor
    requires |squares| >= 64
  {
    seq(12, p requires 0 <= p < 12 =>
      seq(8, r requires 0 <= r < 8 =>
        seq(8, c requires 0 <= c < 8 => if squares[8 * r + c] == PieceOrder[p] then 1 else 0)))
  }

  /** position_planes(board) as a value. */
  function PositionPlanesOf(board: string): Result<Tensor> {
    var fields := Split(board);
    if |fields| == 0 then Err(IndexError)
    else
      var squares := Squares(fields[0]);
      match PlacementFault(squares)
        case Some(e) => Err(e)
        case None => Ok(Occupancy(squares))
  }

  /** The first half of position_planes: each digit of the placement field is
      rewritten in place into its run of empty squares, then the pieces are
      joined and the slashes removed. */
  method ExpandPlacement(placement: string) returns (squares: string)
    ensures squares == Squares(placement)
  {
    var location := seq(|placement|, i requires 0 <= i < |placement| => [placement[i]]);
    for idx := 0 to |placement|
      invariant |location| == |placement|
      invariant forall i :: 0 <= i < idx ==> location[i] == Expand(placement[i])
      invariant forall i :: idx <= i < |placement| ==> location[i] == [placement[i]]
    {
      var c := location[idx][0];
      location := location[idx := if IsDigit(c) then Ones(DigitValue(c)) else [c]];
    }
    assert location == ExpandEach(placement);
    squares := RemoveSlashes(Join(location, ""));
    ExpandedSquares(placement);
  }

  /** planes[p][r][c] is set for every square before (row, column) in reading order. */
  ghost predicate FilledBefore(planes: array3<int>, squares: string, row: int, column: int)
    requires planes.Length0 == 12 && planes.Length1 == 8 && planes.Length2 == 8
    requires 0 <= row <= 8 && 0 <= column <= 8 && (row < 8 || column == 0)
    requires 8 * row + column <= |squares|
    reads planes
  {
    forall p, r, c :: 0 <= p < 12 && 0 <= r < 8 && 0 <= c < 8 ==>
      planes[p, r, c] == if (r < row || (r == row && c < column)) && squares[8 * r + c] == PieceOrder[p] then 1 else 0
  }

  /** The body of the inner loop of position_planes: the square at (row, column). */
  method FillSquare(planes: array3<int>, squares: string, row: int, column: int) returns (fault: Option<Error>)
    requires planes.Length0 == 12 && planes.Length1 == 8 && planes.Length2 == 8
    requires 0 <= row < 8 && 0 <= column < 8 && 8 * row + column <= |squares|
    requires FilledBefore(planes, squares, row, column)
    modifies planes
    ensures fault.None? ==> && 8 * row + column < |squares| && !Unknown(squares[8 * row + column])
                            && FilledBefore(planes, squares, row, column + 1)
    ensures fault == Some(KeyError) ==> 8 * row + column < |squares| && Unknown(squares[8 * row + column])
    ensures fault == Some(IndexError) ==> |squares| == 8 * row + column
    ensures fault.None? || fault == Some(KeyError) || fault == Some(IndexError)
  {
    PieceOrderLetters();
    var k := 8 * row + column;
    if k >= |squares| {
      return Some(IndexError);
    }
    var piece := squares[k];
    if IsAlpha(piece) {
      var plane := PlaneIndex(piece);
      if plane.Err? {
        return Some(KeyError);
      }
      label Before:
      planes[plane.value, row, column] := 1;
      forall p, r, c | 0 <= p < 12 && 0 <= r < 8 && 0 <= c < 8
        ensures planes[p, r, c] == if (r < row || (r == row && c < column + 1)) && squares[8 * r + c] == PieceOrder[p] then 1 else 0
      {
        if r == row && c == column {
          assert squares[8 * r + c] == PieceOrder[plane.value];
        } else {
          assert planes[p, r, c] == old@Before(planes[p, r, c]);
        }
      }
    } else {
      forall p | 0 <= p < 12
        ensures squares[k] != PieceOrder[p]
      {
      }
    }
    return None;
  }

  /** One pass of the outer loop of position_planes: the squares of one row. */
  method FillRow(planes: array3<int>, squares: string, row: int) returns (fault: Option<Error>)
    requires planes.Length0 == 12 && planes.Length1 == 8 && planes.Length2 == 8
    requires 0 <= row < 8 && 8 * row <= |squares|
    requires forall i :: 0 <= i < 8 * row ==> !Unknown(squares[i])
    requires FilledBefore(planes, squares, row, 0)
    modifies planes
    ensures fault.None? ==> && 8 * row + 8 <= |squares|
                            && (forall i :: 0 <= i < 8 * row + 8 ==> !Unknown(squares[i]))
                            && FilledBefore(planes, squares, row + 1, 0)
    ensures fault == Some(KeyError) ==> exists i :: 8 * row <= i < |squares| && i < 8 * row + 8 && Unknown(squares[i])
    ensures fault == Some(IndexError) ==> |squares| < 8 * row + 8 && forall i :: 0 <= i < |squares| ==> !Unknown(squares[i])
    ensures fault.None? || fault == Some(KeyError) || fault == Some(IndexError)
  {
    for column := 0 to 8
      invariant 8 * row + column <= |squares|
      invariant forall i :: 0 <= i < 8 * row + column ==> !Unknown(squares[i])
      invariant FilledBefore(planes, squares, row, column)
    {
      fault := FillSquare(planes, squares, row, column);
      if fault.Some? {
        return;
      }
    }
    assert FilledBefore(planes, squares, row + 1, 0);
    return None;
  }

  /** The second half of position_planes: a zeroed (12, 8, 8) array is filled
      row by row and column by column from the first 64 squares. */
  method FillPlanes(squares: string) returns (res: Result<array3<int>>)
    ensures res.Err? <==> PlacementFault(squares).Some?
    ensures res.Err? ==> res.error == PlacementFault(squares).value
    ensures res.Ok? ==> && fresh(res.value)
                        && res.value.Length0 == 12 && res.value.Length1 == 8 && res.value.Length2 == 8
                        && forall p, r, c :: 0 <= p < 12 && 0 <= r < 8 && 0 <= c < 8 ==>
                             res.value[p, r, c] == Occupancy(squares)[p][r][c]
  {
    var planes := new int[12, 8, 8]((p, r, c) => 0);
    for row := 0 to 8
      invariant 8 * row <= |squares|
      invariant forall i :: 0 <= i < 8 * row ==> !Unknown(squares[i])
      invariant FilledBefore(planes, squares, row, 0)
    {
      var fault := FillRow(planes, squares, row);
      if fault.Some? {
        return Err(fault.value);
      }
    }
    assert FilledBefore(planes, squares, 8, 0);
    return Ok(planes);
  }

  /** position_planes(board). */
  method PositionPlanes(board: string) returns (res: Result<array3<int>>)
    ensures res.Err? <==> PositionPlanesOf(board).Err?
    ensures res.Err? ==> res.error == PositionPlanesOf(board).error
    ensures res.Ok? ==> && fresh(res.value)
                        && res.value.Length0 == 12 && res.value.Length1 == 8 && res.value.Length2 == 8
                        && forall p, r, c :: 0 <= p < 12 && 0 <= r < 8 && 0 <= c < 8 ==>
                             res.value[p, r, c] == PositionPlanesOf(board).value[p][r][c]
  {
    var fields := Split(board);
    if |fields| == 0 {
      return Err(IndexError);
    }
    var squares := ExpandPlacement(fields[0]);
    res := FillPlanes(squares);
  }
  // ---------------------------------------------------------------------------
  // Counting ones.

  /** The sum of all entries of a grid. */
  function GridSum(g: Grid): int {
    Sequences.Sum(seq(|g|, r requires 0 <= r < |g| => Sequences.Sum(g[r])))
  }

  /** One for each position of s holding x, zero elsewhere. */
  function Indicator<T(==)>(s: seq<T>, x: T): seq<int> {
    seq(|s|, i requires 0 <= i < |s| => if s[i] == x then 1 else 0)
  }

  /** The number of letters among the characters of s. */
  function LetterCount(s: string): int {
    Sequences.Sum(seq(|s|, i requires 0 <= i < |s| => Flag(IsAlpha(s[i]))))
  }

  lemma {:induction false} IndicatorSum<T>(s: seq<T>, x: T)
    ensures Sequences.Sum(Indicator(s, x)) == multiset(s)[x]
  {
    if |s| > 0 {
      var init := s[..|s| - 1];
      IndicatorSum(init, x);
      assert Indicator(s, x)[..|s| - 1] == Indicator(init, x);
      assert s == init + [s[|s| - 1]];
    }
  }

  lemma {:induction false} SumAdd(a: seq<int>, b: seq<int>, c: seq<int>)
    requires |a| == |b| == |c|
    requires forall i :: 0 <= i < |c| ==> c[i] == a[i] + b[i]
    ensures Sequences.Sum(c) == Sequences.Sum(a) + Sequences.Sum(b)
  {
    if |c| > 0 {
      var n := |c| - 1;
      SumAdd(a[..n], b[..n], c[..n]);
    }
  }

  lemma {:induction false} CountDistinct<T>(s: seq<T>, x: T)
    requires Sequences.Unique(s)
    ensures multiset(s)[x] == if x in s then 1 else 0
  {
    if |s| > 0 {
      var init := s[..|s| - 1];
      CountDistinct(init, x);
      assert s == init + [s[|s| - 1]];
      if x == s[|s| - 1] {
        assert x !in init;
      }
    }
  }

  /** Each letter names at most one plane. */
  lemma PieceOrderCount(x: char)
    ensures multiset(PieceOrder)[x] == if x in PieceOrder then 1 else 0
  {
    PieceOrderLetters();
    CountDistinct(PieceOrder, x);
  }

  /** The number of rows of 8 squares holding x, row by row, adds up to the count over all of them. */
  lemma {:induction false} RowsCount(squares: string, x: char, n: nat)
    requires 8 * n <= |squares|
    ensures Sequences.Sum(seq(n, r requires 0 <= r < n => multiset(squares[8 * r..8 * r + 8])[x]))
            == multiset(squares[..8 * n])[x]
  {
    if n > 0 {
      RowsCount(squares, x, n - 1);
      var rows := seq(n, r requires 0 <= r < n => multiset(squares[8 * r..8 * r + 8])[x]);
      assert rows[..n - 1] == seq(n - 1, r requires 0 <= r < n - 1 => multiset(squares[8 * r..8 * r + 8])[x]);
      assert squares[..8 * n] == squares[..8 * (n - 1)] + squares[8 * (n - 1)..8 * n];
    }
  }

  // ---------------------------------------------------------------------------
  // What position_planes computes.

  /** position_planes succeeds exactly when the board has a placement field whose
      first 64 squares exist and hold no letter outside KQRBNPkqrbnp; it fails
      with IndexError or KeyError. */
  lemma PositionPlanesSucceeds(board: string)
    ensures PositionPlanesOf(board).Ok? <==>
      && |Split(board)| > 0
      && |Squares(Split(board)[0])| >= 64
      && forall i :: 0 <= i < 64 ==> !Unknown(Squares(Split(board)[0])[i])
    ensures PositionPlanesOf(board).Err? ==>
      PositionPlanesOf(board).error == IndexError || PositionPlanesOf(board).error == KeyError
  {
  }

  /** The planes have shape (12, 8, 8), hold only zeros and ones, and plane p is
      one exactly on the squares holding piece PieceOrder[p]. */
  lemma PositionPlanesOccupancy(board: string)
    requires PositionPlanesOf(board).Ok?
    ensures var t, squares := PositionPlanesOf(board).value, Squares(Split(board)[0]);
      && HasShape(t, 12)
      && forall p, r, c :: 0 <= p < 12 && 0 <= r < 8 && 0 <= c < 8 ==>
           && (t[p][r][c] == 0 || t[p][r][c] == 1)
           && (t[p][r][c] == 1 <==> squares[8 * r + c] == PieceOrder[p])
  {
  }

  /** A square is set on exactly one plane when it holds a piece and on none when it is empty. */
  lemma OnePlanePerSquare(board: string, r: int, c: int)
    requires PositionPlanesOf(board).Ok? && 0 <= r < 8 && 0 <= c < 8
    ensures var t, squares := PositionPlanesOf(board).value, Squares(Split(board)[0]);
      Sequences.Sum(seq(12, p requires 0 <= p < 12 => t[p][r][c])) == Flag(IsAlpha(squares[8 * r + c]))
  {
    var t, squares := PositionPlanesOf(board).value, Squares(Split(board)[0]);
    var x := squares[8 * r + c];
    assert seq(12, p requires 0 <= p < 12 => t[p][r][c]) == Indicator(PieceOrder, x);
    IndicatorSum(PieceOrder, x);
    PieceOrderCount(x);
    PieceOrderLetters();
  }

  /** Plane p holds as many ones as there are pieces PieceOrder[p] on the board. */
  lemma PlaneCount(board: string, p: int)
    requires PositionPlanesOf(board).Ok? && 0 <= p < 12
    ensures var t, squares := PositionPlanesOf(board).value, Squares(Split(board)[0]);
      GridSum(t[p]) == multiset(squares[..64])[PieceOrder[p]]
  {
    var t, squares := PositionPlanesOf(board).value, Squares(Split(board)[0]);
    var x := PieceOrder[p];
    forall r | 0 <= r < 8
      ensures Sequences.Sum(t[p][r]) == multiset(squares[8 * r..8 * r + 8])[x]
    {
      assert t[p][r] == Indicator(squares[8 * r..8 * r + 8], x);
      IndicatorSum(squares[8 * r..8 * r + 8], x);
    }
    assert seq(8, r requires 0 <= r < 8 => Sequences.Sum(t[p][r]))
        == seq(8, r requires 0 <= r < 8 => multiset(squares[8 * r..8 * r + 8])[x]);
    RowsCount(squares, x, 8);
  }

  lemma LetterCountStep(s: string, n: int)
    requires 0 < n <= |s|
    ensures LetterCount(s[..n]) == LetterCount(s[..n - 1]) + Flag(IsAlpha(s[n - 1]))
  {
    var letters := seq(n, i requires 0 <= i < n => Flag(IsAlpha(s[..n][i])));
    assert letters[..n - 1] == seq(n - 1, i requires 0 <= i < n - 1 => Flag(IsAlpha(s[..n - 1][i])));
  }

  /** Over the twelve piece letters, a character matches one exactly when it is a letter it may be. */
  lemma PieceColumn(x: char)
    requires !Unknown(x)
    ensures Sequences.Sum(Indicator(PieceOrder, x)) == Flag(IsAlpha(x))
  {
    IndicatorSum(PieceOrder, x);
    PieceOrderCount(x);
    PieceOrderLetters();
  }

  lemma {:induction false} PiecesCounted(squares: string, n: nat)
    requires n <= |squares|
    requires forall i :: 0 <= i < n ==> !Unknown(squares[i])
    ensures Sequences.Sum(seq(12, p requires 0 <= p < 12 => multiset(squares[..n])[PieceOrder[p]]))
            == LetterCount(squares[..n])
  {
    var c := seq(12, p requires 0 <= p < 12 => multiset(squares[..n])[PieceOrder[p]]);
    if n == 0 {
      SumAdd(c, c, c);
    } else {
      PiecesCounted(squares, n - 1);
      var x := squares[n - 1];
      var a := seq(12, p requires 0 <= p < 12 => multiset(squares[..n - 1])[PieceOrder[p]]);
      var b := Indicator(PieceOrder, x);
      assert multiset(squares[..n]) == multiset(squares[..n - 1]) + multiset{x} by {
        assert squares[..n] == squares[..n - 1] + [x];
      }
      forall p | 0 <= p < 12
        ensures c[p] == a[p] + b[p]
      {
      }
      SumAdd(a, b, c);
      PieceColumn(x);
      LetterCountStep(squares, n);
    }
  }

  /** Over all twelve planes, the ones count the letters among the 64 squares. */
  lemma PieceTotal(board: string)
    requires PositionPlanesOf(board).Ok?
    ensures var t, squares := PositionPlanesOf(board).value, Squares(Split(board)[0]);
      Sequences.Sum(seq(12, p requires 0 <= p < 12 => GridSum(t[p]))) == LetterCount(squares[..64])
  {
    var t, squares := PositionPlanesOf(board).value, Squares(Split(board)[0]);
    forall p | 0 <= p < 12
      ensures GridSum(t[p]) == multiset(squares[..64])[PieceOrder[p]]
    {
      PlaneCount(board, p);
    }
    assert seq(12, p requires 0 <= p < 12 => GridSum(t[p]))
        == seq(12, p requires 0 <= p < 12 => multiset(squares[..64])[PieceOrder[p]]);
    PiecesCounted(squares, 64);
  }

  // ---------------------------------------------------------------------------
  // helper_planes

  /** int(b) for a boolean. */
  function Flag(b: bool): int {
    if b then 1 else 0
  }

  /** numpy indexing into an axis of length 8: positions -8 to 7, a negative one
      counted from the end; any other position raises IndexError. */
  function AxisIndex(i: int): (r: Result<nat>)
    ensures r.Ok? <==> -8 <= i < 8
    ensures r.Ok? ==> r.value < 8 && r.value == i % 8
    ensures r.Err? ==> r.error == IndexError
  {
    if 0 <= i < 8 then Ok(i) else if -8 <= i < 0 then Ok(i + 8) else Err(IndexError)
  }

  /** np.full((8, 8), v). */
  function Full(v: int): (g: Grid)
    ensures |g| == 8 && forall r :: 0 <= r < 8 ==> |g[r]| == 8 && forall c :: 0 <= c < 8 ==> g[r][c] == v
  {
    seq(8, _ => seq(8, _ => v))
  }

  /** A zero grid with a single one at (row, column). */
  function OneHot(row: nat, column: nat): Grid
    requires row < 8 && column < 8
  {
    seq(8, r requires 0 <= r < 8 => seq(8, c requires 0 <= c < 8 => if r == row && c == column then 1 else 0))
  }

  /** An 8x8 grid whose entries are all 0 or 1. */
  predicate Binary(g: Grid) {
    && |g| == 8
    && (forall r :: 0 <= r < 8 ==> |g[r]| == 8)
    && (forall r, c :: 0 <= r < 8 && 0 <= c < 8 ==> g[r][c] == 0 || g[r][c] == 1)
  }

  /** The en-passant plane of field 3: zero for "-"; otherwise a one at row
      8 - int(target[1]) and column ord(target[0]) - ord('a'), each indexed as numpy does. */
  function EnPassantPlane(target: string): (plane: Result<Grid>)
    ensures plane.Ok? ==> Binary(plane.value)
    ensures plane.Err? ==> plane.error == IndexError || plane.error == ValueError
  {
    if target == "-" then Ok(Full(0))
    else if |target| < 2 then Err(IndexError)
    else
      match ParseInt([target[1]])
        case Err(e) => Err(e)
        case Ok(rank) =>
          match AxisIndex(8 - rank)
            case Err(e) => Err(e)
            case Ok(row) =>
              match AxisIndex(target[0] as int - 'a' as int)
                case Err(e) => Err(e)
                case Ok(column) => Ok(OneHot(row, column))
  }

  /** The stack helper_planes builds from a castling field, a halfmove count and
      an en-passant plane. */
  function HelperStack(castling: string, halfmove: int, enPassant: Grid): Tensor {
    [Full(Flag('K' in castling)), Full(Flag('Q' in castling)),
     Full(Flag('k' in castling)), Full(Flag('q' in castling)),
     Full(halfmove), enPassant]
  }

  /** helper_planes(board): four castling planes, the halfmove-clock plane and
      the en-passant plane. Field 3 is read before field 4. */
  function HelperPlanes(board: string): (planes: Result<Tensor>)
    ensures planes.Ok? ==> HasShape(planes.value, 6)
    ensures planes.Err? ==> planes.error == IndexError || planes.error == ValueError
  {
    var fields := Split(board);
    if |fields| < 4 then Err(IndexError)
    else
      match EnPassantPlane(fields[3])
        case Err(e) => Err(e)
        case Ok(enPassant) =>
          if |fields| < 5 then Err(IndexError)
          else
            match ParseInt(fields[4])
              case Err(e) => Err(e)
              case Ok(halfmove) =>
                Ok(HelperStack(fields[2], halfmove, enPassant))
  }

  // ---------------------------------------------------------------------------
  // get_canonical_board

  /** The board the planes are computed from: change_perspective(board) when
      perspective is set, the board itself otherwise. */
  function Oriented(board: string, perspective: bool): Result<string> {
    if perspective then ChangePerspective(board) else Ok(board)
  }

  /** get_canonical_board(board, perspective) as a value: the position planes
      stacked on the helper planes, both of the oriented board. */
  function CanonicalBoard(board: string, perspective: bool): Result<Tensor> {
    match Oriented(board, perspective)
      case Err(e) => Err(e)
      case Ok(b) =>
        match PositionPlanesOf(b)
          case Err(e) => Err(e)
          case Ok(position) =>
            match HelperPlanes(b)
              case Err(e) => Err(e)
              case Ok(helper) => Ok(position + helper)
  }

  /** get_canonical_board(board, perspective): np.vstack of the two plane stacks. */
  method GetCanonicalBoard(board: string, perspective: bool) returns (res: Result<Tensor>)
    ensures res == CanonicalBoard(board, perspective)
  {
    var oriented := board;
    if perspective {
      var changed := ChangePerspective(board);
      if changed.Err? {
        return Err(changed.error);
      }
      oriented := changed.value;
    }
    var position := PositionPlanes(oriented);
    if position.Err? {
      return Err(position.error);
    }
    var helper := HelperPlanes(oriented);
    if helper.Err? {
      return Err(helper.error);
    }
    var planes := position.value;
    var stacked := seq(12, p requires 0 <= p < 12 reads planes =>
      seq(8, r requires 0 <= r < 8 reads planes => seq(8, c requires 0 <= c < 8 reads planes => planes[p, r, c])));
    ghost var expected := PositionPlanesOf(oriented).value;
    forall p | 0 <= p < 12
      ensures stacked[p] == expected[p]
    {
      forall r | 0 <= r < 8
        ensures stacked[p][r] == expected[p][r]
      {
      }
    }
    assert stacked == expected;
    return Ok(stacked + helper.value);
  }

  // ---------------------------------------------------------------------------
  // What helper_planes computes.

  /** Every entry of an 8x8 grid equals v. */
  predicate Constant(g: Grid, v: int) {
    && |g| == 8
    && (forall r :: 0 <= r < 8 ==> |g[r]| == 8)
    && (forall r, c :: 0 <= r < 8 && 0 <= c < 8 ==> g[r][c] == v)
  }

  lemma {:induction false} SumSingle(a: seq<int>, k: int)
    requires forall i :: 0 <= i < |a| ==> a[i] == if i == k then 1 else 0
    ensures Sequences.Sum(a) == if 0 <= k < |a| then 1 else 0
  {
    if |a| > 0 {
      SumSingle(a[..|a| - 1], k);
    }
  }

  /** The en-passant field is read as numpy reads it. It is accepted when it is
      "-" or a character from 'Y' to 'h' followed by a digit from 1 to 9, names
      off the board wrapping round to the other edge; a rank that is not a digit
      raises ValueError and every other failure is an IndexError. */
  lemma EnPassantPlaneSucceeds(target: string)
    ensures EnPassantPlane(target).Ok? <==>
      target == "-" || (|target| >= 2 && '1' <= target[1] <= '9' && 'Y' <= target[0] <= 'h')
    ensures EnPassantPlane(target).Err? ==>
      && (EnPassantPlane(target).error == ValueError <==> |target| >= 2 && !IsDigit(target[1]))
      && (EnPassantPlane(target).error == IndexError || EnPassantPlane(target).error == ValueError)
  {
    if |target| >= 2 {
      ParseOneChar(target[1]);
    }
  }

  /** For a square name such as "e3" the plane is one exactly on the square that
      name denotes: row 8 - rank, column file - 'a'. */
  lemma EnPassantSquare(target: string)
    requires |target| >= 2 && Vocabulary.IsFileChar(target[0]) && Vocabulary.IsRankChar(target[1])
    ensures EnPassantPlane(target).Ok?
    ensures var g := EnPassantPlane(target).value;
      forall r, c :: 0 <= r < 8 && 0 <= c < 8 ==>
        (g[r][c] == 1 <==> [Vocabulary.FileChar(c), Vocabulary.RankChar(7 - r)] == target[..2])
  {
    ParseOneChar(target[1]);
    assert target != "-";
  }

  lemma FullSum(v: int)
    ensures GridSum(Full(v)) == 8 * 8 * v
  {
    var g := Full(v);
    var rows := seq(8, r requires 0 <= r < 8 => Sequences.Sum(g[r]));
    forall r | 0 <= r < 8
      ensures rows[r] == 8 * v
    {
      Sequences.SumOfEight(g[r]);
    }
    Sequences.SumOfEight(rows);
  }

  lemma OneHotSum(row: nat, column: nat)
    requires row < 8 && column < 8
    ensures GridSum(OneHot(row, column)) == 1
  {
    var g := OneHot(row, column);
    forall r | 0 <= r < 8
      ensures Sequences.Sum(g[r]) == if r == row then 1 else 0
    {
      SumSingle(g[r], if r == row then column else -1);
    }
    SumSingle(seq(8, r requires 0 <= r < 8 => Sequences.Sum(g[r])), row);
  }

  /** The en-passant plane is all zeros for "-" and otherwise zeros with a single one. */
  lemma EnPassantOneHot(target: string)
    requires EnPassantPlane(target).Ok?
    ensures var g := EnPassantPlane(target).value;
      && |g| == 8
      && (forall r :: 0 <= r < 8 ==> |g[r]| == 8)
      && (forall r, c :: 0 <= r < 8 && 0 <= c < 8 ==> g[r][c] == 0 || g[r][c] == 1)
      && GridSum(g) == if target == "-" then 0 else 1
  {
    if target == "-" {
      FullSum(0);
    } else {
      ParseOneChar(target[1]);
      var row := AxisIndex(8 - DigitValue(target[1])).value;
      var column := AxisIndex(target[0] as int - 'a' as int).value;
      OneHotSum(row, column);
    }
  }

  lemma FullConstant(v: int, w: int)
    ensures Constant(Full(v), w) <==> v == w
  {
    assert Full(v)[0][0] == v;
  }

  /** helper_planes succeeds exactly when the board has five fields, an
      en-passant field it can read and an integer halfmove clock. */
  lemma HelperPlanesSucceeds(board: string)
    ensures var fields := Split(board);
      HelperPlanes(board).Ok? <==>
        |fields| >= 5 && EnPassantPlane(fields[3]).Ok? && ParseInt(fields[4]).Ok?
    ensures HelperPlanes(board).Err? ==>
      HelperPlanes(board).error == IndexError || HelperPlanes(board).error == ValueError
  {
    var fields := Split(board);
    if |fields| >= 4 {
      EnPassantPlaneSucceeds(fields[3]);
    }
  }

  lemma HelperPlanesValue(board: string)
    requires HelperPlanes(board).Ok?
    ensures var fields := Split(board);
      && |fields| >= 5 && EnPassantPlane(fields[3]).Ok? && ParseInt(fields[4]).Ok?
      && HelperPlanes(board).value == HelperStack(fields[2], ParseInt(fields[4]).value, EnPassantPlane(fields[3]).value)
  {
  }

  lemma CastlingPlane(castling: string, right: char)
    ensures Constant(Full(Flag(right in castling)), 1) <==> right in castling
    ensures Constant(Full(Flag(right in castling)), 0) <==> right !in castling
  {
    FullConstant(Flag(right in castling), 1);
    FullConstant(Flag(right in castling), 0);
  }

  lemma HelperStackContents(castling: string, halfmove: int, enPassant: Grid)
    requires |enPassant| == 8 && forall r :: 0 <= r < 8 ==> |enPassant[r]| == 8
    ensures var t := HelperStack(castling, halfmove, enPassant);
      && HasShape(t, 6)
      && (Constant(t[0], 1) <==> 'K' in castling) && (Constant(t[0], 0) <==> 'K' !in castling)
      && (Constant(t[1], 1) <==> 'Q' in castling) && (Constant(t[1], 0) <==> 'Q' !in castling)
      && (Constant(t[2], 1) <==> 'k' in castling) && (Constant(t[2], 0) <==> 'k' !in castling)
      && (Constant(t[3], 1) <==> 'q' in castling) && (Constant(t[3], 0) <==> 'q' !in castling)
      && Constant(t[4], halfmove)
      && t[5] == enPassant
  {
    var t := HelperStack(castling, halfmove, enPassant);
    CastlingPlane(castling, 'K');
    CastlingPlane(castling, 'Q');
    CastlingPlane(castling, 'k');
    CastlingPlane(castling, 'q');
    FullConstant(halfmove, halfmove);
    forall p | 0 <= p < 6
      ensures |t[p]| == 8 && forall r :: 0 <= r < 8 ==> |t[p][r]| == 8
    {
      if p < 5 {
        assert t[p] == Full(if p == 4 then halfmove else t[p][0][0]);
      }
    }
  }

  /** The six helper planes: shape (6, 8, 8); planes 0 to 3 are all ones when
      K, Q, k, q respectively appear in the castling field and all zeros when
      not; plane 4 is int(halfmove) everywhere; plane 5 is the en-passant plane. */
  lemma HelperPlanesContents(board: string)
    requires HelperPlanes(board).Ok?
    ensures var t, fields := HelperPlanes(board).value, Split(board);
      && HasShape(t, 6)
      && (Constant(t[0], 1) <==> 'K' in fields[2]) && (Constant(t[0], 0) <==> 'K' !in fields[2])
      && (Constant(t[1], 1) <==> 'Q' in fields[2]) && (Constant(t[1], 0) <==> 'Q' !in fields[2])
      && (Constant(t[2], 1) <==> 'k' in fields[2]) && (Constant(t[2], 0) <==> 'k' !in fields[2])
      && (Constant(t[3], 1) <==> 'q' in fields[2]) && (Constant(t[3], 0) <==> 'q' !in fields[2])
      && ParseInt(fields[4]).Ok? && Constant(t[4], ParseInt(fields[4]).value)
      && t[5] == EnPassantPlane(fields[3]).value
  {
    var fields := Split(board);
    HelperPlanesValue(board);
    EnPassantOneHot(fields[3]);
    HelperStackContents(fields[2], ParseInt(fields[4]).value, EnPassantPlane(fields[3]).value);
  }

  // ---------------------------------------------------------------------------
  // What get_canonical_board computes.

  /** Two boards with the same fields give the same planes. */
  lemma SameFieldsSamePlanes(a: string, b: string)
    requires Split(a) == Split(b)
    ensures PositionPlanesOf(a) == PositionPlanesOf(b)
    ensures HelperPlanes(a) == HelperPlanes(b)
  {
  }

  /** The canonical board has shape (18, 8, 8): the 12 position planes of the
      oriented board followed by its 6 helper planes. */
  lemma CanonicalShape(board: string, perspective: bool)
    requires CanonicalBoard(board, perspective).Ok?
    ensures var t, b := CanonicalBoard(board, perspective).value, Oriented(board, perspective).value;
      && HasShape(t, 18)
      && t[..12] == PositionPlanesOf(b).value
      && t[12..] == HelperPlanes(b).value
  {
    var b := Oriented(board, perspective).value;
    PositionPlanesOccupancy(b);
    HelperPlanesContents(b);
    var position, helper := PositionPlanesOf(b).value, HelperPlanes(b).value;
    assert (position + helper)[..12] == position;
    assert (position + helper)[12..] == helper;
  }

  /** With white to move the perspective flag makes no difference; with fewer
      than two fields both settings fail. */
  lemma WhiteToMoveFlagIrrelevant(board: string)
    requires |Split(board)| < 2 || Split(board)[1] != "b"
    ensures |Split(board)| >= 2 ==> CanonicalBoard(board, true) == CanonicalBoard(board, false)
    ensures |Split(board)| < 2 ==> CanonicalBoard(board, true).Err? && CanonicalBoard(board, false).Err?
  {
    if |Split(board)| >= 2 {
      WhiteToMoveUnchanged(board);
      SameFieldsSamePlanes(ChangePerspective(board).value, board);
    }
  }

  // ---------------------------------------------------------------------------
  // With black to move the canonical board is the raw board turned round.

  /** A placement field of eight ranks, each describing eight squares. */
  predicate EightByEight(placement: string) {
    var ranks := SplitOn(placement, '/');
    |ranks| == 8 && forall i :: 0 <= i < 8 ==> |Squares(ranks[i])| == 8
  }

  /** The plane of the same piece of the other colour. */
  function OtherColour(p: int): int
    requires 0 <= p < 12
  {
    if p < 6 then p + 6 else p - 6
  }

  lemma {:induction false} SquaresAppend(a: string, b: string)
    ensures Squares(a + b) == Squares(a) + Squares(b)
  {
    if |a| > 0 {
      assert (a + b)[1..] == a[1..] + b;
      SquaresAppend(a[1..], b);
    } else {
      assert a + b == b;
    }
  }

  /** The squares of ranks joined with '/' are the squares of each rank in turn. */
  lemma {:induction false} SquaresOfJoin(parts: seq<string>)
    ensures Squares(Join(parts, "/")) == Join(seq(|parts|, i requires 0 <= i < |parts| => Squares(parts[i])), "")
  {
    var blocks := seq(|parts|, i requires 0 <= i < |parts| => Squares(parts[i]));
    if |parts| == 1 {
    } else if |parts| > 1 {
      var rest := Join(parts[1..], "/");
      SquaresOfJoin(parts[1..]);
      SquaresAppend(parts[0] + "/", rest);
      SquaresAppend(parts[0], "/");
      assert Squares("/") == "";
      assert blocks[1..] == seq(|parts| - 1, i requires 0 <= i < |parts| - 1 => Squares(parts[1..][i]));
    }
  }

  lemma {:induction false} BlockLength(blocks: seq<string>)
    requires forall i :: 0 <= i < |blocks| ==> |blocks[i]| == 8
    ensures |Join(blocks, "")| == 8 * |blocks|
  {
    if |blocks| > 1 {
      BlockLength(blocks[1..]);
    }
  }

  /** Square c of block r is character 8 * r + c of the blocks joined. */
  lemma {:induction false} BlockIndex(blocks: seq<string>, r: int, c: int)
    requires forall i :: 0 <= i < |blocks| ==> |blocks[i]| == 8
    requires 0 <= r < |blocks| && 0 <= c < 8
    ensures |Join(blocks, "")| == 8 * |blocks|
    ensures Join(blocks, "")[8 * r + c] == blocks[r][c]
  {
    BlockLength(blocks);
    if r > 0 {
      BlockIndex(blocks[1..], r - 1, c);
    }
  }

  lemma SwapCaseTwice(x: char)
    ensures SwapCaseChar(SwapCaseChar(x)) == x
  {
  }

  lemma SwapCaseOnes(k: nat)
    ensures SwapCase(Ones(k)) == Ones(k)
  {
  }

  /** Swapping case commutes with reading the squares: digits and '/' keep their case. */
  lemma {:induction false} SquaresSwapCase(x: string)
    ensures Squares(SwapCase(x)) == SwapCase(Squares(x))
  {
    if |x| > 0 {
      var y := SwapCase(x);
      assert y[1..] == SwapCase(x[1..]);
      SquaresSwapCase(x[1..]);
      var head := if x[0] == '/' then "" else Expand(x[0]);
      assert Squares(x) == head + Squares(x[1..]);
      assert SwapCase(head + Squares(x[1..])) == SwapCase(head) + SwapCase(Squares(x[1..]));
      if IsDigit(x[0]) {
        SwapCaseOnes(DigitValue(x[0]));
      }
    }
  }

  lemma SwapEachReversed(parts: seq<string>, i: int)
    requires 0 <= i < |parts|
    ensures |SwapEach(Reversed(parts))| == |parts|
    ensures SwapEach(Reversed(parts))[i] == SwapCase(parts[|parts| - 1 - i])
  {
  }

  lemma MirroredRanks(ranks: seq<string>, mirrored: seq<string>)
    requires |ranks| == 8 && forall i :: 0 <= i < 8 ==> |Squares(ranks[i])| == 8
    requires mirrored == SwapEach(Reversed(ranks))
    ensures |mirrored| == 8
    ensures forall i :: 0 <= i < 8 ==> Squares(mirrored[i]) == SwapCase(Squares(ranks[7 - i]))
    ensures forall i :: 0 <= i < 8 ==> |Squares(mirrored[i])| == 8
  {
    forall i | 0 <= i < 8
      ensures Squares(mirrored[i]) == SwapCase(Squares(ranks[7 - i]))
    {
      SwapEachReversed(ranks, i);
      SquaresSwapCase(ranks[7 - i]);
    }
  }

  /** The squares of a placement, rank by rank. */
  function RankBlocks(placement: string): seq<string> {
    var ranks := SplitOn(placement, '/');
    seq(|ranks|, i requires 0 <= i < |ranks| => Squares(ranks[i]))
  }

  lemma RankBlocksJoin(placement: string)
    ensures Squares(placement) == Join(RankBlocks(placement), "")
  {
    JoinSplitOn(placement, '/');
    SquaresOfJoin(SplitOn(placement, '/'));
  }

  lemma MirroredRankBlocks(placement: string, mirror: string)
    requires EightByEight(placement)
    requires SplitOn(mirror, '/') == SwapEach(Reversed(SplitOn(placement, '/')))
    ensures |RankBlocks(mirror)| == 8 && |RankBlocks(placement)| == 8
    ensures forall k :: 0 <= k < 8 ==> |RankBlocks(placement)[k]| == 8 && RankBlocks(mirror)[k] == SwapCase(RankBlocks(placement)[7 - k])
  {
    var ranks, mirrored := SplitOn(placement, '/'), SplitOn(mirror, '/');
    MirroredRanks(ranks, mirrored);
    forall k | 0 <= k < 8
      ensures |RankBlocks(placement)[k]| == 8 && RankBlocks(mirror)[k] == SwapCase(RankBlocks(placement)[7 - k])
    {
      assert RankBlocks(placement)[k] == Squares(ranks[k]);
      assert RankBlocks(placement)[7 - k] == Squares(ranks[7 - k]);
      assert RankBlocks(mirror)[k] == Squares(mirrored[k]);
    }
  }

  /** Eight blocks of eight, each the case-swapped block of the other list in
      reverse order: square i of the one joined is square Flip(i) of the other,
      case swapped. */
  lemma MirroredBlockSquare(seen: seq<string>, raw: seq<string>, i: int)
    requires |seen| == 8 && |raw| == 8 && 0 <= i < 64
    requires forall k :: 0 <= k < 8 ==> |raw[k]| == 8 && |seen[k]| == 8
    requires forall k :: 0 <= k < 8 ==> seen[k] == SwapCase(raw[7 - k])
    ensures |Join(seen, "")| == 64 && |Join(raw, "")| == 64 && 0 <= Flip(i) < 64
    ensures Join(seen, "")[i] == SwapCaseChar(Join(raw, "")[Flip(i)])
  {
    var r, c := i / 8, i % 8;
    assert 0 <= r < 8 && 0 <= c < 8 && i == 8 * r + c;
    FlipSquare(r, c);
    BlockIndex(seen, r, c);
    BlockIndex(raw, 7 - r, c);
    assert seen[r] == SwapCase(raw[7 - r]);
  }

  lemma MirroredBlocks(seen: seq<string>, raw: seq<string>)
    requires |seen| == 8 && |raw| == 8
    requires forall k :: 0 <= k < 8 ==> |raw[k]| == 8 && seen[k] == SwapCase(raw[7 - k])
    ensures |Join(seen, "")| == 64 && |Join(raw, "")| == 64
    ensures forall i :: 0 <= i < 64 ==> 0 <= Flip(i) < 64 && Join(seen, "")[i] == SwapCaseChar(Join(raw, "")[Flip(i)])
  {
    forall k | 0 <= k < 8
      ensures |seen[k]| == 8
    {
      assert |raw[7 - k]| == 8;
    }
    BlockLength(raw);
    BlockLength(seen);
    forall i | 0 <= i < 64
      ensures 0 <= Flip(i) < 64 && Join(seen, "")[i] == SwapCaseChar(Join(raw, "")[Flip(i)])
    {
      MirroredBlockSquare(seen, raw, i);
    }
  }

  /** Changing colour maps the letter of each plane to the letter of the other colour's plane. */
  lemma PieceOrderSwap()
    ensures forall p :: 0 <= p < 12 ==> SwapCaseChar(PieceOrder[p]) == PieceOrder[OtherColour(p)]
  {
  }

  lemma SquareMirror(p: int, y: char)
    requires 0 <= p < 12
    ensures SwapCaseChar(y) == PieceOrder[p] <==> y == PieceOrder[OtherColour(p)]
  {
    PieceOrderSwap();
    SwapCaseTwice(y);
    SwapCaseTwice(PieceOrder[OtherColour(p)]);
    assert OtherColour(OtherColour(p)) == p;
  }

  /** A letter names no piece exactly when its other-case letter names none. */
  lemma UnknownSwap(x: char)
    ensures Unknown(SwapCaseChar(x)) <==> Unknown(x)
  {
    PieceOrderSwap();
    SwapCaseTwice(x);
    if x in PieceOrder {
      var p :| 0 <= p < 12 && PieceOrder[p] == x;
      assert SwapCaseChar(x) == PieceOrder[OtherColour(p)];
    }
    if SwapCaseChar(x) in PieceOrder {
      var p :| 0 <= p < 12 && PieceOrder[p] == SwapCaseChar(x);
      assert x == PieceOrder[OtherColour(p)];
    }
  }

  lemma SwapCaseMember(s: string, x: char)
    ensures x in SwapCase(s) <==> SwapCaseChar(x) in s
  {
    SwapCaseTwice(x);
    if x in SwapCase(s) {
      var i :| 0 <= i < |s| && SwapCase(s)[i] == x;
      SwapCaseTwice(s[i]);
    }
    if SwapCaseChar(x) in s {
      var i :| 0 <= i < |s| && s[i] == SwapCaseChar(x);
      assert SwapCase(s)[i] == x;
    }
  }

  /** The castling rights of the colour-swapped field are those of the other colour. */
  lemma CastlingMirrored(castling: string, mirrored: string)
    requires multiset(mirrored) == multiset(SwapCase(castling))
    ensures 'K' in mirrored <==> 'k' in castling
    ensures 'Q' in mirrored <==> 'q' in castling
    ensures 'k' in mirrored <==> 'K' in castling
    ensures 'q' in mirrored <==> 'Q' in castling
  {
    forall x: char
      ensures x in mirrored <==> SwapCaseChar(x) in castling
    {
      assert x in mirrored <==> x in multiset(mirrored);
      assert x in SwapCase(castling) <==> x in multiset(SwapCase(castling));
      SwapCaseMember(castling, x);
    }
  }

  /** The square seen from the other side: same column, row 7 - r. */
  function Flip(i: int): int {
    8 * (7 - i / 8) + i % 8
  }

  lemma FlipSquare(r: int, c: int)
    requires 0 <= r < 8 && 0 <= c < 8
    ensures Flip(8 * r + c) == 8 * (7 - r) + c
  {
    assert (8 * r + c) / 8 == r;
    assert (8 * r + c) % 8 == c;
  }

  lemma FlipRange(i: int)
    requires 0 <= i < 64
    ensures 0 <= Flip(i) < 64 && Flip(Flip(i)) == i
  {
    FlipSquare(7 - i / 8, i % 8);
  }

  /** Two square lists that are each other turned round and colour-swapped fail
      in the same way when read by position_planes. */
  lemma MirroredFault(seen: string, raw: string)
    requires |seen| == 64 && |raw| == 64
    requires forall i :: 0 <= i < 64 ==> seen[i] == SwapCaseChar(raw[Flip(i)])
    ensures PlacementFault(seen) == PlacementFault(raw)
  {
    if exists i :: 0 <= i < 64 && Unknown(seen[i]) {
      var i :| 0 <= i < 64 && Unknown(seen[i]);
      FlipRange(i);
      UnknownSwap(raw[Flip(i)]);
    }
    if exists j :: 0 <= j < 64 && Unknown(raw[j]) {
      var j :| 0 <= j < 64 && Unknown(raw[j]);
      FlipRange(j);
      UnknownSwap(raw[j]);
      assert Unknown(seen[Flip(j)]);
    }
  }

  /** ... and their occupancy planes are each other turned round and colour-swapped. */
  lemma MirroredOccupancy(seen: string, raw: string)
    requires |seen| == 64 && |raw| == 64
    requires forall i :: 0 <= i < 64 ==> seen[i] == SwapCaseChar(raw[Flip(i)])
    ensures forall p, r, c :: 0 <= p < 12 && 0 <= r < 8 && 0 <= c < 8 ==>
      Occupancy(seen)[p][r][c] == Occupancy(raw)[OtherColour(p)][7 - r][c]
  {
    forall p, r, c | 0 <= p < 12 && 0 <= r < 8 && 0 <= c < 8
      ensures Occupancy(seen)[p][r][c] == Occupancy(raw)[OtherColour(p)][7 - r][c]
    {
      FlipSquare(r, c);
      SquareMirror(p, raw[8 * (7 - r) + c]);
    }
  }

  /** The squares of a placement turned round and colour-swapped, index by index. */
  lemma MirroredPlacementSquares(placement: string, mirror: string)
    requires EightByEight(placement)
    requires SplitOn(mirror, '/') == SwapEach(Reversed(SplitOn(placement, '/')))
    ensures |Squares(mirror)| == 64 && |Squares(placement)| == 64
    ensures forall i :: 0 <= i < 64 ==> 0 <= Flip(i) < 64 && Squares(mirror)[i] == SwapCaseChar(Squares(placement)[Flip(i)])
  {
    MirroredRankBlocks(placement, mirror);
    RankBlocksJoin(placement);
    RankBlocksJoin(mirror);
    MirroredBlocks(RankBlocks(mirror), RankBlocks(placement));
  }

  /** With black to move, the position planes of the rewritten board are those
      of the board turned round: plane p at (r, c) is the other colour's plane at
      (7 - r, c); the rewritten board fails exactly when the board does, with
      the same exception. */
  lemma MirroredPositionPlanes(board: string)
    requires |Split(board)| >= 3 && Split(board)[1] == "b" && EightByEight(Split(board)[0])
    ensures ChangePerspective(board).Ok?
    ensures var seen, raw := PositionPlanesOf(ChangePerspective(board).value), PositionPlanesOf(board);
      && (seen.Ok? <==> raw.Ok?)
      && (seen.Err? ==> seen == raw)
      && (seen.Ok? ==> forall p, r, c :: 0 <= p < 12 && 0 <= r < 8 && 0 <= c < 8 ==>
            seen.value[p][r][c] == raw.value[OtherColour(p)][7 - r][c])
  {
    var fields := Split(board);
    BlackToMoveFields(board);
    var out := Split(ChangePerspective(board).value);
    MirroredPlacementSquares(fields[0], out[0]);
    var seen, raw := Squares(out[0]), Squares(fields[0]);
    MirroredFault(seen, raw);
    if PlacementFault(raw).None? {
      MirroredOccupancy(seen, raw);
    }
  }

  /** With black to move, the helper planes of the rewritten board swap the
      castling planes of the two colours and keep the halfmove and en-passant
      planes: the en-passant square is not turned round with the board. */
  lemma MirroredHelperPlanes(board: string)
    requires |Split(board)| >= 3 && Split(board)[1] == "b"
    ensures ChangePerspective(board).Ok?
    ensures var seen, raw := HelperPlanes(ChangePerspective(board).value), HelperPlanes(board);
      && (seen.Ok? <==> raw.Ok?)
      && (seen.Err? ==> seen == raw)
      && (seen.Ok? ==> seen.value == [raw.value[2], raw.value[3], raw.value[0], raw.value[1], raw.value[4], raw.value[5]])
  {
    var fields := Split(board);
    BlackToMoveFields(board);
    var out := Split(ChangePerspective(board).value);
    CastlingMirrored(fields[2], out[2]);
    if |fields| >= 4 {
      assert out[3] == out[3..][0];
    }
    if |fields| >= 5 {
      assert out[4] == out[3..][1];
    }
  }

  /** With black to move and a placement of eight ranks of eight squares, the
      canonical board is the raw board seen from the other side: piece planes
      turned round and colour-swapped, castling planes colour-swapped, the
      halfmove plane kept, and the en-passant plane kept as it is. The two fail
      together, with the same exception. */
  lemma BlackToMoveMirrored(board: string)
    requires |Split(board)| >= 3 && Split(board)[1] == "b" && EightByEight(Split(board)[0])
    ensures CanonicalBoard(board, true).Ok? <==> CanonicalBoard(board, false).Ok?
    ensures CanonicalBoard(board, true).Err? ==> CanonicalBoard(board, true) == CanonicalBoard(board, false)
    ensures CanonicalBoard(board, true).Ok? ==>
      var seen, raw := CanonicalBoard(board, true).value, CanonicalBoard(board, false).value;
      && HasShape(seen, 18) && HasShape(raw, 18)
      && (forall p, r, c :: 0 <= p < 12 && 0 <= r < 8 && 0 <= c < 8 ==> seen[p][r][c] == raw[OtherColour(p)][7 - r][c])
      && seen[12] == raw[14] && seen[13] == raw[15] && seen[14] == raw[12] && seen[15] == raw[13]
      && seen[16] == raw[16] && seen[17] == raw[17]
  {
    MirroredPositionPlanes(board);
    MirroredHelperPlanes(board);
    if CanonicalBoard(board, true).Ok? {
      CanonicalShape(board, true);
      CanonicalShape(board, false);
    }
  }
}

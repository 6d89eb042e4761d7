/** change_perspective: a FEN string rewritten so that the side to move is white. */
module Perspective {
  import opened Failures
  import opened Text

  function Reversed<T>(s: seq<T>): seq<T> {
    seq(|s|, i requires 0 <= i < |s| => s[|s| - 1 - i])
  }

  /** Every piece of the list case-swapped (the list comprehension over swapcase). */
  function SwapEach(parts: seq<string>): seq<string> {
    seq(|parts|, i requires 0 <= i < |parts| => SwapCase(parts[i]))
  }

  /** The placement field seen from the other side: ranks in reverse order,
      every piece letter changed to the other colour. */
  function MirrorPlacement(placement: string): string {
    Join(SwapEach(Reversed(SplitOn(placement, '/'))), "/")
  }

  /** The castling field seen from the other side: colours swapped, then sorted. */
  function MirrorCastling(castling: string): string {
    Sorted(SwapCase(castling))
  }

  /** change_perspective(board). The fields are those of str.split(); with black
      to move, fields 0, 1 and 2 are rewritten; the fields are re-joined with
      single spaces. Too few fields raise IndexError. */
  function ChangePerspective(board: string): (r: Result<string>)
    ensures r.Err? <==> |Split(board)| < 2 || (Split(board)[1] == "b" && |Split(board)| < 3)
    ensures r.Err? ==> r.error == IndexError
  {
    var fields := Split(board);
    if |fields| < 2 then Err(IndexError)
    else if fields[1] == "b" then
      if |fields| < 3 then Err(IndexError)
      else
        var mirrored := fields[0 := MirrorPlacement(fields[0])][1 := "w"][2 := MirrorCastling(fields[2])];
        Ok(Join(mirrored, " "))
    else Ok(Join(fields, " "))
  }

  lemma SwapCaseNoSpace(s: string)
    requires NoSpace(s)
    ensures NoSpace(SwapCase(s))
  {
  }

  lemma SwapCaseKeepsSeparator(s: string, sep: char)
    requires sep !in s
    requires SwapCaseChar(sep) == sep
    ensures sep !in SwapCase(s)
  {
  }

  /** Mirroring a placement field keeps it a single non-empty field. */
  lemma MirrorPlacementIsWord(p: string)
    requires IsWord(p)
    ensures IsWord(MirrorPlacement(p))
  {
    var parts := SplitOn(p, '/');
    var mirrored := SwapEach(Reversed(parts));
    SplitOnNoSpace(p, '/');
    forall i | 0 <= i < |mirrored|
      ensures NoSpace(mirrored[i])
    {
      SwapCaseNoSpace(parts[|parts| - 1 - i]);
    }
    JoinNoSpace(mirrored, '/');
    if |parts| == 1 {
      JoinSplitOn(p, '/');
      assert |MirrorPlacement(p)| == |p|;
    }
  }

  lemma MirrorCastlingIsWord(c: string)
    requires IsWord(c)
    ensures IsWord(MirrorCastling(c))
  {
    var swapped := SwapCase(c);
    var r := MirrorCastling(c);
    assert |r| == |multiset(r)| == |multiset(swapped)| == |swapped|;
    forall i | 0 <= i < |r|
      ensures !IsSpace(r[i])
    {
      assert r[i] in multiset(swapped);
      var j :| 0 <= j < |swapped| && swapped[j] == r[i];
      assert swapped[j] == SwapCaseChar(c[j]);
    }
  }

  /** When black is not to move the fields come back unchanged, only re-joined
      with single spaces; a board already written that way is returned as is. */
  lemma {:induction false} WhiteToMoveUnchanged(board: string)
    requires |Split(board)| >= 2 && Split(board)[1] != "b"
    ensures ChangePerspective(board) == Ok(Join(Split(board), " "))
    ensures Split(ChangePerspective(board).value) == Split(board)
    ensures board == Join(Split(board), " ") ==> ChangePerspective(board) == Ok(board)
  {
    SplitJoin(Split(board));
  }

  /** The fields of the rewritten board when black is to move. */
  lemma {:induction false} BlackToMoveFields(board: string)
    requires |Split(board)| >= 3 && Split(board)[1] == "b"
    ensures ChangePerspective(board).Ok?
    ensures var fields, out := Split(board), Split(ChangePerspective(board).value);
      && |out| == |fields|
      && SplitOn(out[0], '/') == SwapEach(Reversed(SplitOn(fields[0], '/')))
      && out[1] == "w"
      && IsSorted(out[2]) && multiset(out[2]) == multiset(SwapCase(fields[2]))
      && out[3..] == fields[3..]
  {
    var fields := Split(board);
    var mirrored := fields[0 := MirrorPlacement(fields[0])][1 := "w"][2 := MirrorCastling(fields[2])];
    MirrorPlacementIsWord(fields[0]);
    MirrorCastlingIsWord(fields[2]);
    assert IsWord("w");
    SplitJoin(mirrored);
    var swappedRanks := SwapEach(Reversed(SplitOn(fields[0], '/')));
    forall i | 0 <= i < |swappedRanks|
      ensures '/' !in swappedRanks[i]
    {
      SwapCaseKeepsSeparator(Reversed(SplitOn(fields[0], '/'))[i], '/');
    }
    SplitOnJoin(swappedRanks, '/');
  }

  /** The en-passant field is carried over as it is: it is not mirrored with the board. */
  lemma EnPassantNotMirrored(board: string)
    requires |Split(board)| >= 4 && Split(board)[1] == "b"
    ensures ChangePerspective(board).Ok?
    ensures |Split(ChangePerspective(board).value)| == |Split(board)|
    ensures Split(ChangePerspective(board).value)[3] == Split(board)[3]
  {
    BlackToMoveFields(board);
  }

  /** Applying change_perspective to its own output changes nothing. */
  lemma Idempotent(board: string)
    requires ChangePerspective(board).Ok?
    ensures ChangePerspective(ChangePerspective(board).value) == ChangePerspective(board)
  {
    var fields := Split(board);
    var once := ChangePerspective(board).value;
    if fields[1] == "b" {
      BlackToMoveFields(board);
    } else {
      WhiteToMoveUnchanged(board);
    }
    var out := Split(once);
    assert |out| >= 2 && out[1] != "b";
    WhiteToMoveUnchanged(once);
    SplitJoin(fields);
    if fields[1] == "b" {
      var mirrored := fields[0 := MirrorPlacement(fields[0])][1 := "w"][2 := MirrorCastling(fields[2])];
      MirrorPlacementIsWord(fields[0]);
      MirrorCastlingIsWord(fields[2]);
      assert IsWord("w");
      SplitJoin(mirrored);
    }
  }
}

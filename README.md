# ChessML data encoding, modelled in Dafny

ChessML trains a chess policy/value network on games played by an engine.
`data_encoding.py` turns the recorded games into training tensors:

- `change_perspective` rewrites a FEN string so that the side to move is
  always white. With black to move, it reverses the ranks of the placement
  field and swaps their case. It sets the side to move to `w`, and swaps the
  case of the castling field and sorts it.
- `position_planes` expands the placement field into 64 squares and writes one
  12×8×8 occupancy stack, one plane per piece in the order `KQRBNPkqrbnp`.
- `helper_planes` builds six 8×8 planes from the other fields: four castling
  flags, the halfmove clock and a one-hot en-passant square.
- `get_canonical_board` stacks the two, after `change_perspective` when its
  flag is set.
- `create_uci_labels` builds the 1968-entry move vocabulary that indexes the
  policy vector. It has 1792 queen-line and knight moves and 176 pawn
  promotions.
- `encode_data` concatenates the games and groups the positions by FEN string.
  For each distinct position it writes the share of each move played from it
  (the policy) and the mean game reward (the value), beside its canonical
  board.

The model has seven modules:

| file | module | models |
|---|---|---|
| failures.dfy | Failures | the Python exceptions raised on malformed input, and `Result`/`Option` |
| sequences.dfy | Sequences | `sum()` over integers, and lists without repeats |
| text.dfy | Text | `str.split`, `split('/')`, `join`, `swapcase`, `sorted`, `int()` on strings |
| perspective.dfy | Perspective | `change_perspective` |
| vocabulary.dfy | Vocabulary | `create_uci_labels` and `list.index` |
| planes.dfy | Planes | `position_planes`, `helper_planes`, `get_canonical_board` |
| aggregation.dfy | Aggregation | the grouping, policy and value computation of `encode_data` |

An exception the source would raise is an `Err(error)` result. This covers:

- an `IndexError` on a short FEN or an out-of-range square;
- a `KeyError` for a letter that names no piece;
- a `ValueError` from `int()` or from `list.index`;
- an `AssertionError` from the length check.

The models follow the source's form:

- `position_planes` fills a fresh `array3<int>` in two nested loops.
- `create_uci_labels`, the game-collection loop, the two dictionary-building
  loops and the output loops of `encode_data` are methods with loop
  invariants.
- Each method is proved equal to a pure function that defines its result.
- The properties are lemmas about those functions.

Python dictionaries that the source fills in insertion order
(`occurences_dict`, `counts`) are modelled as a key sequence in insertion
order plus a map.

Points where the behaviour of `data_encoding.py` is easy to misread:

- `create_uci_labels` emits queen promotions as well as under-promotions
  (`promoted_to` includes `'q'`, data_encoding.py:70). There are therefore 176
  promotion labels and 1968 labels in total.
- `change_perspective` leaves the en-passant field unchanged, so with black to
  move the en-passant plane is not turned round with the board
  (`Perspective.EnPassantNotMirrored`, `Planes.BlackToMoveMirrored`).
- The en-passant square goes through numpy indexing, where a negative index
  wraps around. An off-board name such as `a9` therefore marks a square
  instead of failing. Only row or column indices outside -8..7 raise
  `IndexError` (`Planes.EnPassantPlaneSucceeds`).
- The assert in `encode_data` compares only the total numbers of positions,
  moves and rewards. The rewards always match the positions, so it fails
  exactly when the games hold more positions than moves or the reverse
  (`Aggregation.EncodeAssertion`).

## Model

| member | source | states |
|---|---|---|
| Text.Split | data_encoding.py:9 | `str.split()` yields fields that are nonempty and contain no whitespace |
| Text.Join | data_encoding.py:12-15 | `sep.join(parts)` is empty for no parts; otherwise its length is the parts' lengths plus `|parts| - 1` separators |
| Text.JoinFirst | data_encoding.py:12-15 | a joined string starts with the first part; one part joins to itself, and more parts give the first part, the separator, then the join of the rest |
| Text.JoinLast | data_encoding.py:12-15 | joining one more part appends the separator and that part, so the parts appear in order with one separator between each two |
| Text.JoinCharacters | data_encoding.py:12-15 | a joined string holds no character beyond those of the parts and the separator |
| Text.SplitJoin | data_encoding.py:15 | splitting the space-joined list of whitespace-free words gives the words back |
| Text.SplitOn | data_encoding.py:11 | `split('/')` yields at least one part, and no part contains the separator |
| Text.JoinSplitOn | data_encoding.py:11-12 | joining the parts of `split(sep)` with `sep` gives the string back |
| Text.SwapCase | data_encoding.py:12-14 | `str.swapcase()` keeps the length, turns each lower-case ASCII letter upper-case and each upper-case one lower-case, and is undone by swapping again |
| Text.Sorted | data_encoding.py:14 | `sorted` returns the same characters (a permutation) in nondecreasing order |
| Text.ParseInt | data_encoding.py:25 | `int()` on a string either yields a number or raises ValueError |
| Text.ParseDecimal | data_encoding.py:25 | `int()` of the decimal digits of n is n |
| Text.ParseOneChar | data_encoding.py:20 | `int()` of one character is its digit value for a digit, and ValueError otherwise |
| Perspective.ChangePerspective | data_encoding.py:8-15 | fails, with IndexError, exactly when the board has fewer than 2 fields, or has black to move and fewer than 3 fields |
| Perspective.WhiteToMoveUnchanged | data_encoding.py:10-15 | when black is not to move, the result is the fields rejoined by single spaces, so a normalised board comes back unchanged |
| Perspective.BlackToMoveFields | data_encoding.py:10-14 | with black to move: the same number of fields; the ranks are reversed and case-swapped; the side is `w`; castling is the case-swapped letters in sorted order; every later field is unchanged |
| Perspective.EnPassantNotMirrored | data_encoding.py:10-15 | with black to move, the en-passant field is copied unchanged |
| Perspective.Idempotent | data_encoding.py:8-15 | applying change_perspective to its own result changes nothing more |
| Vocabulary.Destinations | data_encoding.py:74-79 | the 54 candidate destinations of an origin, in the listed order: rank, file, two diagonals, eight knight jumps |
| Vocabulary.MoveDecodes | data_encoding.py:82 | a move label is four characters from which both squares are read back |
| Vocabulary.AllMoves | data_encoding.py:72-83 | the first two nested loops return `MovesBefore(8)`, the move part of the vocabulary |
| Vocabulary.AllPromotions | data_encoding.py:84-96 | the promotion loops return `PromotionsBefore(8)`, the promotion part of the vocabulary |
| Vocabulary.CreateUciLabels | data_encoding.py:66-97 | create_uci_labels returns `UciLabels()`, the move labels of `MovesBefore(8)` followed by the promotion labels of `PromotionsBefore(8)` |
| Vocabulary.MovesBeforeOrdered | data_encoding.py:72-83 | move labels come ordered by origin square, then by their place in the destination list, with no repeats |
| Vocabulary.PromotionsBeforeOrdered | data_encoding.py:84-96 | promotion labels come ordered by file, then piece, then same/left/right file, then rank 2 before rank 7 |
| Vocabulary.LabelsBeforeCharacterized | data_encoding.py:66-97 | a string is a label exactly when it is a queen-line or knight move between two squares, or a pawn step from rank 2 to 1 or 7 to 8 onto the same or an adjacent file followed by q, r, b or n |
| Vocabulary.UciLabelsUnique | data_encoding.py:66-97 | no label occurs twice |
| Vocabulary.UciLabelsCount | data_encoding.py:66-97 | 1792 move labels, 176 promotion labels, 1968 in all (the length of the policy vector) |
| Vocabulary.IndexOf | data_encoding.py:135 | `list.index` returns the first position holding the item, or reports that none does (ValueError) |
| Vocabulary.UciLabelsIndex | data_encoding.py:135 | looking up a string in the vocabulary succeeds exactly when it has one of the two label shapes |
| Planes.PlaneIndex | data_encoding.py:46-54 | `pieces_dict` maps each of the 12 piece letters to its plane; any other key raises KeyError |
| Planes.ExpandPlacement | data_encoding.py:40-44 | the rewrite loop, join and replace give the squares of the placement: a digit k becomes k empty squares, and '/' disappears |
| Planes.ExpandedSquares | data_encoding.py:42-44 | expanding each character, joining and removing the slashes is the square list of the placement |
| Planes.FillSquare | data_encoding.py:52-54 | one square: IndexError past the end of the squares, KeyError for a letter that names no piece, otherwise the piece's plane is set at (row, column) and nothing else changes |
| Planes.FillRow | data_encoding.py:51-54 | one row of the fill loop, with the same error cases and frame as FillSquare |
| Planes.FillPlanes | data_encoding.py:49-56 | the fill loop fails with the first square's fault in reading order; otherwise it returns a fresh 12×8×8 array equal to the occupancy planes |
| Planes.PositionPlanes | data_encoding.py:39-57 | position_planes returns `PositionPlanesOf(board)`: the occupancy planes of the board, or the exception it raises |
| Planes.PositionPlanesSucceeds | data_encoding.py:39-57 | position_planes succeeds exactly when the board has a field, the placement has at least 64 squares, and none of the first 64 is an unknown letter; otherwise it raises IndexError or KeyError |
| Planes.PositionPlanesOccupancy | data_encoding.py:49-54 | the result is 12×8×8 with entries 0 or 1, and plane p is 1 at (r, c) exactly when square 8r+c holds piece p |
| Planes.OnePlanePerSquare | data_encoding.py:53-54 | at each square the twelve planes sum to 1 if the square holds a letter and 0 otherwise |
| Planes.PlaneCount | data_encoding.py:49-54 | the sum over plane p is the number of pieces of that kind among the 64 squares |
| Planes.PieceTotal | data_encoding.py:49-54 | the sum over all planes is the number of pieces on the board |
| Planes.AxisIndex | data_encoding.py:24 | a numpy index on an axis of 8 is valid exactly for -8..7, and addresses i mod 8; otherwise it raises IndexError |
| Planes.Full | data_encoding.py:25-31 | `np.full((8, 8), v)` is an 8×8 grid of v |
| Planes.EnPassantPlane | data_encoding.py:19-24 | the en-passant plane is an 8×8 grid of zeros and ones; building it raises only IndexError or ValueError |
| Planes.EnPassantPlaneSucceeds | data_encoding.py:19-24 | the en-passant plane is built exactly when the field is `-` or its rank character is 1..9 and its file character lies from `Y` to `h`; a non-digit rank raises ValueError, and a short field or out-of-range index raises IndexError |
| Planes.EnPassantSquare | data_encoding.py:20-24 | for a square name a1..h8, the plane is 1 exactly at the row and column that name it |
| Planes.EnPassantOneHot | data_encoding.py:19-24 | the plane is 8×8 with entries 0 or 1, and sums to 0 for `-` and to 1 otherwise |
| Planes.HelperPlanes | data_encoding.py:17-37 | helper_planes returns six 8×8 planes, or raises IndexError or ValueError |
| Planes.HelperPlanesSucceeds | data_encoding.py:17-37 | helper_planes succeeds exactly when there are 5 fields, the en-passant plane is built and the halfmove field is an integer; otherwise it raises IndexError or ValueError |
| Planes.HelperPlanesContents | data_encoding.py:25-36 | six 8×8 planes: all ones or all zeros according to K, Q, k, q in the castling field, the halfmove value everywhere, then the en-passant plane |
| Planes.GetCanonicalBoard | data_encoding.py:59-63 | get_canonical_board returns `CanonicalBoard(board, perspective)`: the position planes of the oriented board followed by its helper planes, or the first exception raised |
| Planes.CanonicalShape | data_encoding.py:59-63 | the result is 18×8×8: the position planes of the oriented board, then its helper planes |
| Planes.WhiteToMoveFlagIrrelevant | data_encoding.py:59-63 | when black is not to move, the perspective flag does not change the result |
| Planes.CastlingMirrored | data_encoding.py:14 | after the castling field is case-swapped, each side's castling letters are the other side's before |
| Planes.MirroredPositionPlanes | data_encoding.py:59-62 | with black to move on an 8×8 placement, plane p at (r, c) of the rewritten board is the other colour's plane at (7-r, c) of the raw board, and both fail alike |
| Planes.MirroredHelperPlanes | data_encoding.py:59-62 | with black to move, the rewritten board's castling planes are the raw ones with the colours exchanged; the halfmove and en-passant planes are unchanged; both fail alike |
| Planes.BlackToMoveMirrored | data_encoding.py:59-62 | with black to move, the canonical board is the raw board seen from the other side, except that the en-passant plane is not turned round |
| Aggregation.Collect | data_encoding.py:110-113 | the loop over the games concatenates positions and moves, and repeats each game's reward once per position |
| Aggregation.CollectedRewards | data_encoding.py:112-113 | there is one reward per position, and each is the reward of one of the games |
| Aggregation.EncodeAssertion | data_encoding.py:115 | the reward list always matches the positions; differing numbers of positions and moves raise AssertionError |
| Aggregation.GroupOccurrences | data_encoding.py:117-120 | the keys are the distinct positions in order of first occurrence; each maps to the list of its indices |
| Aggregation.DistinctMembers | data_encoding.py:117-120 | the keys are exactly the positions that occur |
| Aggregation.DistinctUnique | data_encoding.py:117-120 | no position is a key twice |
| Aggregation.DistinctOrder | data_encoding.py:117-120 | keys come in the order their positions are first seen |
| Aggregation.PositionsSpec | data_encoding.py:117-120 | an occurrence list holds every index of the position once, in increasing order; its length is the position's count, so the `len(v) >= 1` filter keeps every key |
| Aggregation.AtOccurrences | data_encoding.py:124-125 | the moves (or rewards) gathered for a position: entry k is the column's value at the k-th occurrence of the position, there is one per occurrence and at least one, and each comes from a row holding that position |
| Aggregation.CountActions | data_encoding.py:130-132 | the counting loop maps each move played to its number of occurrences, with keys in first-seen order |
| Aggregation.Policy | data_encoding.py:133-137 | the probs loop returns `PolicyOf(actions, labels)`: per label, its count over the number of moves, or ValueError when some move is not in the labels |
| Aggregation.PolicyEntries | data_encoding.py:133-137 | over labels without repeats, entry j is the share of occurrences in which label j was played, a value in [0, 1] |
| Aggregation.PolicyFails | data_encoding.py:135 | over the UCI labels, building the distribution raises ValueError exactly when a move played has neither label shape |
| Aggregation.PolicySumsToOne | data_encoding.py:133-137 | over labels without repeats, a computed distribution sums to 1 |
| Aggregation.MeanBounded | data_encoding.py:127-128 | the mean of the rewards lies between any lower and upper bound of the rewards |
| Aggregation.TraverseSpec | data_encoding.py:140-145 | a loop that stops at the first exception yields one value per key in key order, or the exception of the first key whose step fails |
| Aggregation.EncodeState | data_encoding.py:123-138 | the per-position body returns `EntryOf(...)`: the policy and mean reward of the position, or the policy's exception |
| Aggregation.ComputeEntries | data_encoding.py:122-138 | the loop over occurrences_dict returns `Traverse(keys, EntryStep(...))`: the entries in key order, or the first exception |
| Aggregation.EncodeFeatures | data_encoding.py:141-143 | the feature loop returns `Traverse(keys, Board)`: get_canonical_board of each key in order, or the first exception raised |
| Aggregation.EncodeOutputs | data_encoding.py:140-145 | the output loop returns `Outputs(keys, entries)`: the features, policies and values in key order |
| Aggregation.EncodeData | data_encoding.py:99-145 | encode_data, without its I/O, returns `Encode(games)`: AssertionError on a length mismatch, else the first exception of the entry or feature loops, else the encoded examples |
| Aggregation.EncodeRejectsUnknownMove | data_encoding.py:133-135 | when the lengths agree, a move with neither label shape makes encode_data raise ValueError |
| Aggregation.EncodedExamples | data_encoding.py:117-145 | on success there is one example per distinct position, in first-seen order. Each holds the position's 18×8×8 canonical board, a 1968-entry policy whose entry j is the share of its occurrences in which label j was played (summing to 1), and the mean reward of its occurrences |
| Aggregation.EncodedValuesBounded | data_encoding.py:112-128 | when every game's reward lies in [lo, hi], so does every value |

## Left out

- The file I/O of `encode_data` is not modelled: listing the directory, `pickle.load`, `tqdm`, `os.mkdir` and `np.save` (data_encoding.py:101-105, 147-151). A game is given directly as its positions, moves and reward.
- The column selection `states[:,0]` and `actions[:,0]` (data_encoding.py:107-108) is not modelled: a game holds the first column already.
- numpy's `float32` planes are modelled as integers, so the halfmove plane holds the exact count. In the source, a count above 2^24 is rounded. A count above the float32 range (about 3.4e38) becomes `inf`.
- The exceptions that huge halfmove counts raise in the source are not modelled: an `OverflowError` when the count does not fit a Python float (309 digits or more), and, on CPython 3.11 or later, a `ValueError` from `int()` on a string of more than 4300 digits. The model returns the exact count instead (`Planes.HelperPlanesSucceeds`, `Text.ParseDecimal`).
- Python float arithmetic for rewards, values and probabilities is modelled with exact reals. Rounding in `sum` and in the divisions is not modelled.
- `str.isalpha`, `str.isnumeric`, `str.swapcase` and `int()` are modelled on ASCII characters only. A non-ASCII letter counts as a non-letter, and a non-ASCII numeric character counts as a non-digit.
- The shape asserts of `helper_planes` and `position_planes` (data_encoding.py:36, 56) always hold, so they have no error path. The shapes are stated as lemmas instead (`Planes.HelperPlanesContents`, `Planes.PositionPlanesOccupancy`).
- `encode_data` calls `create_uci_labels()` again for every position and every move (data_encoding.py:133, 135). The model builds the list once, because every call returns the same list.
- Aggregation.Policy: requires at least one move. `encode_data` only calls it on a position's occurrence list, which is never empty (`Aggregation.PositionsSpec`), so the division by `total_repetitions` is always defined.
- Planes.GetCanonicalBoard: returns the planes as a value (a sequence of grids), because `np.vstack` builds a new array. Only `position_planes` keeps a mutable `array3`.
- The mirror lemmas (`Planes.MirroredPositionPlanes`, `Planes.BlackToMoveMirrored`) assume a placement of eight ranks of eight squares. For other placements only the error equivalence of `Planes.PositionPlanesSucceeds` is stated.
- Text.Split: its contract states only that every field is a whitespace-free word. That the fields are the words of the string in order is stated by `Text.SplitJoin`, for strings that are space-joined words.
- Text.ParseInt: its contract states only that a failure is a ValueError. The value read is stated by `Text.ParseDecimal` and `Text.ParseOneChar`.

/** The board preview: square indices 0..63 laid out rank 8 first, their
    algebraic names (files a-h, ranks 1-8, as in Appendix C of the FIDE Laws
    of Chess), the light/dark pattern (Article 2.1: the square at each
    player's right-hand corner is light), the theme palettes and the fixed
    piece placement. */
module ChessBoardPreview {
  import opened Wrappers
  import opened ThemeContext

  /** Row 0 is rank 8 at the top; column 0 is file a at the left. */
  function Row(i: nat): nat { i / 8 }

  function Col(i: nat): nat { i % 8 }

  /** `index -> (row, col)` is a bijection from [0, 64) onto [0, 8) x [0, 8),
      with `row * 8 + col` as its inverse. */
  lemma IndexBijection(i: nat, r: nat, c: nat)
    ensures i < 64 ==> Row(i) < 8 && Col(i) < 8 && Row(i) * 8 + Col(i) == i
    ensures r < 8 && c < 8 ==> r * 8 + c < 64 && Row(r * 8 + c) == r && Col(r * 8 + c) == c
  {
  }

  /** `String.fromCharCode(97 + col)`. */
  function FileChar(col: nat): (f: char)
    requires col < 8
    ensures 'a' <= f <= 'h'
  {
    (97 + col) as char
  }

  /** `(8 - row).toString()`: a single digit for every row of the board. */
  function RankText(row: nat): (t: string)
    requires row < 8
    ensures |t| == 1 && '1' <= t[0] <= '8'
  {
    [(('0' as int) + 8 - row) as char]
  }

  /** The algebraic name of the square at an index: file, then rank. */
  function SquareName(i: nat): (name: string)
    requires i < 64
    ensures |name| == 2 && 'a' <= name[0] <= 'h' && '1' <= name[1] <= '8'
  {
    [FileChar(Col(i))] + RankText(Row(i))
  }

  /** The 64 generated names are pairwise distinct. */
  lemma SquareNamesDistinct(i: nat, j: nat)
    requires i < 64 && j < 64
    ensures SquareName(i) == SquareName(j) <==> i == j
  {
    if SquareName(i) == SquareName(j) {
      assert SquareName(i)[0] == SquareName(j)[0];
      assert SquareName(i)[1] == SquareName(j)[1];
      assert Col(i) == Col(j) && Row(i) == Row(j);
      IndexBijection(i, 0, 0);
      IndexBijection(j, 0, 0);
    }
  }

  /** `fileToCol`: the first UTF-16 unit minus 97 (`NaN` for an empty string). */
  function FileToCol(file: string): (r: Option<int>)
    ensures r.None? <==> |file| == 0
    ensures |file| > 0 && 'a' <= file[0] <= 'h' ==> r.Some? && 0 <= r.value < 8
  {
    if |file| == 0 then None else Some(file[0] as int - 97)
  }

  predicate IsDigit(c: char) {
    48 <= c as int <= 57
  }

  function DigitValue(c: char): (d: nat)
    requires IsDigit(c)
    ensures d < 10
  {
    c as int - 48
  }

  /** The ASCII white space `parseInt` skips: space, tab, line feed,
      vertical tab, form feed and carriage return. */
  predicate IsSpace(c: char) {
    c == ' ' || 9 <= c as int <= 13
  }

  /** The number of leading decimal digits. */
  function DigitRun(s: string): (n: nat)
    ensures n <= |s|
    ensures forall k :: 0 <= k < n ==> IsDigit(s[k])
    ensures n < |s| ==> !IsDigit(s[n])
  {
    if |s| == 0 || !IsDigit(s[0]) then 0 else 1 + DigitRun(s[1..])
  }

  /** The value of a string of decimal digits, read left to right. */
  function DigitsValue(s: string): nat
    requires forall k :: 0 <= k < |s| ==> IsDigit(s[k])
  {
    if |s| == 0 then 0
    else DigitsValue(s[..|s| - 1]) * 10 + DigitValue(s[|s| - 1])
  }

  /** `parseInt` in base 10: skip leading white space, take an optional sign,
      then the longest run of digits; `NaN` when there are none. */
  function ParseInt(s: string): (r: Option<int>)
    ensures |s| > 0 && IsDigit(s[0]) ==> r.Some?
    ensures |s| == 0 ==> r.None?
  {
    if |s| > 0 && IsSpace(s[0]) then ParseInt(s[1..])
    else
      var negative := |s| > 0 && s[0] == '-';
      var body := if |s| > 0 && (s[0] == '-' || s[0] == '+') then s[1..] else s;
      var n := DigitRun(body);
      if n == 0 then None
      else
        var v: int := DigitsValue(body[..n]);
        Some(if negative then -v else v)
  }

  /** A single decimal digit parses to its own value. */
  lemma ParseOneDigit(s: string)
    ensures |s| == 1 && IsDigit(s[0]) ==> ParseInt(s) == Some(DigitValue(s[0]))
  {
    if |s| == 1 && IsDigit(s[0]) {
      assert DigitRun(s[1..]) == 0;
      assert DigitRun(s) == 1;
      assert s[..1] == s;
      assert DigitsValue(s[..0]) == 0;
    }
  }

  /** `rankToRow`: `8 - parseInt(rank)`, `NaN` when the rank does not parse. */
  function RankToRow(rank: string): (r: Option<int>)
    ensures |rank| == 0 ==> r.None?
    ensures |rank| == 1 && IsDigit(rank[0]) ==> r == Some(8 - DigitValue(rank[0]))
    ensures |rank| == 1 && '1' <= rank[0] <= '8' ==> r.Some? && 0 <= r.value < 8
  {
    ParseOneDigit(rank);
    match ParseInt(rank)
    case Some(n) => Some(8 - n)
    case None => None
  }

  /** `fileToCol` and `rankToRow` undo the naming of every generated square:
      the name's first character gives back the column, the rest the row. */
  lemma CoordinatesRoundTrip(i: nat)
    requires i < 64
    ensures FileToCol(SquareName(i)) == Some(Col(i))
    ensures RankToRow(SquareName(i)[1..]) == Some(Row(i))
  {
    var rank := SquareName(i)[1..];
    assert rank == RankText(Row(i));
    assert DigitRun(rank) == 1;
    assert rank[..1] == rank;
    assert DigitsValue(rank) == DigitsValue(rank[..0]) * 10 + DigitValue(rank[0]);
  }

  /** `(row + col) % 2 === 0`. */
  predicate IsLight(row: nat, col: nat) {
    (row + col) % 2 == 0
  }

  /** Squares sharing an edge always have opposite colours. */
  lemma AdjacentSquaresDiffer(r1: nat, c1: nat, r2: nat, c2: nat)
    requires (r1 == r2 && (c2 == c1 + 1 || c1 == c2 + 1)) || (c1 == c2 && (r2 == r1 + 1 || r1 == r2 + 1))
    ensures IsLight(r1, c1) != IsLight(r2, c2)
  {
  }

  /** a8 (index 0) and h1 (index 63) are light, so each player has a light
      square at the right-hand corner. */
  lemma CornersAreLight()
    ensures SquareName(0) == "a8" && IsLight(Row(0), Col(0))
    ensures SquareName(63) == "h1" && IsLight(Row(63), Col(63))
  {
  }

  /** A theme's pair of square classes. */
  datatype Palette = Palette(light: string, dark: string)

  const SolPalette: Palette := Palette("bg-amber-50 hover:bg-amber-25", "bg-amber-200 hover:bg-amber-150")

  /** `grid`, `flux` and `terra` have palettes of their own; every other
      theme, `glacis` and the four selector ids included, takes the sol one. */
  function PaletteFor(t: Theme): (p: Palette)
    ensures p.light != p.dark
    ensures !(t.Grid? || t.Flux? || t.Terra?) ==> p == SolPalette
    ensures (t.Grid? || t.Flux? || t.Terra?) ==> p != SolPalette
  {
    match t
    case Grid => Palette("bg-slate-200 hover:bg-slate-100", "bg-slate-800 hover:bg-slate-700")
    case Flux => Palette("bg-cyan-100 hover:bg-cyan-50 shadow-sm shadow-cyan-500/20",
                         "bg-slate-900 hover:bg-slate-800 shadow-sm shadow-cyan-500/30")
    case Terra => Palette("bg-green-50 hover:bg-green-25", "bg-green-200 hover:bg-green-150")
    case _ => SolPalette
  }

  /** `getSquareClass`: the theme's light class on light squares, its dark
      class on dark ones. */
  function SquareClass(t: Theme, row: nat, col: nat): (c: string)
    ensures c == PaletteFor(t).light || c == PaletteFor(t).dark
    ensures c == PaletteFor(t).light <==> IsLight(row, col)
  {
    if IsLight(row, col) then PaletteFor(t).light else PaletteFor(t).dark
  }

  /** Under one theme, two squares share a class exactly when they share a
      colour. */
  lemma SquareClassFollowsParity(t: Theme, r1: nat, c1: nat, r2: nat, c2: nat)
    ensures SquareClass(t, r1, c1) == SquareClass(t, r2, c2) <==> IsLight(r1, c1) == IsLight(r2, c2)
  {
  }

  datatype Side = White | Black

  datatype Piece = Piece(glyph: string, position: string, side: Side)

  /** The fixed placement on the preview board. */
  const Pieces: seq<Piece> := [
    Piece("♔", "e1", White), Piece("♕", "d8", Black),
    Piece("♖", "a1", White), Piece("♜", "h8", Black),
    Piece("♗", "c1", White), Piece("♝", "f8", Black),
    Piece("♘", "b1", White), Piece("♞", "g8", Black),
    Piece("♙", "e2", White), Piece("♟", "e7", Black)
  ]

  /** The board index of each entry of `Pieces`, in the same order. */
  const PieceSquares: seq<nat> := [60, 3, 56, 7, 58, 5, 57, 6, 52, 12]

  /** `pieces.find(p => p.position === position)`: the first piece there. */
  function Find(ps: seq<Piece>, position: string): (r: Option<Piece>)
    ensures r.Some? ==> r.value in ps && r.value.position == position
    ensures r.None? <==> forall k :: 0 <= k < |ps| ==> ps[k].position != position
    ensures r.Some? ==> exists k :: 0 <= k < |ps| && ps[k] == r.value
                                    && forall m :: 0 <= m < k ==> ps[m].position != position
  {
    if |ps| == 0 then None
    else if ps[0].position == position then Some(ps[0])
    else Find(ps[1..], position)
  }

  /** The piece drawn on a square, if any: one of the ten, standing there. */
  function PieceAt(position: string): (r: Option<Piece>)
    ensures r.Some? ==> r.value in Pieces && r.value.position == position
    ensures r.None? <==> forall k :: 0 <= k < |Pieces| ==> Pieces[k].position != position
  {
    Find(Pieces, position)
  }

  /** Every piece stands on the board square listed for it. */
  lemma PieceSquaresNamed()
    ensures |PieceSquares| == |Pieces|
    ensures forall k :: 0 <= k < |Pieces| ==> PieceSquares[k] < 64 && SquareName(PieceSquares[k]) == Pieces[k].position
  {
    assert SquareName(60) == "e1" && SquareName(3) == "d8" && SquareName(56) == "a1";
    assert SquareName(7) == "h8" && SquareName(58) == "c1" && SquareName(5) == "f8";
    assert SquareName(57) == "b1" && SquareName(6) == "g8" && SquareName(52) == "e2";
    assert SquareName(12) == "e7";
  }

  /** No two pieces share a square: ten pieces on ten distinct squares. */
  lemma PiecePositionsDistinct(k: nat, m: nat)
    requires k < |Pieces| && m < |Pieces|
    ensures Pieces[k].position == Pieces[m].position <==> k == m
    ensures PieceSquares[k] == PieceSquares[m] <==> k == m
  {
    PieceSquaresNamed();
    if Pieces[k].position == Pieces[m].position {
      SquareNamesDistinct(PieceSquares[k], PieceSquares[m]);
    }
  }

  /** A square holds a piece exactly when its index is one of the ten
      placement squares, and then it holds the piece listed for that square. */
  lemma Occupancy(i: nat)
    requires i < 64
    ensures PieceAt(SquareName(i)).Some? <==> i in PieceSquares
    ensures forall k :: 0 <= k < |Pieces| && PieceSquares[k] == i ==> PieceAt(SquareName(i)) == Some(Pieces[k])
  {
    PieceSquaresNamed();
    var name := SquareName(i);
    if PieceAt(name).Some? {
      var p := PieceAt(name).value;
      var k :| 0 <= k < |Pieces| && Pieces[k] == p;
      SquareNamesDistinct(i, PieceSquares[k]);
    }
    forall k | 0 <= k < |Pieces| && PieceSquares[k] == i
      ensures PieceAt(name) == Some(Pieces[k])
    {
      assert Pieces[k].position == name;
      var p := PieceAt(name).value;
      var m :| 0 <= m < |Pieces| && Pieces[m] == p;
      PiecePositionsDistinct(k, m);
    }
  }
}

/**
 * The 8x8 board (`Plateau`): a grid of optional pieces with bounds checking, raw moves that
 * promote on arrival, and removal. No rule of the game is checked here.
 *
 * Coordinates are (row, column) = (x, y); row 0 is Black's home side, row 7 Red's.
 */
module Board {
  import opened Pieces

  const Taille := 8

  type Row = seq<Option<Piece>>
  type Grid = seq<Row>

  predicate WellFormed(g: Grid)
  {
    |g| == Taille && forall i :: 0 <= i < |g| ==> |g[i]| == Taille
  }

  /** estValide: both coordinates lie in [0, Taille). */
  predicate EstValide(x: int, y: int)
    ensures EstValide(x, y) <==> 0 <= x <= 7 && 0 <= y <= 7
  {
    x >= 0 && x < Taille && y >= 0 && y < Taille
  }

  /** getPiece: the content of a cell, failing closed (no piece) off the board. */
  function GetPiece(g: Grid, x: int, y: int): (r: Option<Piece>)
    requires WellFormed(g)
    ensures !EstValide(x, y) ==> r == None
    ensures EstValide(x, y) ==> r == g[x][y]
  {
    if !EstValide(x, y) then None else g[x][y]
  }

  /** The grid with one cell replaced. */
  function With(g: Grid, x: int, y: int, c: Option<Piece>): (h: Grid)
    requires WellFormed(g) && EstValide(x, y)
    ensures WellFormed(h)
    ensures forall i, j :: 0 <= i < Taille && 0 <= j < Taille ==>
      h[i][j] == if i == x && j == y then c else g[i][j]
  {
    g[x := g[x][y := c]]
  }

  /** The row a player's men are promoted on: row 0 for Red, the last row for Black. */
  function FarRank(p: Player): int
  {
    if p == R then 0 else Taille - 1
  }

  /** The piece as it stands after arriving on row `x`. */
  function Promu(piece: Piece, x: int): (q: Piece)
    ensures q.joueur == piece.joueur
    ensures q.estDame <==> piece.estDame || x == FarRank(piece.joueur)
  {
    if (piece.joueur == R && x == 0) || (piece.joueur == N && x == Taille - 1) then
      Piece(piece.joueur, true)
    else
      piece
  }

  /** When deplacerPiece succeeds: both cells on the board and a piece at the origin. */
  predicate CanMove(g: Grid, x1: int, y1: int, x2: int, y2: int)
    requires WellFormed(g)
  {
    EstValide(x1, y1) && EstValide(x2, y2) && g[x1][y1].Some?
  }

  /**
   * The grid after deplacerPiece: the destination receives the (possibly promoted) piece,
   * then the origin is cleared; nothing happens when the move cannot be made.
   */
  function Moved(g: Grid, x1: int, y1: int, x2: int, y2: int): (h: Grid)
    requires WellFormed(g)
    ensures WellFormed(h)
    ensures !CanMove(g, x1, y1, x2, y2) ==> h == g
    ensures CanMove(g, x1, y1, x2, y2) ==>
      && h[x1][y1] == None
      && ((x1, y1) != (x2, y2) ==> h[x2][y2] == Some(Promu(g[x1][y1].value, x2)))
      && forall i, j :: EstValide(i, j) && (i, j) != (x1, y1) && (i, j) != (x2, y2) ==> h[i][j] == g[i][j]
  {
    if !CanMove(g, x1, y1, x2, y2) then g
    else With(With(g, x2, y2, Some(Promu(g[x1][y1].value, x2))), x1, y1, None)
  }

  /** The grid after supprimerPiece: the cell is emptied if it is on the board. */
  function Removed(g: Grid, x: int, y: int): (h: Grid)
    requires WellFormed(g)
    ensures WellFormed(h)
    ensures !EstValide(x, y) ==> h == g
    ensures EstValide(x, y) ==> h[x][y] == None
    ensures forall i, j :: EstValide(i, j) && (i, j) != (x, y) ==> h[i][j] == g[i][j]
  {
    if EstValide(x, y) then With(g, x, y, None) else g
  }

  /** A moving piece lands strictly off its origin, so nothing vanishes: the piece count is kept. */
  lemma MovedKeepsCounts(g: Grid, x1: int, y1: int, x2: int, y2: int, p: Player)
    requires WellFormed(g) && CanMove(g, x1, y1, x2, y2)
    requires (x1, y1) != (x2, y2) && g[x2][y2] == None
    ensures Count(Moved(g, x1, y1, x2, y2), p) == Count(g, p)
  {
    var q := Promu(g[x1][y1].value, x2);
    var g1 := With(g, x2, y2, Some(q));
    CountWith(g, x2, y2, Some(q), p);
    CountWith(g1, x1, y1, None, p);
  }

  /** The initial content of a cell: Black men on the dark squares of rows 0-2, Red men on rows 5-7. */
  function InitialCell(i: int, j: int): Option<Piece>
  {
    if (i + j) % 2 == 1 && i < 3 then Some(Piece(N, false))
    else if (i + j) % 2 == 1 && i >= Taille - 3 then Some(Piece(R, false))
    else None
  }

  function InitialGrid(): Grid
  {
    seq(Taille, i => seq(Taille, j => InitialCell(i, j)))
  }

  /** The cells on which two grids differ. */
  ghost function Changed(g: Grid, h: Grid): set<(int, int)>
    requires WellFormed(g) && WellFormed(h)
  {
    set i, j | 0 <= i < Taille && 0 <= j < Taille && g[i][j] != h[i][j] :: (i, j)
  }

  // ---------------------------------------------------------------------------------------
  // Counting pieces

  function Own(c: Option<Piece>, p: Player): nat
  {
    if c.Some? && c.value.joueur == p then 1 else 0
  }

  /** Pieces of `p` among the first `n` cells of a row. */
  function CountRow(row: Row, p: Player, n: nat): nat
    requires n <= |row|
  {
    if n == 0 then 0 else CountRow(row, p, n - 1) + Own(row[n - 1], p)
  }

  /** Pieces of `p` in the first `m` rows. */
  function CountRows(g: Grid, p: Player, m: nat): nat
    requires m <= |g|
  {
    if m == 0 then 0 else CountRows(g, p, m - 1) + CountRow(g[m - 1], p, |g[m - 1]|)
  }

  /** Pieces of `p` on the whole board. */
  function Count(g: Grid, p: Player): nat
  {
    CountRows(g, p, |g|)
  }

  lemma {:induction false} CountRowWith(row: Row, p: Player, n: nat, y: int, c: Option<Piece>)
    requires n <= |row| && 0 <= y < |row|
    ensures CountRow(row[y := c], p, n) + (if y < n then Own(row[y], p) else 0)
         == CountRow(row, p, n) + (if y < n then Own(c, p) else 0)
  {
    if n > 0 {
      CountRowWith(row, p, n - 1, y, c);
    }
  }

  lemma {:induction false} CountRowsWith(g: Grid, p: Player, m: nat, x: int, y: int, c: Option<Piece>)
    requires WellFormed(g) && m <= Taille && EstValide(x, y)
    ensures CountRows(With(g, x, y, c), p, m) + (if x < m then Own(g[x][y], p) else 0)
         == CountRows(g, p, m) + (if x < m then Own(c, p) else 0)
  {
    if m > 0 {
      CountRowsWith(g, p, m - 1, x, y, c);
      if m - 1 == x {
        CountRowWith(g[x], p, Taille, y, c);
      }
    }
  }

  /** Replacing one cell changes a player's count by what left and what arrived there. */
  lemma CountWith(g: Grid, x: int, y: int, c: Option<Piece>, p: Player)
    requires WellFormed(g) && EstValide(x, y)
    ensures Count(With(g, x, y, c), p) + Own(g[x][y], p) == Count(g, p) + Own(c, p)
  {
    CountRowsWith(g, p, Taille, x, y, c);
  }

  /** Does player `p` start with the men of row `i`? */
  predicate StartsOnRow(p: Player, i: int)
  {
    (p == N && i < 3) || (p == R && i >= Taille - 3)
  }

  lemma {:induction false} InitialRowCount(i: int, p: Player, n: nat)
    requires 0 <= i < Taille && n <= Taille
    ensures CountRow(InitialGrid()[i], p, n) == if StartsOnRow(p, i) then (n + i % 2) / 2 else 0
  {
    if n > 0 {
      InitialRowCount(i, p, n - 1);
    }
  }

  lemma {:induction false} InitialRowsCount(p: Player, m: nat)
    requires m <= Taille
    ensures CountRows(InitialGrid(), p, m)
         == 4 * if p == N then (if m < 3 then m else 3) else (if m < 5 then 0 else m - 5)
  {
    if m > 0 {
      InitialRowsCount(p, m - 1);
      InitialRowCount(m - 1, p, Taille);
    }
  }

  /**
   * The set-up position: twelve men per side, all men (no kings), all on dark squares
   * ((i + j) odd), Black on rows 0-2, Red on rows 5-7, the middle rows empty.
   */
  lemma InitialLayout()
    ensures WellFormed(InitialGrid())
    ensures Count(InitialGrid(), R) == 12 && Count(InitialGrid(), N) == 12
    ensures forall i, j :: EstValide(i, j) && InitialGrid()[i][j].Some? ==>
      var piece := InitialGrid()[i][j].value;
      && (i + j) % 2 == 1
      && !piece.estDame
      && (piece.joueur == N <==> i < 3)
      && (piece.joueur == R <==> i >= 5)
    ensures forall j :: 0 <= j < Taille ==> InitialGrid()[3][j] == None && InitialGrid()[4][j] == None
  {
    InitialRowsCount(R, Taille);
    InitialRowsCount(N, Taille);
  }

  // ---------------------------------------------------------------------------------------
  // The board object

  class Plateau {
    var grille: Grid

    ghost predicate Valid()
      reads this
    {
      WellFormed(grille)
    }

    constructor ()
      ensures Valid()
      ensures grille == InitialGrid()
    {
      grille := [];
      new;
      Initialiser();
    }

    /** initialiser: empty the grid, then place the Black men, then the Red men. */
    method Initialiser()
      modifies this
      ensures Valid()
      ensures grille == InitialGrid()
    {
      grille := [];
      for i := 0 to Taille
        invariant |grille| == i
        invariant forall a :: 0 <= a < i ==> |grille[a]| == Taille
        invariant forall a, b :: 0 <= a < i && 0 <= b < Taille ==> grille[a][b] == None
      {
        grille := grille + [[]];
        for j := 0 to Taille
          invariant |grille| == i + 1 && |grille[i]| == j
          invariant forall a :: 0 <= a < i ==> |grille[a]| == Taille
          invariant forall a, b :: 0 <= a < i && 0 <= b < Taille ==> grille[a][b] == None
          invariant forall b :: 0 <= b < j ==> grille[i][b] == None
        {
          grille := grille[i := grille[i] + [None]];
        }
      }

      // Black men, top rows
      for i := 0 to 3
        invariant WellFormed(grille)
        invariant forall a, b :: 0 <= a < Taille && 0 <= b < Taille ==>
          grille[a][b] == if a < i then InitialCell(a, b) else None
      {
        for j := 0 to Taille
          invariant WellFormed(grille)
          invariant forall a, b :: 0 <= a < Taille && 0 <= b < Taille ==>
            grille[a][b] == if a < i || (a == i && b < j) then InitialCell(a, b) else None
        {
          if (i + j) % 2 == 1 {
            grille := grille[i := grille[i][j := Some(Piece(N, false))]];
          }
        }
      }

      // Red men, bottom rows
      for i := Taille - 3 to Taille
        invariant WellFormed(grille)
        invariant forall a, b :: 0 <= a < Taille && 0 <= b < Taille ==>
          grille[a][b] == if a < i then InitialCell(a, b) else None
      {
        for j := 0 to Taille
          invariant WellFormed(grille)
          invariant forall a, b :: 0 <= a < Taille && 0 <= b < Taille ==>
            grille[a][b] == if a < i || (a == i && b < j) then InitialCell(a, b) else None
        {
          if (i + j) % 2 == 1 {
            grille := grille[i := grille[i][j := Some(Piece(R, false))]];
          }
        }
      }

      forall a | 0 <= a < Taille
        ensures grille[a] == InitialGrid()[a]
      {
        assert forall b :: 0 <= b < Taille ==> grille[a][b] == InitialGrid()[a][b];
      }
    }

    /**
     * deplacerPiece: refuses (and changes nothing) when a cell is off the board or the origin
     * is empty; otherwise writes the piece to the destination, clears the origin and promotes
     * the piece on its far rank.
     */
    method DeplacerPiece(x1: int, y1: int, x2: int, y2: int) returns (ok: bool)
      requires Valid()
      modifies this
      ensures Valid()
      ensures ok == CanMove(old(grille), x1, y1, x2, y2)
      ensures grille == Moved(old(grille), x1, y1, x2, y2)
    {
      if !EstValide(x1, y1) || !EstValide(x2, y2) {
        return false;
      }
      var piece := grille[x1][y1];
      if piece.None? {
        return false;
      }
      // The piece object sits in this one cell only, so setting its king flag after the move
      // is the same as writing the promoted value where it lands.
      var arrivee := piece.value;
      if (arrivee.joueur == R && x2 == 0) || (arrivee.joueur == N && x2 == Taille - 1) {
        arrivee := arrivee.(estDame := true);
      }
      grille := grille[x2 := grille[x2][y2 := Some(arrivee)]];
      grille := grille[x1 := grille[x1][y1 := None]];
      return true;
    }

    /** supprimerPiece: empties a cell on the board; off the board it does nothing. */
    method SupprimerPiece(x: int, y: int)
      requires Valid()
      modifies this
      ensures Valid()
      ensures grille == Removed(old(grille), x, y)
    {
      if EstValide(x, y) {
        grille := grille[x := grille[x][y := None]];
      }
    }
  }
}

/**
 * The rules of `BaseRegles` as functions of the game state (the grid and the player to move):
 * the move shapes, the capture lookahead, the whole-board forced-capture scan, and what a
 * move attempt does to the state. The class in module Engine runs the same rules with loops
 * and in-place updates and is proved equal to these functions.
 *
 * These are the rules as written, which are looser than the usual game:
 *  - a forced capture only requires that the chosen piece have some capture available; that
 *    piece may still make a simple step (the simple shape is tried first);
 *  - men capture in any direction;
 *  - the jumped piece is compared with the player to move, not with the moving piece;
 *  - after a capture with another capture available the turn is kept, but nothing binds the
 *    next move to the piece that captured.
 */
module Rules {
  import opened Pieces
  import opened Board

  /** The state a `BaseRegles` object holds: the board and the player to move. */
  datatype Jeu = Jeu(grille: Grid, joueurCourant: Player)

  /** The kind of a move that was made (`"simple"` or `"capture"`). */
  datatype Kind = SimpleMove | CaptureMove

  /** absolute */
  function Absolute(x: int): (r: nat)
    ensures r == x || r == -x
  {
    if x >= 0 then x else -x
  }

  /** propriete: the cell holds a piece of player `j`. */
  function Propriete(g: Grid, j: Player, x: int, y: int): (b: bool)
    requires WellFormed(g)
    ensures b <==> EstValide(x, y) && g[x][y].Some? && g[x][y].value.joueur == j
  {
    var piece := GetPiece(g, x, y);
    piece.Some? && piece.value.joueur == j
  }

  /** caseVide: the cell is on the board and empty. */
  function CaseVide(g: Grid, x: int, y: int): (b: bool)
    requires WellFormed(g)
    ensures b <==> EstValide(x, y) && g[x][y] == None
  {
    EstValide(x, y) && GetPiece(g, x, y).None?
  }

  /** The row step of a man of player `p`: Red moves towards row 0, Black towards the last row. */
  function Forward(p: Player): int
  {
    if p == R then -1 else 1
  }

  /** diagonalSimple: one diagonal step, forwards for a man, either way for a king. */
  function DiagonalSimple(x1: int, y1: int, x2: int, y2: int, piece: Piece): (b: bool)
    ensures b <==>
      && Absolute(y2 - y1) == 1
      && (x2 - x1 == Forward(piece.joueur) || (piece.estDame && x2 - x1 == -Forward(piece.joueur)))
  {
    var dx := x2 - x1;
    var dy := y2 - y1;
    if Absolute(dx) != 1 || Absolute(dy) != 1 then false
    else if !piece.estDame && piece.joueur == R && dx != -1 then false
    else if !piece.estDame && piece.joueur == N && dx != 1 then false
    else true
  }

  /** The cell jumped over by a two-step move. */
  function Midpoint(x1: int, y1: int, x2: int, y2: int): (int, int)
  {
    (x1 + (x2 - x1) / 2, y1 + (y2 - y1) / 2)
  }

  /**
   * capture: two diagonal steps, over a piece that does not belong to the player to move `j`
   * (the turn pointer, not the moving piece's owner), onto an empty cell of the board. The
   * moving piece plays no part: a man may capture backwards.
   */
  function Capture(g: Grid, j: Player, x1: int, y1: int, x2: int, y2: int, piece: Piece): (b: bool)
    requires WellFormed(g)
    ensures b <==> var m := Midpoint(x1, y1, x2, y2);
      && Absolute(x2 - x1) == 2 && Absolute(y2 - y1) == 2
      && EstValide(x2, y2) && g[x2][y2] == None
      && EstValide(m.0, m.1) && g[m.0][m.1].Some? && g[m.0][m.1].value.joueur != j
  {
    var dx := x2 - x1;
    var dy := y2 - y1;
    if Absolute(dx) != 2 || Absolute(dy) != 2 then false
    else
      var m := Midpoint(x1, y1, x2, y2);
      var pieceCoince := GetPiece(g, m.0, m.1);
      if pieceCoince.None? then false
      else if pieceCoince.value.joueur == j then false
      else CaseVide(g, x2, y2)
  }

  /** The four jump directions capturerEnChaine tries, in its order. */
  const Directions: seq<(int, int)> := [(2, 2), (2, -2), (-2, 2), (-2, -2)]

  /** One of the four jump directions reaches a capture target. */
  predicate SomeDirection(g: Grid, j: Player, x: int, y: int, piece: Piece)
    requires WellFormed(g)
  {
    exists k :: 0 <= k < |Directions| && Capture(g, j, x, y, x + Directions[k].0, y + Directions[k].1, piece)
  }

  /** The four directions are all there is: every capture target is one of them. */
  lemma DirectionsCover(g: Grid, j: Player, x: int, y: int, piece: Piece)
    requires WellFormed(g)
    ensures SomeDirection(g, j, x, y, piece) <==> exists x2, y2 :: Capture(g, j, x, y, x2, y2, piece)
  {
    if x2, y2 :| Capture(g, j, x, y, x2, y2, piece) {
      var k := (if x2 < x then 2 else 0) + (if y2 < y then 1 else 0);
      assert (x2, y2) == (x + Directions[k].0, y + Directions[k].1);
    }
  }

  /**
   * capturerEnChaine: the piece on (x, y) has a capture available. It tries only the four
   * jump directions, and that finds a capture iff any capture target exists.
   */
  predicate ChainAvailable(g: Grid, j: Player, x: int, y: int, piece: Piece)
    requires WellFormed(g)
    ensures ChainAvailable(g, j, x, y, piece) <==> exists x2, y2 :: Capture(g, j, x, y, x2, y2, piece)
  {
    DirectionsCover(g, j, x, y, piece);
    SomeDirection(g, j, x, y, piece)
  }

  /** The piece on (x, y) belongs to `j` and has a capture available. */
  predicate HasCapture(g: Grid, j: Player, x: int, y: int)
    requires WellFormed(g)
  {
    EstValide(x, y) && g[x][y].Some? && g[x][y].value.joueur == j && ChainAvailable(g, j, x, y, g[x][y].value)
  }

  /** A piece of `j` has a capture on (x, y) iff the cell is `j`'s and some capture target exists. */
  lemma HasCaptureMeaning(g: Grid, j: Player)
    requires WellFormed(g)
    ensures forall x, y :: HasCapture(g, j, x, y) <==>
      Propriete(g, j, x, y) && exists x2, y2 :: Capture(g, j, x, y, x2, y2, g[x][y].value)
  {
    forall x, y
      ensures HasCapture(g, j, x, y) <==>
        Propriete(g, j, x, y) && exists x2, y2 :: Capture(g, j, x, y, x2, y2, g[x][y].value)
    {
      if Propriete(g, j, x, y) {
        assert ChainAvailable(g, j, x, y, g[x][y].value) <==>
          exists x2, y2 :: Capture(g, j, x, y, x2, y2, g[x][y].value);
      }
    }
  }

  /** captureForce: some piece of the player to move has a capture available. */
  predicate MustCapture(g: Grid, j: Player)
    requires WellFormed(g)
    ensures MustCapture(g, j) <==>
      exists x, y | 0 <= x < Taille && 0 <= y < Taille ::
        Propriete(g, j, x, y) && exists x2, y2 :: Capture(g, j, x, y, x2, y2, g[x][y].value)
  {
    HasCaptureMeaning(g, j);
    exists x, y | 0 <= x < Taille && 0 <= y < Taille :: HasCapture(g, j, x, y)
  }

  /**
   * futurCapture: with the piece on the origin, try a simple step first and then a capture
   * (which removes the jumped piece); refuse, changing nothing, when neither shape fits.
   */
  function Attempt(g: Grid, j: Player, x1: int, y1: int, x2: int, y2: int): (r: (Option<Kind>, Grid))
    requires WellFormed(g)
    ensures WellFormed(r.1)
    ensures r.0 == None ==> r.1 == g
    ensures r.0.Some? ==> EstValide(x1, y1) && g[x1][y1].Some?
    ensures r.0 == Some(SimpleMove) ==> DiagonalSimple(x1, y1, x2, y2, g[x1][y1].value)
    ensures r.0 == Some(CaptureMove) ==>
      !DiagonalSimple(x1, y1, x2, y2, g[x1][y1].value) && Capture(g, j, x1, y1, x2, y2, g[x1][y1].value)
  {
    var piece := GetPiece(g, x1, y1);
    if piece.None? then (None, g)
    else if DiagonalSimple(x1, y1, x2, y2, piece.value) then
      (Some(SimpleMove), Moved(g, x1, y1, x2, y2))
    else if Capture(g, j, x1, y1, x2, y2, piece.value) then
      var m := Midpoint(x1, y1, x2, y2);
      (Some(CaptureMove), Moved(Removed(g, m.0, m.1), x1, y1, x2, y2))
    else
      (None, g)
  }

  /**
   * lancerCoup: whether the move from (x1, y1) to (x2, y2) is made, and the state after it.
   * A refused move leaves the state as it was.
   */
  function Play(s: Jeu, x1: int, y1: int, x2: int, y2: int): (r: (bool, Jeu))
    requires WellFormed(s.grille)
    ensures WellFormed(r.1.grille)
    ensures !r.0 ==> r.1 == s
  {
    var g, j := s.grille, s.joueurCourant;
    var origine := GetPiece(g, x1, y1);
    if MustCapture(g, j) && (origine.None? || !ChainAvailable(g, j, x1, y1, origine.value)) then (false, s)
    else if !Propriete(g, j, x1, y1) then (false, s)
    else if !CaseVide(g, x2, y2) then (false, s)
    else
      var resultat := Attempt(g, j, x1, y1, x2, y2);
      if resultat.0.None? then (false, s)
      else if resultat.0 == Some(SimpleMove) then (true, Jeu(resultat.1, Adversaire(j)))
      else
        var piece := GetPiece(resultat.1, x2, y2);
        if piece.Some? && !ChainAvailable(resultat.1, j, x2, y2, piece.value) then
          (true, Jeu(resultat.1, Adversaire(j)))
        else
          (true, Jeu(resultat.1, j))
  }

  // ---------------------------------------------------------------------------------------
  // What a move attempt does

  /**
   * The moves that are made are exactly those from a piece of the player to move onto an
   * empty cell of the board, of one of the two shapes, and, when some piece of that player
   * can capture, from a piece that can capture itself.
   */
  lemma PlayAccepts(s: Jeu, x1: int, y1: int, x2: int, y2: int)
    requires WellFormed(s.grille)
    ensures var g, j := s.grille, s.joueurCourant;
      Play(s, x1, y1, x2, y2).0 <==>
        && Propriete(g, j, x1, y1)
        && CaseVide(g, x2, y2)
        && (MustCapture(g, j) ==> ChainAvailable(g, j, x1, y1, g[x1][y1].value))
        && (DiagonalSimple(x1, y1, x2, y2, g[x1][y1].value) || Capture(g, j, x1, y1, x2, y2, g[x1][y1].value))
  {
  }

  /**
   * A simple step moves the piece (promoting it on its far rank), changes exactly the origin
   * and the destination, keeps both players' piece counts, and passes the turn.
   */
  lemma SimpleMoveEffect(s: Jeu, x1: int, y1: int, x2: int, y2: int)
    requires WellFormed(s.grille) && Propriete(s.grille, s.joueurCourant, x1, y1)
    requires DiagonalSimple(x1, y1, x2, y2, s.grille[x1][y1].value)
    requires Play(s, x1, y1, x2, y2).0
    ensures Play(s, x1, y1, x2, y2).1 == Jeu(Moved(s.grille, x1, y1, x2, y2), Adversaire(s.joueurCourant))
    ensures Play(s, x1, y1, x2, y2).1.grille[x2][y2] == Some(Promu(s.grille[x1][y1].value, x2))
    ensures Changed(s.grille, Play(s, x1, y1, x2, y2).1.grille) == {(x1, y1), (x2, y2)}
    ensures forall p :: Count(Play(s, x1, y1, x2, y2).1.grille, p) == Count(s.grille, p)
  {
    var g := s.grille;
    var h := Play(s, x1, y1, x2, y2).1.grille;
    assert CaseVide(g, x2, y2);
    assert (x1, y1) in Changed(g, h);
    assert (x2, y2) in Changed(g, h);
    forall p {
      MovedKeepsCounts(g, x1, y1, x2, y2, p);
    }
  }

  /**
   * A capture removes the jumped piece, which belongs to the opponent, moves the capturing
   * piece (promoting it on its far rank), and passes the turn unless the capturing piece can
   * capture again from where it landed.
   */
  lemma CaptureMoveEffect(s: Jeu, x1: int, y1: int, x2: int, y2: int)
    requires WellFormed(s.grille) && Propriete(s.grille, s.joueurCourant, x1, y1)
    requires !DiagonalSimple(x1, y1, x2, y2, s.grille[x1][y1].value)
    requires Play(s, x1, y1, x2, y2).0
    ensures var g, j, m := s.grille, s.joueurCourant, Midpoint(x1, y1, x2, y2);
      var h := Play(s, x1, y1, x2, y2).1.grille;
      && Capture(g, j, x1, y1, x2, y2, g[x1][y1].value)
      && EstValide(m.0, m.1) && g[m.0][m.1].Some? && g[m.0][m.1].value.joueur == Adversaire(j)
      && h == Moved(Removed(g, m.0, m.1), x1, y1, x2, y2)
      && h[m.0][m.1] == None
      && h[x1][y1] == None
      && h[x2][y2] == Some(Promu(g[x1][y1].value, x2))
      && (Play(s, x1, y1, x2, y2).1.joueurCourant == j <==> ChainAvailable(h, j, x2, y2, h[x2][y2].value))
  {
  }

  /**
   * Jumping the opponent piece on the midpoint: exactly three cells change, the opponent loses
   * one piece and the mover none.
   */
  lemma JumpCounts(g: Grid, j: Player, x1: int, y1: int, x2: int, y2: int)
    requires WellFormed(g) && Propriete(g, j, x1, y1) && (x1, y1) != (x2, y2) && CaseVide(g, x2, y2)
    requires var m := Midpoint(x1, y1, x2, y2);
      EstValide(m.0, m.1) && g[m.0][m.1].Some? && g[m.0][m.1].value.joueur == Adversaire(j)
      && m != (x1, y1) && m != (x2, y2)
    ensures var m := Midpoint(x1, y1, x2, y2);
      var h := Moved(Removed(g, m.0, m.1), x1, y1, x2, y2);
      && Changed(g, h) == {(x1, y1), m, (x2, y2)}
      && Count(h, Adversaire(j)) == Count(g, Adversaire(j)) - 1
      && Count(h, j) == Count(g, j)
  {
    var m := Midpoint(x1, y1, x2, y2);
    var g1 := Removed(g, m.0, m.1);
    var h := Moved(g1, x1, y1, x2, y2);
    assert (x1, y1) in Changed(g, h);
    assert (x2, y2) in Changed(g, h);
    assert m in Changed(g, h);
    CountWith(g, m.0, m.1, None, Adversaire(j));
    CountWith(g, m.0, m.1, None, j);
    MovedKeepsCounts(g1, x1, y1, x2, y2, Adversaire(j));
    MovedKeepsCounts(g1, x1, y1, x2, y2, j);
  }

  /**
   * A capture changes exactly three cells (origin, jumped cell, destination), takes exactly one
   * piece from the opponent and none from the player who captured.
   */
  lemma CaptureTakesOnePiece(s: Jeu, x1: int, y1: int, x2: int, y2: int)
    requires WellFormed(s.grille) && Propriete(s.grille, s.joueurCourant, x1, y1)
    requires !DiagonalSimple(x1, y1, x2, y2, s.grille[x1][y1].value)
    requires Play(s, x1, y1, x2, y2).0
    ensures var g, j, h := s.grille, s.joueurCourant, Play(s, x1, y1, x2, y2).1.grille;
      && Changed(g, h) == {(x1, y1), Midpoint(x1, y1, x2, y2), (x2, y2)}
      && Count(h, Adversaire(j)) == Count(g, Adversaire(j)) - 1
      && Count(h, j) == Count(g, j)
  {
    CaptureMoveEffect(s, x1, y1, x2, y2);
    assert CaseVide(s.grille, x2, y2);
    JumpCounts(s.grille, s.joueurCourant, x1, y1, x2, y2);
  }

  /**
   * Whatever the shape of an accepted move, the moving piece lands on the destination with its
   * owner unchanged, and it is a king afterwards exactly when it was one already or it arrived
   * on its far rank: a king never goes back to being a man.
   */
  lemma MoverPromotion(s: Jeu, x1: int, y1: int, x2: int, y2: int)
    requires WellFormed(s.grille) && Play(s, x1, y1, x2, y2).0
    ensures var g, h := s.grille, Play(s, x1, y1, x2, y2).1.grille;
      && Propriete(g, s.joueurCourant, x1, y1)
      && (x1, y1) != (x2, y2)
      && h[x2][y2].Some?
      && h[x2][y2].value.joueur == g[x1][y1].value.joueur
      && (h[x2][y2].value.estDame <==> g[x1][y1].value.estDame || x2 == FarRank(g[x1][y1].value.joueur))
  {
  }

  /**
   * The forced capture as written: a piece that can capture may make a simple step instead,
   * even though a capture is then forced, and the turn passes.
   */
  lemma ForcedCaptureAllowsStep(s: Jeu, x1: int, y1: int, x2: int, y2: int)
    requires WellFormed(s.grille) && Propriete(s.grille, s.joueurCourant, x1, y1)
    requires ChainAvailable(s.grille, s.joueurCourant, x1, y1, s.grille[x1][y1].value)
    requires DiagonalSimple(x1, y1, x2, y2, s.grille[x1][y1].value) && CaseVide(s.grille, x2, y2)
    ensures MustCapture(s.grille, s.joueurCourant)
    ensures Play(s, x1, y1, x2, y2) == (true, Jeu(Moved(s.grille, x1, y1, x2, y2), Adversaire(s.joueurCourant)))
  {
    assert HasCapture(s.grille, s.joueurCourant, x1, y1);
  }

  /** When a capture is forced, a piece without a capture of its own cannot move at all. */
  lemma ForcedCaptureRejects(s: Jeu, x1: int, y1: int, x2: int, y2: int)
    requires WellFormed(s.grille) && MustCapture(s.grille, s.joueurCourant)
    requires !HasCapture(s.grille, s.joueurCourant, x1, y1)
    ensures Play(s, x1, y1, x2, y2) == (false, s)
  {
  }

  /**
   * Any capture by any piece of the player to move is made, whichever piece captured last:
   * a chain capture keeps the turn but does not bind it to the capturing piece.
   */
  lemma AnyCaptureAccepted(s: Jeu, x1: int, y1: int, x2: int, y2: int)
    requires WellFormed(s.grille) && Propriete(s.grille, s.joueurCourant, x1, y1)
    requires Capture(s.grille, s.joueurCourant, x1, y1, x2, y2, s.grille[x1][y1].value)
    ensures Play(s, x1, y1, x2, y2).0
  {
  }

  /** No capture is available to either player in the set-up position. */
  lemma InitialNoForcedCapture(p: Player)
    ensures WellFormed(InitialGrid())
    ensures !MustCapture(InitialGrid(), p)
  {
  }

  /** The board from the forced-capture example: a Red man on (5, 2), a Black man on (4, 3). */
  function ForcedCaptureExample(): (g: Grid)
    ensures WellFormed(g)
  {
    var empty := seq(Taille, i => seq(Taille, j => None));
    With(With(empty, 5, 2, Some(Piece(R, false))), 4, 3, Some(Piece(N, false)))
  }

  /**
   * An instance of the looser forced capture: Red must capture (5, 2) x (4, 3) -> (3, 4), yet
   * the step (5, 2) -> (4, 1) is made and the turn passes to Black.
   */
  lemma ForcedCaptureExampleStep()
    ensures MustCapture(ForcedCaptureExample(), R)
    ensures Play(Jeu(ForcedCaptureExample(), R), 5, 2, 4, 1)
         == (true, Jeu(Moved(ForcedCaptureExample(), 5, 2, 4, 1), N))
  {
    var g := ForcedCaptureExample();
    assert Capture(g, R, 5, 2, 5 + Directions[2].0, 2 + Directions[2].1, Piece(R, false));
    ForcedCaptureAllowsStep(Jeu(g, R), 5, 2, 4, 1);
  }
}

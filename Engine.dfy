/**
 * `BaseRegles`: one board and the player to move. Its scans are loops with early exits and
 * a move updates the board and the turn in place; each method is proved to do what the
 * corresponding function of module Rules says.
 */
module Engine {
  import opened Pieces
  import opened Board
  import opened Rules

  class BaseRegles {
    const plateau: Plateau
    var joueurCourant: Player

    ghost predicate Valid()
      reads this, plateau
    {
      plateau.Valid()
    }

    /** The game state the object holds. */
    ghost function Etat(): Jeu
      reads this, plateau
    {
      Jeu(plateau.grille, joueurCourant)
    }

    /** A new game: the set-up position, Red to move. */
    constructor ()
      ensures Valid() && fresh(plateau)
      ensures Etat() == Jeu(InitialGrid(), R)
    {
      plateau := new Plateau();
      joueurCourant := R;
    }

    /** capturerEnChaine: tries the four jump directions in turn and stops at the first capture. */
    method CapturerEnChaine(x: int, y: int, piece: Piece) returns (b: bool)
      requires Valid()
      ensures b == ChainAvailable(plateau.grille, joueurCourant, x, y, piece)
    {
      var directions := Directions;
      for k := 0 to |directions|
        invariant forall k' :: 0 <= k' < k ==>
          !Capture(plateau.grille, joueurCourant, x, y, x + directions[k'].0, y + directions[k'].1, piece)
      {
        var nx := x + directions[k].0;
        var ny := y + directions[k].1;
        if Capture(plateau.grille, joueurCourant, x, y, nx, ny, piece) {
          return true;
        }
      }
      return false;
    }

    /** captureForce: scans the board row by row for a piece of the player to move that can capture. */
    method CaptureForce() returns (b: bool)
      requires Valid()
      ensures b == MustCapture(plateau.grille, joueurCourant)
    {
      for x := 0 to 8
        invariant forall a, c :: 0 <= a < x && 0 <= c < 8 ==> !HasCapture(plateau.grille, joueurCourant, a, c)
      {
        for y := 0 to 8
          invariant forall a, c :: (0 <= a < x && 0 <= c < 8) || (a == x && 0 <= c < y) ==>
            !HasCapture(plateau.grille, joueurCourant, a, c)
        {
          var piece := GetPiece(plateau.grille, x, y);
          if piece.Some? && piece.value.joueur == joueurCourant {
            var chaine := CapturerEnChaine(x, y, piece.value);
            if chaine {
              assert HasCapture(plateau.grille, joueurCourant, x, y);
              return true;
            }
          }
        }
      }
      return false;
    }

    /** futurCapture: makes the move on the board if it has one of the two shapes. */
    method FuturCapture(x1: int, y1: int, x2: int, y2: int) returns (resultat: Option<Kind>)
      requires Valid()
      modifies plateau
      ensures Valid()
      ensures (resultat, plateau.grille) == Attempt(old(plateau.grille), joueurCourant, x1, y1, x2, y2)
    {
      var piece := GetPiece(plateau.grille, x1, y1);
      if piece.None? {
        return None;
      }
      if DiagonalSimple(x1, y1, x2, y2, piece.value) {
        var _ := plateau.DeplacerPiece(x1, y1, x2, y2);
        return Some(SimpleMove);
      }
      if Capture(plateau.grille, joueurCourant, x1, y1, x2, y2, piece.value) {
        var xm := x1 + (x2 - x1) / 2;
        var ym := y1 + (y2 - y1) / 2;
        plateau.SupprimerPiece(xm, ym);
        var _ := plateau.DeplacerPiece(x1, y1, x2, y2);
        return Some(CaptureMove);
      }
      return None;
    }

    /**
     * lancerCoup: checks the forced capture, the ownership of the origin and the destination,
     * makes the move, and passes the turn after a simple step or after a capture from whose
     * landing cell no further capture is available.
     */
    method LancerCoup(x1: int, y1: int, x2: int, y2: int) returns (ok: bool)
      requires Valid()
      modifies this, plateau
      ensures Valid()
      ensures (ok, Etat()) == Play(old(Etat()), x1, y1, x2, y2)
    {
      var force := CaptureForce();
      if force {
        var piece := GetPiece(plateau.grille, x1, y1);
        if piece.None? {
          return false;
        }
        var chaine := CapturerEnChaine(x1, y1, piece.value);
        if !chaine {
          return false;
        }
      }
      if !Propriete(plateau.grille, joueurCourant, x1, y1) {
        return false;
      }
      if !CaseVide(plateau.grille, x2, y2) {
        return false;
      }
      var resultat := FuturCapture(x1, y1, x2, y2);
      if resultat.None? {
        return false;
      }
      if resultat == Some(SimpleMove) {
        joueurCourant := Adversaire(joueurCourant);
      } else {
        var piece := GetPiece(plateau.grille, x2, y2);
        if piece.Some? {
          var chaine := CapturerEnChaine(x2, y2, piece.value);
          if !chaine {
            joueurCourant := Adversaire(joueurCourant);
          }
        }
      }
      return true;
    }
  }
}

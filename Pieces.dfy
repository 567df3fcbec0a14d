/** Pieces of the game: an owner, a king flag, and the one-letter form a renderer prints. */
module Pieces {

  /** A cell content: a piece or nothing (`null` in the implementation). */
  datatype Option<+T> = None | Some(value: T)

  /** The two players: `R` (rouge, starts at the bottom rows) and `N` (noir, starts at the top rows). */
  datatype Player = R | N

  /** The player who moves next when the turn passes. */
  function Adversaire(p: Player): (q: Player)
    ensures q != p
  {
    if p == R then N else R
  }

  /** A piece: its owner `joueur` and whether it is a king (`estDame`). */
  datatype Piece = Piece(joueur: Player, estDame: bool)

  /** The owner string stored in a piece, "R" or "N". */
  function Code(p: Player): string
  {
    if p == R then "R" else "N"
  }

  function UpperChar(c: char): char
  {
    if 'a' <= c <= 'z' then (c as int - 32) as char else c
  }

  function LowerChar(c: char): char
  {
    if 'A' <= c <= 'Z' then (c as int + 32) as char else c
  }

  function ToUpperCase(s: string): (r: string)
  {
    seq(|s|, i requires 0 <= i < |s| => UpperChar(s[i]))
  }

  function ToLowerCase(s: string): (r: string)
  {
    seq(|s|, i requires 0 <= i < |s| => LowerChar(s[i]))
  }

  /** affichage: the owner letter, upper case for a king and lower case for a man. */
  function Affichage(piece: Piece): (s: string)
    ensures |s| == 1
    ensures ('A' <= s[0] <= 'Z') <==> piece.estDame
    ensures UpperChar(s[0]) == Code(piece.joueur)[0]
  {
    if piece.estDame then ToUpperCase(Code(piece.joueur)) else ToLowerCase(Code(piece.joueur))
  }

  /** Reads a display letter back into the piece it shows. */
  function FromAffichage(s: string): Option<Piece>
  {
    if s == "R" then Some(Piece(R, true))
    else if s == "N" then Some(Piece(N, true))
    else if s == "r" then Some(Piece(R, false))
    else if s == "n" then Some(Piece(N, false))
    else None
  }

  /** The display form loses nothing: owner and king flag can be read back from it. */
  lemma AffichageRoundTrip(piece: Piece)
    ensures FromAffichage(Affichage(piece)) == Some(piece)
  {
  }
}

# Checkers (dames) rules engine: a Dafny model

This project models the rules engine of an 8x8 checkers game (French *dames*). The engine
has three parts. `Piece` is an owner, `R` (rouge, red) or `N` (noir, black), plus a king flag
`estDame`. `Plateau` is the board, an 8x8 grid of optional pieces. `BaseRegles` holds one
board and the player to move, `joueurCourant`. It decides whether a move is legal, makes it,
and decides whether the turn passes.

`code.ts` and its compiled twin `code.js` hold the same logic, so one model covers both. The
TypeScript lines are cited below. The JavaScript equivalents are:

| part | code.ts | code.js |
|---|---|---|
| affichage | 14-20 | 13-20 |
| initialiser | 34-60 | 32-56 |
| estValide, getPiece | 80-91 | 75-86 |
| deplacerPiece | 94-112 | 88-103 |
| supprimerPiece | 115-119 | 105-109 |
| constructor of BaseRegles | 127-131 | 115-119 |
| propriete, caseVide | 158-174 | 143-160 |
| diagonalSimple, capture | 177-218 | 162-197 |
| futurCapture | 221-250 | 199-222 |
| capturerEnChaine, captureForce | 253-287 | 224-255 |
| lancerCoup | 290-325 | 257-287 |

## Layout

- `Pieces.dfy` (module `Pieces`): players, pieces, the turn flip and the display letter.
- `Board.dfy` (module `Board`): the grid as a value (`Grid`, a sequence of 8 rows of 8 cells)
  with the functions that say what each board operation does. It also defines piece counting
  and the class `Plateau`. Its field `grille` is reassigned by `Initialiser`, `DeplacerPiece`
  and `SupprimerPiece`. `Initialiser` keeps the source's nested loops.
- `Rules.dfy` (module `Rules`): every predicate of `BaseRegles` as a function of the game
  state `Jeu(grille, joueurCourant)`. `Attempt` is what `futurCapture` does to that state and
  `Play` is what `lancerCoup` does to it. The lemmas about moves are in this module too.
- `Engine.dfy` (module `Engine`): the class `BaseRegles`. `CapturerEnChaine` and
  `CaptureForce` are the source's scanning loops with early return. `FuturCapture` and
  `LancerCoup` update the board and the turn in place. Each method is proved to equal the
  matching function in `Rules`.

The model follows the code as written. These looser rules are stated and proved:
- A forced capture (`captureForce`) only requires that the chosen piece have a capture
  available. That piece may still make a simple step, because `futurCapture` tries the
  simple shape first (`ForcedCaptureAllowsStep`, `ForcedCaptureExampleStep`).
- Men capture in every direction. `capture` never looks at its piece argument.
- The jumped piece is compared with the player to move, not with the moving piece. Every
  move that is made starts from a piece of the player to move, so both comparisons give the
  same answer there.
- A chain capture keeps the turn. It does not bind the next move to the capturing piece
  (`AnyCaptureAccepted`).

Two modelling choices need a word. Pieces are values, not objects. Each piece object lives in
exactly one cell, so setting `piece.estDame = true` after the move is the same as writing the
promoted piece at the destination. `deplacerPiece` with the same origin and destination writes
the piece and then clears the cell, so the piece disappears. `Moved` models this as written.
No caller of the engine does it, because the destination of a move must be empty.

## Model

| member | source | states |
|---|---|---|
| Pieces.Adversaire | code.ts:315 | The turn flip always gives the other player. |
| Pieces.Affichage | code.ts:14-20 | The display form is one letter. It is upper case exactly for a king, and in upper case it is the owner's letter. |
| Pieces.AffichageRoundTrip | code.js:13-20 | Owner and king flag can be read back from the display letter, so no two pieces display alike. |
| Board.EstValide | code.ts:80-82 | True iff both coordinates are in [0, 8), i.e. between 0 and 7. |
| Board.GetPiece | code.ts:80-91 | Fails closed: off the board there is no piece. On the board it gives the cell's content. |
| Board.Promu | code.ts:106-109 | The owner is kept. The piece is a king afterwards iff it was one or it arrived on its far rank: row 0 for R, row 7 for N. |
| Board.Moved | code.ts:94-112 | An invalid cell or an empty origin changes nothing. Otherwise the origin is emptied and every other cell is unchanged. The destination gets the promoted piece when it differs from the origin; when the two cells are the same the piece is erased. |
| Board.Removed | code.ts:115-119 | Off the board nothing changes. On the board only that cell is emptied. |
| Board.MovedKeepsCounts | code.ts:103-104 | A move onto a different, empty cell keeps every player's piece count. |
| Board.InitialLayout | code.ts:34-60 | The set-up grid has 12 pieces per side. All are men on dark squares, N on rows 0-2 and R on rows 5-7. Rows 3 and 4 are empty. |
| Board.Plateau.constructor | code.ts:28-31 | A new board holds the set-up grid. |
| Board.Plateau.Initialiser | code.ts:34-60 | The three loop nests leave every cell (i, j) as the set-up rule gives it: N iff i < 3 and i + j is odd, R iff i >= 5 and i + j is odd, otherwise empty. |
| Board.Plateau.DeplacerPiece | code.js:88-103 | Reports success exactly when both cells are on the board and the origin holds a piece. The new grid is the one `Moved` describes. |
| Board.Plateau.SupprimerPiece | code.js:105-109 | The new grid is the one `Removed` describes. Off the board it is a no-op. |
| Rules.Absolute | code.ts:143-149 | Gives x or -x, whichever is not negative. |
| Rules.Propriete | code.ts:158-165 | True iff the cell is on the board and holds a piece of the given player. |
| Rules.CaseVide | code.ts:168-174 | True iff the cell is on the board and empty. |
| Rules.DiagonalSimple | code.ts:177-196 | True iff the move is one column step and one row step. For a man the row step must be forward (-1 for R, +1 for N). A king may also step backward. |
| Rules.Capture | code.ts:199-218 | True iff the move is two steps in both directions, the midpoint holds a piece not owned by the player to move, and the destination is on the board and empty. The moving piece does not matter, so men capture backwards too. |
| Rules.DirectionsCover | code.js:224-241 | Trying the four (+-2, +-2) directions finds a capture iff any capture target exists from that cell. |
| Rules.ChainAvailable | code.ts:253-271 | True iff one of the four (+-2, +-2) targets is a capture, and so iff the piece on that cell has any capture target at all. |
| Rules.HasCaptureMeaning | code.ts:273-287 | A cell counts in the forced-capture scan iff it holds a piece of the player to move that has some capture target. |
| Rules.MustCapture | code.ts:273-287 | True iff some cell of the board holds a piece of the player to move that has a capture target. |
| Rules.Attempt | code.ts:221-250 | An empty origin, or a move of neither shape, changes nothing. A simple step is tried before a capture. |
| Rules.Play | code.ts:290-325 | A refused move leaves the board and the player to move unchanged. |
| Rules.PlayAccepts | code.ts:290-311 | A move is made iff the origin holds a piece of the player to move and the destination is on the board and empty. When some piece of that player can capture, the origin piece must be able to capture too. The move must be a simple step or a capture. |
| Rules.SimpleMoveEffect | code.ts:314-315 | An accepted simple step is `Moved`. Exactly the origin and destination change, piece counts are kept, and the turn passes. |
| Rules.CaptureMoveEffect | code.ts:234-321 | An accepted capture jumped an opponent piece, which is removed. The mover is relocated and promoted. The turn stays iff the landed piece can capture again. |
| Rules.JumpCounts | code.ts:234-239 | Removing the opponent piece on the midpoint and then moving onto an empty cell changes exactly three cells. The opponent loses one piece and the mover none. |
| Rules.CaptureTakesOnePiece | code.ts:234-239 | An accepted capture changes exactly three cells: origin, midpoint and destination. The opponent loses exactly one piece and the mover none. |
| Rules.MoverPromotion | code.js:96-101 | After any accepted move the moved piece keeps its owner and is a king iff it was one or it reached its far rank. |
| Rules.ForcedCaptureAllowsStep | code.ts:292-297 | A piece that can capture may still make a legal simple step. The step is accepted and the turn passes, although a capture is forced. |
| Rules.ForcedCaptureRejects | code.js:259-264 | When a capture is forced, any move from a cell whose piece cannot capture is refused without change. |
| Rules.AnyCaptureAccepted | code.ts:316-320 | Every legal capture by any piece of the player to move is accepted. Nothing binds a chain to the piece that captured. |
| Rules.InitialNoForcedCapture | code.ts:273-287 | In the set-up position neither player has a capture available. |
| Rules.ForcedCaptureExampleStep | code.ts:228-231 | Concrete case: Red at (5,2) and Black at (4,3), so Red must capture. The step (5,2) to (4,1) is still made and Black moves next. |
| Engine.BaseRegles.constructor | code.ts:127-131 | A new game holds the set-up board with Red to move. |
| Engine.BaseRegles.CapturerEnChaine | code.ts:253-271 | The loop over the four directions returns true iff one of them is a capture. |
| Engine.BaseRegles.CaptureForce | code.ts:273-287 | The row-by-row scan returns true iff some piece of the player to move has a capture. |
| Engine.BaseRegles.FuturCapture | code.ts:221-250 | The result and the new board are those `Attempt` gives. The player to move is untouched. |
| Engine.BaseRegles.LancerCoup | code.ts:290-325 | The result, the new board and the new player to move are those `Play` gives. |

## Left out

- Console output is not modelled because it is display only. This covers `Plateau.afficher`,
  `BaseRegles.afficherPiece`, the message printed in `futurCapture` and the call to
  `afficherPiece` at the end of `lancerCoup`.
- `getPlateau` and `getJoueurCourant` are not modelled as operations. They only return a
  field, and the model reads `plateau` and `joueurCourant` directly.
- The demo scripts `testingGrounds.ts` and `testingGrounds.js` are not part of this model.
  They are scripted console sessions.
- No outcome evaluator (win by attrition or immobilisation, or a draw) is modelled, because
  the engine has none.
- `lancerCoup` reports only true or false. The model does the same and gives no reason for a
  refusal.
- Owners are a two-value datatype, not arbitrary strings, because only "R" and "N" are ever
  stored. Coordinates are unbounded integers, not JavaScript numbers. The division by two in
  `capture` and `futurCapture` is exact, because the difference there is always +-2.

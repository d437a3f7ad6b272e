# Toguz Korgool board engine

A Dafny model of the rules engine of a Java Toguz Korgool game (`Board.java`).
The board has 18 holes. Holes 0–8 belong to White and holes 9–17 to Black.
Each side has a kazan (score pit): index 0 is White's and index 1 is Black's.
A hole can be marked as a *tuz* of the side opposite its owner. In this code the mark only stops the hole becoming a tuz again: a tuz hole is captured by the ordinary even rule like any other hole.
Each side may make at most one tuz.

The engine has these operations:

- `redistribute` sows one hole and settles its landing hole. Settling is either tuz creation or an even capture. The turn then passes to the other side.
- `availableMoves` lists a side's legal moves.
- `getPlayerTuz` finds the tuz on a side's holes.
- `randomMove` plays a uniformly chosen legal move.
- `challengeMove` is a greedy one-ply chooser. It prefers a tuz, then the largest even capture, then falls back to a random move.

The project has three modules:

- `KorgoolRules` (`rules.dfy`) states the rules as values. A `Position` holds the hole counts, tuz flags, kazans, the side to play and each side's hasTuz flag. `Play` is one call of `redistribute`. `Moves`, `PlayerTuz` and `ChallengeChoice` describe the queries and the chooser.
- `KorgoolBoard` (`board.dfy`) is the mutable `Board` class. It keeps the holes, tuz flags and kazans in arrays, and has the side to play and the two hasTuz flags as fields. Its methods follow the Java loops step by step. Each method is proved to leave exactly the state that the `KorgoolRules` function gives. `Snapshot()` reads the board as a `Position`.
- `KorgoolProperties` (`properties.dfy`) proves what those functions promise:
  - per-hole effects of a sow;
  - the exact tuz-creation and capture conditions;
  - piece conservation;
  - that the tuz flags stay consistent;
  - the chooser's order of priorities.

Where the code departs from the game's usual rules or from its own comments, the model follows the code:

- **A tuz collects nothing.** In the usual rules every piece later sown into a tuz goes to the tuz's owner. Here the tuz flag is read only by the creation test at `Board.java:110` and by `getPlayerTuz`. A later landing on a tuz hole is settled by the plain even test at `Board.java:124`, for whichever side moved (`KorgoolProperties.TuzHoleIsOrdinary`).
- **Tuz creation pays double.** The code adds as many fresh pieces to the kazan as the hole holds, then also moves the hole's own pieces in. A 3-piece tuz therefore adds 6 to the kazan, not 3, and the pieces on the board grow by 3 (`KorgoolProperties.TuzCreation`, `KorgoolProperties.PlayTotal`).
- **The chooser predicts the landing hole with one formula.** It uses `(idx + count - 1) % 18` even when the hole holds a single piece. The real sow of a single piece lands in `idx + 1`. So one-piece holes are predicted to land on their own side and are never picked by the first two priorities (`KorgoolProperties.ChallengeSkipsSingles`).
- **The chooser skips the ±9 mirror check.** Its first priority contains a check that is hard-coded to White, and both branches of that check play the move. In effect it plays any predicted 3 at once. The model has a single unconditional branch.
- **A capture needs only an even count.** The capture test at `Board.java:124` is only `size() % 2 == 0`. An even landing count is never zero, because the landing hole holds at least one piece after a sow (`KorgoolProperties.LandingOccupied`).
- **The mirror clause never applies.** Tuz creation refuses the hole mirroring `t` at ±9, where `t = getPlayerTuz(opponent)`. That call finds the tuz lying on the opponent's holes, which is the mover's own tuz. A mover who has a tuz is already refused by the hasTuz test, so the clause never decides anything in a consistent position (`KorgoolProperties.MirrorClauseInert`). The model keeps the clause exactly as written.
- **Large sows lose pieces.** A sow of `n ≥ 19` pieces computes its landing hole once from `n`. If `getKoorgools()` returns a copy (see Left out), the deposits that come round to the source hole are wiped when that hole is emptied, so `(n - 1) / 18` pieces disappear (`KorgoolProperties.SowingTotal`, `KorgoolProperties.PlayTotal`).

## Model

The source paths are under `src/main/java/com/dominicswaine/seg_agile_project/Logic/`.

| member | source | states |
|---|---|---|
| KorgoolBoard.Board.constructor | src/main/java/com/dominicswaine/seg_agile_project/Logic/Board.java:23-29 | a new board has the given hole counts, no tuz, both kazans empty, neither side holding a tuz and White to play; this state is tuz-consistent |
| KorgoolRules.KazanIndex | src/main/java/com/dominicswaine/seg_agile_project/Logic/Board.java:108 | the mover's kazan is one of the two kazans: 0 for White, 1 for Black |
| KorgoolRules.Opponent | src/main/java/com/dominicswaine/seg_agile_project/Logic/Board.java:106 | the opponent of a side is the other side |
| KorgoolRules.MarkHasTuz | src/main/java/com/dominicswaine/seg_agile_project/Logic/Board.java:113 | making a tuz sets the mover's hasTuz flag, leaves the other side's flag and the rest of the board unchanged |
| KorgoolRules.TuzFrom | src/main/java/com/dominicswaine/seg_agile_project/Logic/Board.java:208-215 | scanning from hole k gives the lowest index j ≥ k that is a tuz owned by the side, or -1 when there is none |
| KorgoolBoard.Board.GetPlayerTuz | src/main/java/com/dominicswaine/seg_agile_project/Logic/Board.java:208-215 | the early-return loop yields the lowest tuz owned by the side, or -1, and changes nothing |
| KorgoolRules.Owner | src/main/java/com/dominicswaine/seg_agile_project/Logic/Parser.java:73-77 | a hole is White's exactly when its index is below 9; holes 9–17 are Black's |
| KorgoolRules.NextHole | src/main/java/com/dominicswaine/seg_agile_project/Logic/Board.java:89 | the hole after i is a hole index other than i |
| KorgoolRules.PlayerTuz | src/main/java/com/dominicswaine/seg_agile_project/Logic/Board.java:208-215 | the result is -1 or a tuz owned by the side; no tuz of the side lies below it, and none at all when it is -1 |
| KorgoolRules.Moves | src/main/java/com/dominicswaine/seg_agile_project/Logic/Board.java:140-148 | a hole is a move exactly when it is the side's and not empty; the order is given by `MovesBelow` |
| KorgoolRules.MovesBelow | src/main/java/com/dominicswaine/seg_agile_project/Logic/Board.java:140-148 | the moves are exactly the holes owned by the side that are not empty, in strictly ascending order |
| KorgoolBoard.Board.AvailableMoves | src/main/java/com/dominicswaine/seg_agile_project/Logic/Board.java:140-148 | the loop builds exactly the legal moves of the side, in ascending order, without changing the board |
| KorgoolRules.Landing | src/main/java/com/dominicswaine/seg_agile_project/Logic/Board.java:88-94 | the landing hole is a hole index; its exact value is given by `SingleSow` and `MultiSow` |
| KorgoolRules.Sown | src/main/java/com/dominicswaine/seg_agile_project/Logic/Board.java:88-102 | sowing gives 18 holes, and the source hole keeps 1 piece, or none when it held a single piece; the other holes are given by `SingleSow` and `MultiSow` |
| KorgoolRules.AfterSow | src/main/java/com/dominicswaine/seg_agile_project/Logic/Board.java:88-102 | sowing changes only the holes: tuz flags, kazans, the side to play and both hasTuz flags are unchanged |
| KorgoolRules.TuzAllowed | src/main/java/com/dominicswaine/seg_agile_project/Logic/Board.java:110 | a tuz may be made only on a hole other than 8 and 17 that holds 3 and is not a tuz, by a mover who has none; the converse, with the ±9 clause, is `TuzCreation` |
| KorgoolRules.Settle | src/main/java/com/dominicswaine/seg_agile_project/Logic/Board.java:105-130 | landing on one's own side changes nothing; settling keeps the side to play and the opponent's kazan, and never lowers a kazan; its exact effects are `TuzCreation`, `EvenCapture` and `NoCapture` |
| KorgoolRules.Play | src/main/java/com/dominicswaine/seg_agile_project/Logic/Board.java:77-133 | a play yields a well-formed board; its effects are stated by `PlayNoOp`, `TuzCreation`, `EvenCapture`, `NoCapture`, `PlayTotal`, `KazansGrow` and `PlayKeepsTuzConsistent` |
| KorgoolBoard.Board.Redistribute | src/main/java/com/dominicswaine/seg_agile_project/Logic/Board.java:77-133 | the new board is `Play` of the old board: sow, settle and pass the turn, or nothing when the hole is not the mover's or is empty |
| KorgoolBoard.Board.Sow | src/main/java/com/dominicswaine/seg_agile_project/Logic/Board.java:84-102 | the deposit loop leaves the holes as `Sown` says and returns the landing hole `Landing` |
| KorgoolBoard.Board.SettleLanding | src/main/java/com/dominicswaine/seg_agile_project/Logic/Board.java:105-130 | the Java tuz test and the even test give exactly the state `Settle` describes |
| KorgoolBoard.Board.MakeTuz | src/main/java/com/dominicswaine/seg_agile_project/Logic/Board.java:111-122 | marks the tuz, sets hasTuz, adds twice the hole's count to the mover's kazan, empties the hole |
| KorgoolBoard.Board.CaptureHole | src/main/java/com/dominicswaine/seg_agile_project/Logic/Board.java:125-128 | adds the hole's count to the mover's kazan and empties the hole |
| KorgoolBoard.Board.AddToKazan | src/main/java/com/dominicswaine/seg_agile_project/Logic/Board.java:118-120 | the one-at-a-time loop raises kazan k by exactly c and leaves the other kazan alone |
| KorgoolBoard.Board.RandomMove | src/main/java/com/dominicswaine/seg_agile_project/Logic/Board.java:153-162 | plays the choice-th legal move of the side to play |
| KorgoolBoard.Board.ChallengeMove | src/main/java/com/dominicswaine/seg_agile_project/Logic/Board.java:170-201 | the scan with its running maxOutcome/returnIndex plays exactly `ChallengeChoice` of the old board |
| KorgoolRules.PredictedLanding | src/main/java/com/dominicswaine/seg_agile_project/Logic/Board.java:178 | the predicted landing hole is a hole index: the hole itself for a single piece, and the real landing hole `Landing` for two or more |
| KorgoolRules.PredictedCount | src/main/java/com/dominicswaine/seg_agile_project/Logic/Board.java:180 | the predicted count is one more than the pieces in the predicted landing hole, so at least 1 |
| KorgoolRules.TuzTarget | src/main/java/com/dominicswaine/seg_agile_project/Logic/Board.java:181 | a move predicted to make a tuz is not also a capture candidate |
| KorgoolRules.CaptureCandidate | src/main/java/com/dominicswaine/seg_agile_project/Logic/Board.java:190 | a capture candidate has a predicted count of at least 2 |
| KorgoolRules.FirstTuzTarget | src/main/java/com/dominicswaine/seg_agile_project/Logic/Board.java:176-189 | gives the position of the first tuz target from k on, with no target before it, or the end of the list |
| KorgoolRules.BestSoFar | src/main/java/com/dominicswaine/seg_agile_project/Logic/Board.java:190-193 | the running returnIndex is -1 or a hole index |
| KorgoolProperties.PlayNoOp | src/main/java/com/dominicswaine/seg_agile_project/Logic/Board.java:79-86 | a hole not owned by the mover, or an empty hole, leaves the whole board unchanged; any other play flips the side to play |
| KorgoolRules.Deposited | src/main/java/com/dominicswaine/seg_agile_project/Logic/Board.java:96-98 | the deposit loop's holes after k steps are again 18 holes; the per-hole gain is `DepositedAt` |
| KorgoolProperties.DepositedAt | src/main/java/com/dominicswaine/seg_agile_project/Logic/Board.java:96-98 | after k deposits from hole i, hole j holds its old count plus the number of steps 1..k that are congruent, modulo 18, to the distance from i to j |
| KorgoolProperties.DepositedSum | src/main/java/com/dominicswaine/seg_agile_project/Logic/Board.java:96-98 | k deposits add exactly k pieces to the board |
| KorgoolProperties.SingleSow | src/main/java/com/dominicswaine/seg_agile_project/Logic/Board.java:88-91 | one piece empties hole i, adds one to hole (i + 1) % 18, which is the landing hole, and touches nothing else |
| KorgoolProperties.MultiSow | src/main/java/com/dominicswaine/seg_agile_project/Logic/Board.java:93-102 | for 2 ≤ n ≤ 18 the source keeps 1 piece, each of the next n - 1 holes gains exactly 1, the rest are unchanged, and the landing hole is (i + n - 1) % 18 |
| KorgoolProperties.MultiSowAt | src/main/java/com/dominicswaine/seg_agile_project/Logic/Board.java:96-98 | a hole other than the source gains one exactly when it is within n - 1 steps of it |
| KorgoolProperties.SowingTotal | src/main/java/com/dominicswaine/seg_agile_project/Logic/Board.java:88-102 | sowing keeps the pieces in the holes, except for the (n - 1) / 18 that wrap into the source hole and are wiped |
| KorgoolProperties.SingleSowTotal | src/main/java/com/dominicswaine/seg_agile_project/Logic/Board.java:88-91 | a single-piece sow keeps the sum over the holes |
| KorgoolProperties.MultiSowTotal | src/main/java/com/dominicswaine/seg_agile_project/Logic/Board.java:93-102 | a multi-piece sow loses exactly the (n - 1) / 18 wrapped deposits |
| KorgoolProperties.LandingOccupied | src/main/java/com/dominicswaine/seg_agile_project/Logic/Board.java:88-102 | after any sow the landing hole holds at least one piece |
| KorgoolProperties.TuzCreation | src/main/java/com/dominicswaine/seg_agile_project/Logic/Board.java:105-123 | a tuz is made if and only if the landing hole is the opponent's, not 8 or 17, holds 3, is not a tuz, the mover has no tuz and the ±9 clause passes; then the hole is marked and emptied, hasTuz is set, and the mover's kazan gains 6 |
| KorgoolProperties.EvenCapture | src/main/java/com/dominicswaine/seg_agile_project/Logic/Board.java:124-129 | without a new tuz, an even count c on the opponent's side is emptied into the mover's kazan, which rises by exactly c; nothing else changes |
| KorgoolProperties.TuzHoleIsOrdinary | src/main/java/com/dominicswaine/seg_agile_project/Logic/Board.java:124-129 | landing on a hole already marked as a tuz is settled by the even rule alone: it is emptied into the mover's kazan if even and on the opponent's side, and otherwise nothing changes |
| KorgoolProperties.NoCapture | src/main/java/com/dominicswaine/seg_agile_project/Logic/Board.java:105 | landing on one's own side or on an odd count without a tuz changes no kazan and no flag, only the sown holes |
| KorgoolProperties.PlayTotal | src/main/java/com/dominicswaine/seg_agile_project/Logic/Board.java:77-133 | pieces on the board after a play: unchanged, plus 3 when a tuz is made, minus the (n - 1) / 18 wiped deposits |
| KorgoolProperties.Conservation | src/main/java/com/dominicswaine/seg_agile_project/Logic/Board.java:124-129 | for n ≤ 18 the sum over holes and kazans is unchanged except for the 3 extra pieces of a tuz creation |
| KorgoolProperties.KazansGrow | src/main/java/com/dominicswaine/seg_agile_project/Logic/Board.java:118-127 | a play never removes pieces from a kazan |
| KorgoolProperties.SettleKeepsTuzConsistent | src/main/java/com/dominicswaine/seg_agile_project/Logic/Board.java:110-122 | settling the landing hole keeps tuz consistency, clears no tuz or hasTuz flag, and gives no second tuz to a side that has one |
| KorgoolProperties.PlayKeepsTuzConsistent | src/main/java/com/dominicswaine/seg_agile_project/Logic/Board.java:110-113 | tuz consistency holds after every play: a tuz lies on the opponent side of a player marked as holding one, never on 8 or 17, and at most one per side. Tuz and hasTuz flags are never cleared, and a side that already has a tuz gets no second one |
| KorgoolProperties.MirrorClauseInert | src/main/java/com/dominicswaine/seg_agile_project/Logic/Board.java:106-110 | in a consistent position, a mover without a tuz finds no tuz on the opponent's holes, so the ±9 clause never changes the outcome |
| KorgoolRules.ChallengeChoice | src/main/java/com/dominicswaine/seg_agile_project/Logic/Board.java:170-201 | the chooser always picks a legal move: a non-empty hole of the side to play; its priorities are `ChallengePrefersTuz`, `ChallengeMaximisesCapture` and `ChallengeFallsBack` |
| KorgoolProperties.MovesArePlays | src/main/java/com/dominicswaine/seg_agile_project/Logic/Board.java:154-161 | every legal move is a real play that passes the turn, so the re-sampling loop never runs |
| KorgoolProperties.BestSoFarFound | src/main/java/com/dominicswaine/seg_agile_project/Logic/Board.java:190-193 | the running best is -1 exactly when no capture candidate was seen, and otherwise a seen candidate with that count |
| KorgoolProperties.BestSoFarMaximal | src/main/java/com/dominicswaine/seg_agile_project/Logic/Board.java:190-193 | no seen candidate has a larger count than the running best, and none below it has an equal one |
| KorgoolProperties.BestSoFarIsBest | src/main/java/com/dominicswaine/seg_agile_project/Logic/Board.java:171-194 | the running best is -1 exactly when no candidate was seen; otherwise it is a seen candidate with the largest even predicted count, the lowest hole on a tie |
| KorgoolProperties.ChallengeStopsAtTuz | src/main/java/com/dominicswaine/seg_agile_project/Logic/Board.java:181-188 | proof step for `Board.ChallengeMove`: when the i-th move is the first tuz target, the chooser plays it |
| KorgoolProperties.ChallengeAfterScan | src/main/java/com/dominicswaine/seg_agile_project/Logic/Board.java:196-200 | proof step for `Board.ChallengeMove`: with no tuz target, the chooser plays the recorded returnIndex, or the random pick when it is -1 |
| KorgoolProperties.ChallengePrefersTuz | src/main/java/com/dominicswaine/seg_agile_project/Logic/Board.java:176-189 | if any move is a tuz target, the chosen move is a legal tuz target and no lower legal move is one |
| KorgoolProperties.ChallengeMaximisesCapture | src/main/java/com/dominicswaine/seg_agile_project/Logic/Board.java:190-200 | with no tuz target but some capture candidate, the choice is a candidate whose predicted even count is the largest, the lowest hole among equals |
| KorgoolProperties.ChallengeFallsBack | src/main/java/com/dominicswaine/seg_agile_project/Logic/Board.java:196-198 | with neither, the chooser plays the caller's random pick |
| KorgoolProperties.ChallengeSkipsSingles | src/main/java/com/dominicswaine/seg_agile_project/Logic/Board.java:178-179 | a one-piece hole is predicted to land in itself rather than where it lands, so it is never a tuz target and never a capture candidate |
| KorgoolProperties.ChallengePredictsLanding | src/main/java/com/dominicswaine/seg_agile_project/Logic/Board.java:178 | for two or more pieces the predicted landing hole is the real one |

## Left out

- `Parser.java` is not part of this model. It is JSON reading and writing through an external library, file I/O, and launching the game window.
- The removal of the GUI mouse listener on a new Black tuz (`Board.java:114-117`) is left out, because it is presentation code. It leaves the game state alone only when a GUI with at least one mouse listener is attached to the hole. Otherwise `getMouseListeners()[0]` throws after `markAsTuz` and `makeTuz` but before the kazan is credited. The model assumes a GUI is attached.
- `RandomMove` and `ChallengeMove` require `choice` below the number of legal moves, so the side to play must have a legal move. When it has none, the source throws `IndexOutOfBoundsException` at `Board.java:156`, and `challengeMove`'s fallback at `Board.java:197` reaches the same throw; that exception is not modelled.
- `Math.random()` in `randomMove` is replaced by a caller-supplied `choice` below the number of legal moves. `ChallengeMove` takes the same `choice` for its fallback. The re-sampling `while` loop is not modelled: it is unreachable, since a legal move is never empty (`KorgoolProperties.MovesArePlays`).
- The `Hole`, `Kazan`, `Korgool` and `Side` classes are not part of this model, so their contents are assumptions:
  - Pieces are fungible, so each hole and kazan is a count.
  - A new board's hole counts are a constructor parameter, because the `Hole` constructor's initial fill is not shown.
  - Kazans start empty.
  - Ownership is holes 0–8 for White and 9–17 for Black.
  - `addKorgool` on a tuz hole behaves as on any other hole.
- The hasTuz flags are fields of each board. The source keeps them on the global `Side` enum, so they are shared by every board object in the source; that sharing is not modelled. The constructor at `Board.java:23-29` does not clear those global flags, so a second board in the source inherits them. The model's constructor sets both to false.
- `Sow` fixes the piece count n of the chosen hole before depositing, treating the list `getKoorgools()` returns as a stable copy. If that list were the live list, depositing back into the source hole (n ≥ 19) could behave differently.
- The getters `getHoles`, `getKazans`, `getKazanByIndex`, `getHoleByIndex` and `getNextToPlay` are left out, because each only returns a field.
- `Redistribute` requires a hole index below 18. The source throws `ArrayIndexOutOfBoundsException` at `Board.java:79` for any other index; that exception is not modelled.
- `AvailableMoves` returns hole indices instead of `Hole` objects.
- `ChallengeMove`: the source plays a tuz target from inside its loop and returns. The model leaves the loop at the same point and plays the same move right after it.
- `ChallengeMove`: the duplicated inner check at `Board.java:182-188` is collapsed into one branch, because both of its branches do the same thing.
- `KorgoolProperties.MultiSow` and `KorgoolProperties.Conservation` require n ≤ 18. For larger sows, `KorgoolProperties.SowingTotal` and `KorgoolProperties.PlayTotal` give the exact loss instead.

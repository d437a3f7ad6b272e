/** The rules of the Toguz Korgool board as values: a board position, the
    sowing step, the capture and tuz rules on the landing hole, the legal
    moves of a side, the tuz lookup and the greedy one-ply chooser.  The
    class in board.dfy is proved to compute exactly these functions. */
module KorgoolRules {

  datatype Side = White | Black

  function Opponent(s: Side): (o: Side)
    ensures o != s
  {
    if s == White then Black else White
  }

  /** Holes 0..8 belong to White, holes 9..17 to Black. */
  function Owner(i: nat): (s: Side)
    ensures s == White <==> i < 9
  {
    if i < 9 then White else Black
  }

  /** Kazan 0 is White's, kazan 1 is Black's. */
  function KazanIndex(s: Side): (k: nat)
    ensures k < 2
  {
    if s == White then 0 else 1
  }

  /** A snapshot of the board: piece counts of the 18 holes, their tuz
      flags, the two kazan counts, the side to play and whether each side
      has already made its tuz. */
  datatype Position = Position(
    holes: seq<nat>,
    tuz: seq<bool>,
    kazans: seq<nat>,
    next: Side,
    whiteHasTuz: bool,
    blackHasTuz: bool)

  predicate WellFormed(p: Position)
  {
    |p.holes| == 18 && |p.tuz| == 18 && |p.kazans| == 2
  }

  function HasTuz(p: Position, s: Side): bool
  {
    if s == White then p.whiteHasTuz else p.blackHasTuz
  }

  /** The position with side s recorded as having made its tuz. */
  function MarkHasTuz(p: Position, s: Side): (q: Position)
    ensures HasTuz(q, s) && HasTuz(q, Opponent(s)) == HasTuz(p, Opponent(s))
    ensures q.holes == p.holes && q.tuz == p.tuz && q.kazans == p.kazans && q.next == p.next
  {
    if s == White then p.(whiteHasTuz := true) else p.(blackHasTuz := true)
  }

  function Sum(s: seq<nat>): nat
  {
    if s == [] then 0 else s[0] + Sum(s[1..])
  }

  /** Every piece on the board: the holes and both kazans. */
  function Total(p: Position): nat
    requires WellFormed(p)
  {
    Sum(p.holes) + p.kazans[0] + p.kazans[1]
  }

  // ---------------------------------------------------------------------
  // Sowing

  /** The holes after dropping one piece into each of the holes
      (i + 1) % 18, ..., (i + k) % 18, in that order. */
  function Deposited(h: seq<nat>, i: nat, k: nat): (r: seq<nat>)
    requires |h| == 18
    ensures |r| == 18
  {
    if k == 0 then h
    else
      var r := Deposited(h, i, k - 1);
      r[(i + k) % 18 := r[(i + k) % 18] + 1]
  }

  /** The hole after hole i, counter-clockwise round the board. */
  function NextHole(i: nat): (j: nat)
    requires i < 18
    ensures j < 18 && j != i
  {
    (i + 1) % 18
  }

  /** The hole a sow from hole i ends in: the next hole for a single piece,
      the (n - 1)-th hole after i for n >= 2 pieces. */
  function Landing(h: seq<nat>, i: nat): (last: nat)
    requires |h| == 18 && i < 18 && h[i] >= 1
    ensures last < 18
  {
    if h[i] == 1 then NextHole(i) else (i + h[i] - 1) % 18
  }

  /** The holes after sowing hole i, before any capture.  A single piece
      moves to the next hole.  With n >= 2 pieces, n - 1 of them are dropped
      one by one into the following holes and the first one picked up goes
      back into hole i, which is otherwise emptied. */
  function Sown(h: seq<nat>, i: nat): (r: seq<nat>)
    requires |h| == 18 && i < 18 && h[i] >= 1
    ensures |r| == 18
    ensures r[i] == if h[i] == 1 then 0 else 1
  {
    if h[i] == 1 then
      h[NextHole(i) := h[NextHole(i)] + 1][i := 0]
    else
      Deposited(h, i, h[i] - 1)[i := 1]
  }

  // ---------------------------------------------------------------------
  // Tuz lookup

  /** The lowest index j >= k whose hole is a tuz owned by s, or -1. */
  function TuzFrom(tuz: seq<bool>, s: Side, k: nat): (r: int)
    requires |tuz| == 18 && k <= 18
    decreases 18 - k
    ensures r == -1 || k <= r < 18
    ensures r != -1 ==> tuz[r] && Owner(r) == s
    ensures forall j :: k <= j < 18 && (r == -1 || j < r) ==> !(tuz[j] && Owner(j) == s)
  {
    if k == 18 then -1
    else if tuz[k] && Owner(k) == s then k
    else TuzFrom(tuz, s, k + 1)
  }

  /** The index of the tuz hole owned by s, the lowest if there are several,
      or -1 when there is none. */
  function PlayerTuz(tuz: seq<bool>, s: Side): (r: int)
    requires |tuz| == 18
    ensures r == -1 || (0 <= r < 18 && tuz[r] && Owner(r) == s)
    ensures forall j :: 0 <= j < 18 && (r == -1 || j < r) ==> !(tuz[j] && Owner(j) == s)
  {
    TuzFrom(tuz, s, 0)
  }

  // ---------------------------------------------------------------------
  // Capture and tuz creation

  /** Whether landing in hole last (owned by the opponent of p.next, with
      the sown counts already in p.holes) turns it into p.next's tuz.  The
      mirror clause uses the tuz found on the opponent's holes, as the
      source does. */
  predicate TuzAllowed(p: Position, last: nat)
    requires WellFormed(p) && last < 18
    ensures TuzAllowed(p, last) ==>
      last != 8 && last != 17 && p.holes[last] == 3 && !p.tuz[last] && !HasTuz(p, p.next)
  {
    var t := PlayerTuz(p.tuz, Opponent(p.next));
    ((t - 9 != last && t + 9 != last) || t == -1)
    && last != 8 && last != 17
    && p.holes[last] == 3
    && !p.tuz[last]
    && !HasTuz(p, p.next)
  }

  /** The capture evaluation for p.next on hole last.  A new tuz moves its
      pieces into the mover's kazan twice over (once as fresh pieces, once
      as the hole's own pieces); an even count is captured once; anything
      else, and any landing on the mover's own side, changes nothing. */
  function Settle(p: Position, last: nat): (q: Position)
    requires WellFormed(p) && last < 18
    ensures WellFormed(q)
    ensures Owner(last) == p.next ==> q == p
    ensures q.next == p.next
    ensures q.kazans[0] >= p.kazans[0] && q.kazans[1] >= p.kazans[1]
    ensures q.kazans[KazanIndex(Opponent(p.next))] == p.kazans[KazanIndex(Opponent(p.next))]
  {
    if Owner(last) == p.next then p
    else
      var c := p.holes[last];
      var k := KazanIndex(p.next);
      if TuzAllowed(p, last) then
        MarkHasTuz(p, p.next).(
          tuz := p.tuz[last := true],
          kazans := p.kazans[k := p.kazans[k] + c + c],
          holes := p.holes[last := 0])
      else if c % 2 == 0 then
        p.(kazans := p.kazans[k := p.kazans[k] + c],
           holes := p.holes[last := 0])
      else p
  }

  /** The position right after sowing hole i, before the landing hole is
      settled. */
  function AfterSow(p: Position, i: nat): (q: Position)
    requires WellFormed(p) && i < 18 && p.holes[i] >= 1
    ensures WellFormed(q)
    ensures q.tuz == p.tuz && q.kazans == p.kazans && q.next == p.next
    ensures HasTuz(q, White) == HasTuz(p, White) && HasTuz(q, Black) == HasTuz(p, Black)
  {
    p.(holes := Sown(p.holes, i))
  }

  /** Playing hole i: a no-op unless i belongs to the side to play and is
      not empty; otherwise sow, settle the landing hole and pass the turn. */
  function Play(p: Position, i: nat): (q: Position)
    requires WellFormed(p) && i < 18
    ensures WellFormed(q)
  {
    if Owner(i) != p.next || p.holes[i] == 0 then p
    else Settle(AfterSow(p, i), Landing(p.holes, i)).(next := Opponent(p.next))
  }

  // ---------------------------------------------------------------------
  // Legal moves

  /** The holes below k that belong to s and are not empty, ascending. */
  function MovesBelow(h: seq<nat>, s: Side, k: nat): (r: seq<nat>)
    requires |h| == 18 && k <= 18
    ensures forall x: nat {:trigger x in r} :: x in r <==> x < k && Owner(x) == s && h[x] != 0
    ensures forall j :: 0 <= j < |r| ==> r[j] < k && Owner(r[j]) == s && h[r[j]] != 0
    ensures forall a, b :: 0 <= a < b < |r| ==> r[a] < r[b]
  {
    if k == 0 then []
    else
      var r := MovesBelow(h, s, k - 1);
      if Owner(k - 1) == s && h[k - 1] != 0 then r + [k - 1] else r
  }

  function Moves(h: seq<nat>, s: Side): (r: seq<nat>)
    requires |h| == 18
    ensures forall x: nat {:trigger x in r} :: x in r <==> x < 18 && Owner(x) == s && h[x] != 0
  {
    MovesBelow(h, s, 18)
  }

  // ---------------------------------------------------------------------
  // The greedy chooser

  /** Every entry is a hole index holding at least one piece. */
  predicate Playable(h: seq<nat>, moves: seq<nat>)
    requires |h| == 18
  {
    forall j :: 0 <= j < |moves| ==> moves[j] < 18 && h[moves[j]] >= 1
  }

  /** The landing hole the chooser predicts for a move: the (n - 1)-th hole
      after it, also for a single piece. */
  function PredictedLanding(h: seq<nat>, idx: nat): (last: nat)
    requires |h| == 18 && idx < 18 && h[idx] >= 1
    ensures last < 18
    ensures h[idx] == 1 ==> last == idx
    ensures h[idx] >= 2 ==> last == Landing(h, idx)
  {
    (idx + h[idx] - 1) % 18
  }

  /** The count the chooser expects in the predicted landing hole. */
  function PredictedCount(p: Position, idx: nat): (c: nat)
    requires WellFormed(p) && idx < 18 && p.holes[idx] >= 1
    ensures c >= 1 && c == p.holes[PredictedLanding(p.holes, idx)] + 1
  {
    p.holes[PredictedLanding(p.holes, idx)] + 1
  }

  /** A move the chooser plays at once, hoping to make a tuz. */
  predicate TuzTarget(p: Position, idx: nat)
    requires WellFormed(p) && idx < 18 && p.holes[idx] >= 1
    ensures TuzTarget(p, idx) ==> !CaptureCandidate(p, idx)
  {
    Owner(PredictedLanding(p.holes, idx)) != p.next
    && PredictedCount(p, idx) == 3
    && !HasTuz(p, p.next)
  }

  /** A move the chooser ranks by its expected even capture. */
  predicate CaptureCandidate(p: Position, idx: nat)
    requires WellFormed(p) && idx < 18 && p.holes[idx] >= 1
    ensures CaptureCandidate(p, idx) ==> PredictedCount(p, idx) >= 2
  {
    Owner(PredictedLanding(p.holes, idx)) != p.next
    && PredictedCount(p, idx) % 2 == 0
  }

  /** The position of the first tuz target in moves[k..], or |moves|. */
  function FirstTuzTarget(p: Position, moves: seq<nat>, k: nat): (r: nat)
    requires WellFormed(p) && Playable(p.holes, moves) && k <= |moves|
    decreases |moves| - k
    ensures k <= r <= |moves|
    ensures r < |moves| ==> TuzTarget(p, moves[r])
    ensures forall j :: k <= j < r ==> !TuzTarget(p, moves[j])
  {
    if k == |moves| then |moves|
    else if TuzTarget(p, moves[k]) then k
    else FirstTuzTarget(p, moves, k + 1)
  }

  /** The chooser's running (maxOutcome, returnIndex) after looking at
      moves[..k]: a strictly larger even expected count replaces the best. */
  function BestSoFar(p: Position, moves: seq<nat>, k: nat): (best: (int, int))
    requires WellFormed(p) && Playable(p.holes, moves) && k <= |moves|
    ensures best.1 == -1 || (0 <= best.1 < 18 && best.1 in moves)
  {
    if k == 0 then (-1, -1)
    else
      var prev := BestSoFar(p, moves, k - 1);
      var idx := moves[k - 1];
      if CaptureCandidate(p, idx) && PredictedCount(p, idx) > prev.0 then
        (PredictedCount(p, idx), idx)
      else prev
  }

  /** The hole the greedy chooser plays: the first tuz target, else the
      best even capture, else the caller's random pick among the moves. */
  function ChallengeChoice(p: Position, choice: nat): (r: nat)
    requires WellFormed(p) && choice < |Moves(p.holes, p.next)|
    ensures r in Moves(p.holes, p.next)
    ensures r < 18 && Owner(r) == p.next && p.holes[r] != 0
  {
    var moves := Moves(p.holes, p.next);
    var first := FirstTuzTarget(p, moves, 0);
    if first < |moves| then moves[first]
    else
      var best := BestSoFar(p, moves, |moves|);
      if best.1 <= -1 then moves[choice] else best.1
  }
}

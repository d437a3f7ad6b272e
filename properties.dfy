/** What the rules of KorgoolRules guarantee: the exact effect of sowing,
    the no-op cases, the tuz and capture conditions, piece conservation,
    the consistency of tuz flags, and the priorities of the greedy
    chooser. */
module KorgoolProperties {
  import opened KorgoolRules

  // ---------------------------------------------------------------------
  // Counting deposits

  /** How many of the steps 1..k land on offset off (mod 18) from the
      hole being sown. */
  function Hits(k: nat, off: nat): nat
  {
    if k == 0 then 0 else Hits(k - 1, off) + (if k % 18 == off then 1 else 0)
  }

  /** How many steps after hole i the hole j comes, going round the board. */
  function Offset(i: nat, j: nat): (d: nat)
    requires i < 18 && j < 18
    ensures d < 18
  {
    (j + 18 - i) % 18
  }

  lemma {:induction false} SumUpdate(s: seq<nat>, j: nat, v: nat)
    requires j < |s|
    ensures Sum(s[j := v]) + s[j] == Sum(s) + v
  {
    if j == 0 {
      assert s[j := v][1..] == s[1..];
    } else {
      SumUpdate(s[1..], j - 1, v);
      assert s[j := v][1..] == s[1..][j - 1 := v];
    }
  }

  /** Hole j gains one piece for each step that reaches it. */
  lemma {:induction false} DepositedAt(h: seq<nat>, i: nat, k: nat, j: nat)
    requires |h| == 18 && i < 18 && j < 18
    ensures Deposited(h, i, k)[j] == h[j] + Hits(k, Offset(i, j))
  {
    if k > 0 {
      DepositedAt(h, i, k - 1, j);
      StepOffset(i, k, j);
    }
  }

  /** Step k from hole i reaches hole j exactly when k is j's offset mod 18. */
  lemma StepOffset(i: nat, k: nat, j: nat)
    requires i < 18 && j < 18
    ensures ((i + k) % 18 == j) == (k % 18 == Offset(i, j))
  {
    var q := k % 18;
    assert k == 18 * (k / 18) + q;
    assert (i + k) % 18 == (i + q) % 18;
  }

  /** Depositing k pieces adds k to the board. */
  lemma {:induction false} DepositedSum(h: seq<nat>, i: nat, k: nat)
    requires |h| == 18
    ensures Sum(Deposited(h, i, k)) == Sum(h) + k
  {
    if k > 0 {
      DepositedSum(h, i, k - 1);
      var r := Deposited(h, i, k - 1);
      SumUpdate(r, (i + k) % 18, r[(i + k) % 18] + 1);
    }
  }

  /** Fewer than 18 steps reach each offset 1..k once and nothing else. */
  lemma {:induction false} HitsShort(k: nat, off: nat)
    requires k <= 17 && off < 18
    ensures Hits(k, off) == if 1 <= off <= k then 1 else 0
  {
    if k > 0 {
      HitsShort(k - 1, off);
    }
  }

  /** The steps that come back round to the hole being sown. */
  lemma {:induction false} HitsHome(k: nat)
    ensures Hits(k, 0) == k / 18
  {
    if k > 0 {
      HitsHome(k - 1);
    }
  }

  // ---------------------------------------------------------------------
  // Sowing

  /** A single piece moves to the next hole, which is the landing hole. */
  lemma SingleSow(h: seq<nat>, i: nat)
    requires |h| == 18 && i < 18 && h[i] == 1
    ensures Landing(h, i) == NextHole(i) == (i + 1) % 18
    ensures Sown(h, i)[i] == 0
    ensures Sown(h, i)[NextHole(i)] == h[NextHole(i)] + 1
    ensures forall j :: 0 <= j < 18 && j != i && j != NextHole(i) ==> Sown(h, i)[j] == h[j]
  {
  }

  /** n pieces with 2 <= n <= 18: one stays, each of the next n - 1 holes
      gains one, the rest of the board is untouched and the last of them
      is the landing hole. */
  lemma MultiSow(h: seq<nat>, i: nat)
    requires |h| == 18 && i < 18 && 2 <= h[i] <= 18
    ensures Landing(h, i) == (i + h[i] - 1) % 18
    ensures Sown(h, i)[i] == 1
    ensures forall j :: 0 <= j < 18 && 1 <= Offset(i, j) < h[i] ==> Sown(h, i)[j] == h[j] + 1
    ensures forall j :: 0 <= j < 18 && j != i && Offset(i, j) >= h[i] ==> Sown(h, i)[j] == h[j]
  {
    forall j | 0 <= j < 18 && j != i
      ensures Sown(h, i)[j] == h[j] + (if Offset(i, j) < h[i] then 1 else 0)
    {
      MultiSowAt(h, i, j);
    }
  }

  /** Hole j != i after a sow of at most 18 pieces from hole i. */
  lemma MultiSowAt(h: seq<nat>, i: nat, j: nat)
    requires |h| == 18 && i < 18 && 2 <= h[i] <= 18 && j < 18 && j != i
    ensures Sown(h, i)[j] == h[j] + (if Offset(i, j) < h[i] then 1 else 0)
  {
    var n := h[i];
    var r := Deposited(h, i, n - 1);
    assert Sown(h, i) == r[i := 1];
    assert r[j] == h[j] + Hits(n - 1, Offset(i, j)) by {
      DepositedAt(h, i, n - 1, j);
    }
    assert Hits(n - 1, Offset(i, j)) == if 1 <= Offset(i, j) < n then 1 else 0 by {
      HitsShort(n - 1, Offset(i, j));
    }
  }

  /** Sowing n pieces keeps the pieces in the holes, except that each of the
      (n - 1) / 18 deposits that come round to the source hole is lost when
      that hole is emptied; for n <= 18 nothing is lost. */
  lemma SowingTotal(h: seq<nat>, i: nat)
    requires |h| == 18 && i < 18 && h[i] >= 1
    ensures Sum(Sown(h, i)) + (h[i] - 1) / 18 == Sum(h)
  {
    if h[i] == 1 {
      SingleSowTotal(h, i);
    } else {
      MultiSowTotal(h, i);
    }
  }

  lemma SingleSowTotal(h: seq<nat>, i: nat)
    requires |h| == 18 && i < 18 && h[i] == 1
    ensures Sum(Sown(h, i)) == Sum(h)
  {
    var j := NextHole(i);
    assert Sum(h[j := h[j] + 1][i := 0]) == Sum(h) by {
      MovePiece(h, j, i);
    }
  }

  /** Moving the single piece of hole i into hole j keeps the sum. */
  lemma MovePiece(h: seq<nat>, j: nat, i: nat)
    requires i < |h| && j < |h| && i != j && h[i] == 1
    ensures Sum(h[j := h[j] + 1][i := 0]) == Sum(h)
  {
    var g := h[j := h[j] + 1];
    SumUpdate(h, j, h[j] + 1);
    SumUpdate(g, i, 0);
  }

  lemma MultiSowTotal(h: seq<nat>, i: nat)
    requires |h| == 18 && i < 18 && h[i] >= 2
    ensures Sum(Sown(h, i)) + (h[i] - 1) / 18 == Sum(h)
  {
    var n := h[i];
    var r := Deposited(h, i, n - 1);
    var wrapped := (n - 1) / 18;
    assert Sown(h, i) == r[i := 1];
    assert r[i] == n + wrapped by {
      DepositedAt(h, i, n - 1, i);
      assert Offset(i, i) == 0;
      HitsHome(n - 1);
    }
    assert Sum(r) == Sum(h) + n - 1 by {
      DepositedSum(h, i, n - 1);
    }
    SumUpdate(r, i, 1);
  }

  /** The tuz test as the board writes it, over the values it reads, is
      TuzAllowed. */
  lemma TuzTestIsTuzAllowed(p: Position, last: nat, t: int, c: nat, isTuz: bool, hasTuz: bool)
    requires WellFormed(p) && last < 18
    requires t == PlayerTuz(p.tuz, Opponent(p.next)) && c == p.holes[last]
    requires isTuz == p.tuz[last] && hasTuz == HasTuz(p, p.next)
    ensures (((t - 9 != last && t + 9 != last) || t == -1)
             && last != 8 && last != 17 && c == 3 && !isTuz && !hasTuz) == TuzAllowed(p, last)
  {
  }

  /** Settle's tuz branch, as a step for the board's proof. */
  lemma SettleMakesTuz(p: Position, last: nat)
    requires WellFormed(p) && last < 18 && Owner(last) != p.next && TuzAllowed(p, last)
    ensures
      var k := KazanIndex(p.next);
      Settle(p, last) == MarkHasTuz(p, p.next).(
        tuz := p.tuz[last := true],
        kazans := p.kazans[k := p.kazans[k] + p.holes[last] + p.holes[last]],
        holes := p.holes[last := 0])
  {
  }

  /** Settle's capture and keep branches, as a step for the board's proof. */
  lemma SettleOtherwise(p: Position, last: nat)
    requires WellFormed(p) && last < 18 && Owner(last) != p.next && !TuzAllowed(p, last)
    ensures
      var k := KazanIndex(p.next);
      Settle(p, last) == if p.holes[last] % 2 == 0
        then p.(kazans := p.kazans[k := p.kazans[k] + p.holes[last]], holes := p.holes[last := 0])
        else p
  {
  }

  /** A hole already marked as a tuz is settled like any other hole: it is
      captured by the even rule alone, and the tuz's beneficiary gains
      nothing from it. */
  lemma TuzHoleIsOrdinary(p: Position, last: nat)
    requires WellFormed(p) && last < 18 && p.tuz[last]
    ensures
      var k := KazanIndex(p.next);
      Settle(p, last) ==
        if Owner(last) != p.next && p.holes[last] % 2 == 0
        then p.(kazans := p.kazans[k := p.kazans[k] + p.holes[last]], holes := p.holes[last := 0])
        else p
  {
  }

  /** The landing hole is never empty after a sow, so an even count there
      is also a non-zero one. */
  lemma LandingOccupied(h: seq<nat>, i: nat)
    requires |h| == 18 && i < 18 && h[i] >= 1
    ensures Sown(h, i)[Landing(h, i)] >= 1
  {
    if h[i] >= 2 {
      var k := h[i] - 1;
      var last := (i + k) % 18;
      if last != i {
        assert Sown(h, i)[last] == Deposited(h, i, k)[last];
        DepositedAt(h, i, k, last);
        StepOffset(i, k, last);
        assert Hits(k, k % 18) >= 1;
      }
    }
  }

  // ---------------------------------------------------------------------
  // Playing a hole

  /** A hole of the other side, or an empty hole, leaves everything as it
      was; any other play passes the turn. */
  lemma PlayNoOp(p: Position, i: nat)
    requires WellFormed(p) && i < 18
    ensures Owner(i) != p.next || p.holes[i] == 0 ==> Play(p, i) == p
    ensures Owner(i) == p.next && p.holes[i] != 0 ==> Play(p, i).next == Opponent(p.next)
  {
  }

  /** A tuz is made exactly when the landing hole is the opponent's, is not
      hole 8 or 17, holds 3 pieces, is not a tuz yet, the mover has no tuz,
      and the mirror clause on the tuz t found on the opponent's holes
      passes; it then empties that hole into the mover's kazan twice over. */
  lemma TuzCreation(p: Position, i: nat)
    requires WellFormed(p) && i < 18 && Owner(i) == p.next && p.holes[i] >= 1
    ensures
      var last := Landing(p.holes, i);
      var c := Sown(p.holes, i)[last];
      var t := PlayerTuz(p.tuz, Opponent(p.next));
      var q := Play(p, i);
      var k := KazanIndex(p.next);
      var creates :=
        Owner(last) != p.next && last != 8 && last != 17 && c == 3
        && !p.tuz[last] && !HasTuz(p, p.next)
        && (t == -1 || (last != t - 9 && last != t + 9));
      (q.tuz != p.tuz <==> creates)
      && (creates ==>
            q.tuz == p.tuz[last := true] && HasTuz(q, p.next)
            && q.holes == Sown(p.holes, i)[last := 0]
            && q.kazans[k] == p.kazans[k] + 6
            && q.kazans[KazanIndex(Opponent(p.next))] == p.kazans[KazanIndex(Opponent(p.next))])
  {
  }

  /** Landing on the opponent's side with an even count and no new tuz:
      the hole is emptied into the mover's kazan and nothing else changes. */
  lemma EvenCapture(p: Position, i: nat)
    requires WellFormed(p) && i < 18 && Owner(i) == p.next && p.holes[i] >= 1
    requires Owner(Landing(p.holes, i)) != p.next
    requires !TuzAllowed(AfterSow(p, i), Landing(p.holes, i))
    requires Sown(p.holes, i)[Landing(p.holes, i)] % 2 == 0
    ensures
      var last := Landing(p.holes, i);
      var c := Sown(p.holes, i)[last];
      var q := Play(p, i);
      var k := KazanIndex(p.next);
      q.holes == Sown(p.holes, i)[last := 0]
      && q.kazans[k] == p.kazans[k] + c
      && q.kazans[KazanIndex(Opponent(p.next))] == p.kazans[KazanIndex(Opponent(p.next))]
      && q.tuz == p.tuz && HasTuz(q, White) == HasTuz(p, White) && HasTuz(q, Black) == HasTuz(p, Black)
  {
  }

  /** Landing on the mover's own side, or on an odd count without a new tuz:
      only the sowing itself changes the board. */
  lemma NoCapture(p: Position, i: nat)
    requires WellFormed(p) && i < 18 && Owner(i) == p.next && p.holes[i] >= 1
    requires
      var last := Landing(p.holes, i);
      Owner(last) == p.next
      || (!TuzAllowed(AfterSow(p, i), last) && Sown(p.holes, i)[last] % 2 == 1)
    ensures
      var q := Play(p, i);
      q.holes == Sown(p.holes, i) && q.kazans == p.kazans && q.tuz == p.tuz
      && HasTuz(q, White) == HasTuz(p, White) && HasTuz(q, Black) == HasTuz(p, Black)
  {
  }

  /** The pieces on the board after a play: unchanged, except for 3 more on
      tuz creation and (n - 1) / 18 fewer when a sow of n comes round. */
  lemma PlayTotal(p: Position, i: nat)
    requires WellFormed(p) && i < 18 && Owner(i) == p.next && p.holes[i] >= 1
    ensures Total(Play(p, i)) + (p.holes[i] - 1) / 18
            == Total(p) + (if Play(p, i).tuz != p.tuz then 3 else 0)
  {
    var s := AfterSow(p, i);
    var last := Landing(p.holes, i);
    SowingTotal(p.holes, i);
    if Owner(last) != p.next && (TuzAllowed(s, last) || s.holes[last] % 2 == 0) {
      SumUpdate(s.holes, last, 0);
    }
  }

  /** Conservation for sows of at most 18 pieces: only tuz creation changes
      the number of pieces, by 3. */
  lemma Conservation(p: Position, i: nat)
    requires WellFormed(p) && i < 18 && Owner(i) == p.next && 1 <= p.holes[i] <= 18
    ensures Total(Play(p, i)) == Total(p) + (if Play(p, i).tuz != p.tuz then 3 else 0)
  {
    assert (p.holes[i] - 1) / 18 == 0;
    PlayTotal(p, i);
  }

  /** A play never takes pieces out of a kazan. */
  lemma KazansGrow(p: Position, i: nat)
    requires WellFormed(p) && i < 18
    ensures Play(p, i).kazans[0] >= p.kazans[0] && Play(p, i).kazans[1] >= p.kazans[1]
  {
  }

  // ---------------------------------------------------------------------
  // Tuz flags

  /** Every tuz lies on the side opposite the player it serves, is neither
      hole 8 nor hole 17, and that player is recorded as having a tuz; no
      side's holes carry two tuz flags. */
  predicate TuzConsistent(p: Position)
    requires WellFormed(p)
  {
    (forall j :: 0 <= j < 18 && p.tuz[j] ==>
       j != 8 && j != 17 && HasTuz(p, Opponent(Owner(j))))
    && (forall a, b :: 0 <= a < 18 && 0 <= b < 18 && p.tuz[a] && p.tuz[b] && Owner(a) == Owner(b) ==> a == b)
  }

  /** Settling the landing hole keeps the tuz flags consistent; it is the
      step of PlayKeepsTuzConsistent where a tuz can appear. */
  lemma SettleKeepsTuzConsistent(p: Position, last: nat)
    requires WellFormed(p) && last < 18 && TuzConsistent(p)
    ensures TuzConsistent(Settle(p, last))
    ensures forall j :: 0 <= j < 18 && p.tuz[j] ==> Settle(p, last).tuz[j]
    ensures forall s :: HasTuz(p, s) ==> HasTuz(Settle(p, last), s)
    ensures forall s, j :: HasTuz(p, s) && 0 <= j < 18 && Owner(j) == Opponent(s) ==> Settle(p, last).tuz[j] == p.tuz[j]
  {
    if Owner(last) != p.next && TuzAllowed(p, last) {
      assert Opponent(Owner(last)) == p.next;
    }
  }

  /** Playing keeps the tuz flags consistent, never clears a tuz or a hasTuz
      flag, and never gives a side that has a tuz a second one. */
  lemma PlayKeepsTuzConsistent(p: Position, i: nat)
    requires WellFormed(p) && i < 18 && TuzConsistent(p)
    ensures TuzConsistent(Play(p, i))
    ensures forall j :: 0 <= j < 18 && p.tuz[j] ==> Play(p, i).tuz[j]
    ensures forall s :: HasTuz(p, s) ==> HasTuz(Play(p, i), s)
    ensures forall s, j :: HasTuz(p, s) && 0 <= j < 18 && Owner(j) == Opponent(s) ==> Play(p, i).tuz[j] == p.tuz[j]
  {
    if Owner(i) == p.next && p.holes[i] != 0 {
      var s := AfterSow(p, i);
      var last := Landing(p.holes, i);
      assert TuzConsistent(s);
      SettleKeepsTuzConsistent(s, last);
      var q := Settle(s, last);
      assert Play(p, i) == q.(next := Opponent(p.next));
      assert TuzConsistent(q.(next := Opponent(p.next)));
    }
  }

  /** In a consistent position the mirror clause never decides anything:
      a mover without a tuz finds no tuz on the opponent's holes. */
  lemma MirrorClauseInert(p: Position, last: nat)
    requires WellFormed(p) && TuzConsistent(p) && last < 18
    ensures !HasTuz(p, p.next) ==> PlayerTuz(p.tuz, Opponent(p.next)) == -1
    ensures TuzAllowed(p, last) <==>
              last != 8 && last != 17 && p.holes[last] == 3 && !p.tuz[last] && !HasTuz(p, p.next)
  {
    var t := PlayerTuz(p.tuz, Opponent(p.next));
    if t != -1 {
      assert HasTuz(p, Opponent(Owner(t)));
    }
  }

  // ---------------------------------------------------------------------
  // Random move

  /** Every legal move is a real play: it never hits the no-op case. */
  lemma MovesArePlays(p: Position, choice: nat)
    requires WellFormed(p) && choice < |Moves(p.holes, p.next)|
    ensures Play(p, Moves(p.holes, p.next)[choice]).next == Opponent(p.next)
  {
  }

  // ---------------------------------------------------------------------
  // The greedy chooser

  /** Ascending moves. */
  predicate Increasing(moves: seq<nat>)
  {
    forall a, b :: 0 <= a < b < |moves| ==> moves[a] < moves[b]
  }

  /** The running best is the largest even expected count among the
      candidates seen, held by the lowest such hole, or -1 if none. */
  lemma BestSoFarIsBest(p: Position, moves: seq<nat>, k: nat)
    requires WellFormed(p) && Playable(p.holes, moves) && Increasing(moves) && k <= |moves|
    ensures
      var best := BestSoFar(p, moves, k);
      (best.1 == -1 <==> forall j :: 0 <= j < k ==> !CaptureCandidate(p, moves[j]))
      && (best.1 == -1 ==> best.0 == -1)
      && (best.1 != -1 ==>
            best.1 in moves[..k] && CaptureCandidate(p, best.1) && PredictedCount(p, best.1) == best.0)
      && (forall j :: 0 <= j < k && CaptureCandidate(p, moves[j]) ==>
            PredictedCount(p, moves[j]) < best.0
            || (PredictedCount(p, moves[j]) == best.0 && best.1 <= moves[j]))
  {
    BestSoFarFound(p, moves, k);
    BestSoFarMaximal(p, moves, k);
  }

  /** The running best is -1 exactly when no candidate was seen, and is
      otherwise a seen candidate with its expected count. */
  lemma {:induction false} BestSoFarFound(p: Position, moves: seq<nat>, k: nat)
    requires WellFormed(p) && Playable(p.holes, moves) && k <= |moves|
    ensures
      var best := BestSoFar(p, moves, k);
      (best.1 == -1 <==> forall j :: 0 <= j < k ==> !CaptureCandidate(p, moves[j]))
      && (best.1 == -1 ==> best.0 == -1)
      && (best.1 != -1 ==>
            best.1 in moves[..k] && CaptureCandidate(p, best.1) && PredictedCount(p, best.1) == best.0)
  {
    if k > 0 {
      BestSoFarFound(p, moves, k - 1);
      assert moves[..k] == moves[..k - 1] + [moves[k - 1]];
    }
  }

  /** No candidate seen beats the running best, and a tie keeps the lower
      hole. */
  lemma {:induction false} BestSoFarMaximal(p: Position, moves: seq<nat>, k: nat)
    requires WellFormed(p) && Playable(p.holes, moves) && Increasing(moves) && k <= |moves|
    ensures
      var best := BestSoFar(p, moves, k);
      forall j :: 0 <= j < k && CaptureCandidate(p, moves[j]) ==>
        PredictedCount(p, moves[j]) < best.0
        || (PredictedCount(p, moves[j]) == best.0 && best.1 <= moves[j])
  {
    if k > 0 {
      BestSoFarMaximal(p, moves, k - 1);
      BestSoFarFound(p, moves, k - 1);
      var prev := BestSoFar(p, moves, k - 1);
      var idx := moves[k - 1];
      if CaptureCandidate(p, idx) && PredictedCount(p, idx) > prev.0 {
        assert BestSoFar(p, moves, k) == (PredictedCount(p, idx), idx);
      } else {
        assert BestSoFar(p, moves, k) == prev;
        if prev.1 != -1 {
          var a :| 0 <= a < k - 1 && moves[a] == prev.1;
          assert prev.1 < idx;
        }
      }
    }
  }

  /** Proof step for Board.ChallengeMove: the chooser stops at the i-th
      move when it is the first tuz target. */
  lemma ChallengeStopsAtTuz(p: Position, choice: nat, i: nat)
    requires WellFormed(p) && choice < |Moves(p.holes, p.next)| && i < |Moves(p.holes, p.next)|
    requires FirstTuzTarget(p, Moves(p.holes, p.next), i) == FirstTuzTarget(p, Moves(p.holes, p.next), 0)
    requires TuzTarget(p, Moves(p.holes, p.next)[i])
    ensures ChallengeChoice(p, choice) == Moves(p.holes, p.next)[i]
  {
  }

  /** Proof step for Board.ChallengeMove: once the scan finds no tuz
      target, the running best decides. */
  lemma ChallengeAfterScan(p: Position, choice: nat)
    requires WellFormed(p) && choice < |Moves(p.holes, p.next)|
    requires var moves := Moves(p.holes, p.next);
      FirstTuzTarget(p, moves, |moves|) == FirstTuzTarget(p, moves, 0)
    ensures
      var moves := Moves(p.holes, p.next);
      var best := BestSoFar(p, moves, |moves|);
      ChallengeChoice(p, choice) == if best.1 <= -1 then moves[choice] else best.1
  {
  }

  /** The first priority: a tuz target is played, the lowest one. */
  lemma ChallengePrefersTuz(p: Position, choice: nat)
    requires WellFormed(p) && choice < |Moves(p.holes, p.next)|
    requires exists j :: 0 <= j < |Moves(p.holes, p.next)| && TuzTarget(p, Moves(p.holes, p.next)[j])
    ensures
      var moves := Moves(p.holes, p.next);
      var r := ChallengeChoice(p, choice);
      r in moves && TuzTarget(p, r)
      && forall j :: 0 <= j < |moves| && moves[j] < r ==> !TuzTarget(p, moves[j])
  {
    var moves := Moves(p.holes, p.next);
    var first := FirstTuzTarget(p, moves, 0);
    forall j | 0 <= j < |moves| && moves[j] < moves[first]
      ensures !TuzTarget(p, moves[j])
    {
      assert j < first;
    }
  }

  /** The second priority: without a tuz target, the candidate with the
      largest even expected count is played, the lowest hole on a tie. */
  lemma ChallengeMaximisesCapture(p: Position, choice: nat)
    requires WellFormed(p) && choice < |Moves(p.holes, p.next)|
    requires forall j :: 0 <= j < |Moves(p.holes, p.next)| ==> !TuzTarget(p, Moves(p.holes, p.next)[j])
    requires exists j :: 0 <= j < |Moves(p.holes, p.next)| && CaptureCandidate(p, Moves(p.holes, p.next)[j])
    ensures
      var moves := Moves(p.holes, p.next);
      var r := ChallengeChoice(p, choice);
      r in moves && CaptureCandidate(p, r)
      && forall j :: 0 <= j < |moves| && CaptureCandidate(p, moves[j]) ==>
           PredictedCount(p, moves[j]) < PredictedCount(p, r)
           || (PredictedCount(p, moves[j]) == PredictedCount(p, r) && r <= moves[j])
  {
    var moves := Moves(p.holes, p.next);
    BestSoFarIsBest(p, moves, |moves|);
    assert moves[..|moves|] == moves;
  }

  /** The last resort: with neither, the caller's random pick is played. */
  lemma ChallengeFallsBack(p: Position, choice: nat)
    requires WellFormed(p) && choice < |Moves(p.holes, p.next)|
    requires forall j :: 0 <= j < |Moves(p.holes, p.next)| ==> !TuzTarget(p, Moves(p.holes, p.next)[j])
    requires forall j :: 0 <= j < |Moves(p.holes, p.next)| ==> !CaptureCandidate(p, Moves(p.holes, p.next)[j])
    ensures ChallengeChoice(p, choice) == Moves(p.holes, p.next)[choice]
  {
    var moves := Moves(p.holes, p.next);
    BestSoFarIsBest(p, moves, |moves|);
  }

  /** A single-piece hole is predicted to land in itself, not in the hole
      its sow really reaches, so the chooser never ranks it. */
  lemma ChallengeSkipsSingles(p: Position, idx: nat)
    requires WellFormed(p) && idx < 18 && Owner(idx) == p.next && p.holes[idx] == 1
    ensures PredictedLanding(p.holes, idx) == idx != Landing(p.holes, idx)
    ensures !TuzTarget(p, idx) && !CaptureCandidate(p, idx)
  {
  }

  /** For two or more pieces the prediction is the real landing hole. */
  lemma ChallengePredictsLanding(p: Position, idx: nat)
    requires WellFormed(p) && idx < 18 && p.holes[idx] >= 2
    ensures PredictedLanding(p.holes, idx) == Landing(p.holes, idx)
  {
  }
}

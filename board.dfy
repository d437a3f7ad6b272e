/** The game board as a mutable object: 18 hole counts and 18 tuz flags in
    arrays, the two kazans (index 0 for White, 1 for Black), the side to
    play and each side's hasTuz flag.  Every operation is proved to have
    the effect the functions of KorgoolRules give it. */
module KorgoolBoard {
  import opened KorgoolRules
  import KorgoolProperties

  class Board {
    var holes: array<nat>
    var tuz: array<bool>
    var kazans: array<nat>
    var nextToPlay: Side
    var whiteHasTuz: bool
    var blackHasTuz: bool

    ghost predicate Valid()
      reads this
    {
      holes.Length == 18 && tuz.Length == 18 && kazans.Length == 2 && holes != kazans
    }

    /** The board as a value. */
    ghost function Snapshot(): (p: Position)
      reads this, holes, tuz, kazans
      requires Valid()
      ensures WellFormed(p)
    {
      Position(holes[..], tuz[..], kazans[..], nextToPlay, whiteHasTuz, blackHasTuz)
    }

    function SideHasTuz(s: Side): bool
      reads this
    {
      if s == White then whiteHasTuz else blackHasTuz
    }

    /** A fresh board: the given piece counts, no tuz, empty kazans, White
        to play. */
    constructor (layout: seq<nat>)
      requires |layout| == 18
      ensures Valid() && fresh(holes) && fresh(tuz) && fresh(kazans)
      ensures Snapshot() == Position(layout, seq(18, _ => false), [0, 0], White, false, false)
      ensures KorgoolProperties.TuzConsistent(Snapshot())
    {
      holes := new nat[18](j requires 0 <= j < 18 => layout[j]);
      tuz := new bool[18](_ => false);
      kazans := new nat[2](_ => 0);
      nextToPlay := White;
      whiteHasTuz, blackHasTuz := false, false;
      new;
      assert kazans[..] == [0, 0];
    }

    /** The index of the tuz hole owned by side owner, or -1. */
    method GetPlayerTuz(owner: Side) returns (r: int)
      requires Valid()
      ensures r == PlayerTuz(tuz[..], owner)
    {
      for i := 0 to 18
        invariant TuzFrom(tuz[..], owner, i) == PlayerTuz(tuz[..], owner)
      {
        if tuz[i] && Owner(i) == owner {
          return i;
        }
      }
      return -1;
    }

    /** The holes of turnSide that hold pieces, ascending. */
    method AvailableMoves(turnSide: Side) returns (moves: seq<nat>)
      requires Valid()
      ensures moves == Moves(holes[..], turnSide)
    {
      moves := [];
      for i := 0 to 18
        invariant moves == MovesBelow(holes[..], turnSide, i)
      {
        if Owner(i) == turnSide && holes[i] != 0 {
          moves := moves + [i];
        }
      }
    }

    /** Plays hole holeIndex for nextToPlay: sows it, settles the landing
        hole and passes the turn, or does nothing at all when the hole
        belongs to the other side or is empty. */
    method Redistribute(holeIndex: nat)
      requires Valid() && holeIndex < 18
      modifies this, holes, tuz, kazans
      ensures Valid() && holes == old(holes) && tuz == old(tuz) && kazans == old(kazans)
      ensures Snapshot() == Play(old(Snapshot()), holeIndex)
    {
      if Owner(holeIndex) == nextToPlay {
        if holes[holeIndex] == 0 {
          return;
        }
        var last := Sow(holeIndex);
        SettleLanding(last);
        nextToPlay := Opponent(nextToPlay);
      }
    }

    /** The sowing half of Redistribute: moves the pieces of a non-empty
        hole and returns the landing hole. */
    method Sow(holeIndex: nat) returns (last: nat)
      requires Valid() && holeIndex < 18 && holes[holeIndex] >= 1
      modifies holes
      ensures last == Landing(old(holes[..]), holeIndex)
      ensures holes[..] == Sown(old(holes[..]), holeIndex)
    {
      var n := holes[holeIndex];
      if n == 1 {
        last := (holeIndex + 1) % 18;
        holes[last] := holes[last] + 1;
        holes[holeIndex] := 0;
      } else {
        last := (holeIndex + n - 1) % 18;
        for d := 1 to n
          invariant holes[..] == Deposited(old(holes[..]), holeIndex, d - 1)
        {
          holes[(holeIndex + d) % 18] := holes[(holeIndex + d) % 18] + 1;
        }
        holes[holeIndex] := 1;
      }
    }

    /** The capture half of Redistribute: tuz creation or even capture on
        the landing hole last, for nextToPlay. */
    method SettleLanding(last: nat)
      requires Valid() && last < 18
      modifies this, holes, tuz, kazans
      ensures Valid() && holes == old(holes) && tuz == old(tuz) && kazans == old(kazans)
      ensures Snapshot() == Settle(old(Snapshot()), last)
    {
      ghost var p := Snapshot();
      if Owner(last) != nextToPlay {
        var otherTuzIndex := GetPlayerTuz(Opponent(nextToPlay));
        assert Snapshot() == p;
        var c := holes[last];
        var isTuz := tuz[last];
        var hasTuz := SideHasTuz(nextToPlay);
        KorgoolProperties.TuzTestIsTuzAllowed(p, last, otherTuzIndex, c, isTuz, hasTuz);
        if ((otherTuzIndex - 9 != last && otherTuzIndex + 9 != last) || otherTuzIndex == -1)
           && last != 8 && last != 17 && c == 3 && !isTuz && !hasTuz
        {
          KorgoolProperties.SettleMakesTuz(p, last);
          MakeTuz(last);
        } else {
          KorgoolProperties.SettleOtherwise(p, last);
          if c % 2 == 0 {
            CaptureHole(last);
          }
        }
      }
    }

    /** Marks hole last as nextToPlay's tuz and empties it into that side's
        kazan, which receives as many fresh pieces again. */
    method MakeTuz(last: nat)
      requires Valid() && last < 18
      modifies this, holes, tuz, kazans
      ensures Valid() && holes == old(holes) && tuz == old(tuz) && kazans == old(kazans)
      ensures
        var p := old(Snapshot());
        var k := KazanIndex(p.next);
        Snapshot() == MarkHasTuz(p, p.next).(
          tuz := p.tuz[last := true],
          kazans := p.kazans[k := p.kazans[k] + p.holes[last] + p.holes[last]],
          holes := p.holes[last := 0])
    {
      var k := KazanIndex(nextToPlay);
      var c := holes[last];
      tuz[last] := true;
      if nextToPlay == White {
        whiteHasTuz := true;
      } else {
        blackHasTuz := true;
      }
      AddToKazan(k, c);
      kazans[k] := kazans[k] + c;
      holes[last] := 0;
    }

    /** Empties hole last into nextToPlay's kazan. */
    method CaptureHole(last: nat)
      requires Valid() && last < 18
      modifies holes, kazans
      ensures
        var p := old(Snapshot());
        var k := KazanIndex(p.next);
        Snapshot() == p.(kazans := p.kazans[k := p.kazans[k] + p.holes[last]], holes := p.holes[last := 0])
    {
      var k := KazanIndex(nextToPlay);
      AddToKazan(k, holes[last]);
      holes[last] := 0;
    }

    /** Drops c fresh pieces into kazan k, one at a time. */
    method AddToKazan(k: nat, c: nat)
      requires Valid() && k < 2
      modifies kazans
      ensures kazans[..] == old(kazans[..])[k := old(kazans[k]) + c]
    {
      for j := 0 to c
        invariant kazans[..] == old(kazans[..])[k := old(kazans[k]) + j]
      {
        kazans[k] := kazans[k] + 1;
      }
    }

    /** Plays the choice-th of nextToPlay's legal moves; choice stands for
        the uniformly random pick. */
    method RandomMove(choice: nat)
      requires Valid() && choice < |Moves(holes[..], nextToPlay)|
      modifies this, holes, tuz, kazans
      ensures Valid() && holes == old(holes) && tuz == old(tuz) && kazans == old(kazans)
      ensures Snapshot() == Play(old(Snapshot()), Moves(old(holes[..]), old(nextToPlay))[choice])
    {
      var availableHoles := AvailableMoves(nextToPlay);
      Redistribute(availableHoles[choice]);
    }

    /** The greedy one-ply move: the first hole predicted to make a tuz,
        else the hole with the largest even predicted capture, else the
        random pick choice. */
    method ChallengeMove(choice: nat)
      requires Valid() && choice < |Moves(holes[..], nextToPlay)|
      modifies this, holes, tuz, kazans
      ensures Valid() && holes == old(holes) && tuz == old(tuz) && kazans == old(kazans)
      ensures Snapshot() == Play(old(Snapshot()), ChallengeChoice(old(Snapshot()), choice))
    {
      ghost var p := Snapshot();
      var maxOutcome: int := -1;
      var returnIndex: int := -1;
      var availableHoles := AvailableMoves(nextToPlay);
      // The source plays a tuz target from inside the loop and returns;
      // here the loop breaks with it and the move is played just after.
      var tuzMove: int := -1;
      assert availableHoles == Moves(p.holes, p.next);
      assert Playable(p.holes, availableHoles);
      assert holes[..] == p.holes;
      for i := 0 to |availableHoles|
        invariant tuzMove == -1
        invariant FirstTuzTarget(p, availableHoles, i) == FirstTuzTarget(p, availableHoles, 0)
        invariant (maxOutcome, returnIndex) == BestSoFar(p, availableHoles, i)
      {
        var selected := availableHoles[i];
        assert selected < 18 && p.holes[selected] >= 1;
        assert holes[selected] == p.holes[selected];
        var last := (selected + holes[selected] - 1) % 18;
        assert last == PredictedLanding(p.holes, selected);
        if Owner(last) != nextToPlay {
          var numOfKorgools := holes[last] + 1;
          assert numOfKorgools == PredictedCount(p, selected);
          if numOfKorgools == 3 && !SideHasTuz(nextToPlay) {
            assert TuzTarget(p, selected);
            KorgoolProperties.ChallengeStopsAtTuz(p, choice, i);
            tuzMove := selected;
            break;
          }
          assert !TuzTarget(p, selected);
          if numOfKorgools % 2 == 0 && numOfKorgools > maxOutcome {
            maxOutcome := numOfKorgools;
            returnIndex := selected;
          }
        } else {
          assert !TuzTarget(p, selected) && !CaptureCandidate(p, selected);
        }
      }
      if tuzMove != -1 {
        Redistribute(tuzMove);
        return;
      }
      KorgoolProperties.ChallengeAfterScan(p, choice);
      if returnIndex <= -1 {
        RandomMove(choice);
        return;
      }
      Redistribute(returnIndex);
    }
  }
}

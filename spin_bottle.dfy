/** The spin-the-bottle component: the roster it edits, the bottle's cumulative rotation,
    the spinning flag, and the winner held by the pending completion timer. */
module SpinBottleComponent {
  import opened Wrappers
  import opened Strings
  import Roster
  import opened Angles

  class SpinBottle {
    /** The roster (state of the parent, edited through this component). */
    var players: seq<string>
    /** The text in the name field. */
    var newPlayerName: string
    /** Cumulative rotation of the bottle, in degrees. */
    var rotation: real
    var isSpinning: bool
    /** The winner captured by the completion timer a spin schedules, while it is pending. */
    var pendingWinner: Option<string>

    ghost predicate Valid()
      reads this
    {
      && Roster.Valid(players)
      && 0.0 <= rotation
      && (isSpinning <==> pendingWinner.Some?)
    }

    constructor ()
      ensures Valid()
      ensures players == [] && newPlayerName == [] && rotation == 0.0
      ensures !isSpinning && pendingWinner == None
    {
      players := [];
      newPlayerName := [];
      rotation := 0.0;
      isSpinning := false;
      pendingWinner := None;
    }

    /** The spin button is enabled, and `spin` goes past its guard. */
    predicate CanSpin(isLoading: bool)
      reads this
    {
      |players| >= 2 && !isSpinning && !isLoading
    }

    /** The name field's change handler. */
    method EditName(text: string)
      modifies this`newPlayerName
      ensures newPlayerName == text
    {
      newPlayerName := text;
    }

    /** `handleAddPlayer`: appends the trimmed name when it is accepted and then clears
        the field; otherwise nothing changes. */
    method AddPlayer()
      requires Valid()
      modifies this`players, this`newPlayerName
      ensures Valid()
      ensures players == Roster.AddPlayer(old(players), old(newPlayerName))
      ensures newPlayerName == if Roster.Accepts(old(players), old(newPlayerName)) then [] else old(newPlayerName)
    {
      var name := Trim(newPlayerName);
      if name != [] && name !in players && |players| < Roster.MaxPlayers {
        players := players + [name];
        newPlayerName := [];
      }
      Roster.AddKeepsValid(old(players), old(newPlayerName));
    }

    /** `handleRemovePlayer`. */
    method RemovePlayer(name: string)
      requires Valid()
      modifies this`players
      ensures Valid()
      ensures players == Roster.RemovePlayer(old(players), name)
    {
      Roster.RemoveKeepsValid(players, name);
      players := Roster.RemovePlayer(players, name);
    }

    /** `spin`, with the two `Math.random()` draws passed in: `pick` chooses the winner and
        `turns` the number of extra whole turns. When the guard fails nothing changes;
        otherwise the flag is raised, the winner is captured for the completion timer, and
        the bottle is given a rotation that points at the winner. */
    method Spin(isLoading: bool, pick: real, turns: real) returns (started: bool)
      requires Valid()
      requires 0.0 <= pick < 1.0 && 0.0 <= turns < 1.0
      modifies this`isSpinning, this`pendingWinner, this`rotation
      ensures Valid()
      ensures started == old(CanSpin(isLoading))
      ensures !started ==> rotation == old(rotation) && isSpinning == old(isSpinning)
                           && pendingWinner == old(pendingWinner)
      ensures started ==>
        var n := |players|;
        var i := RandomIndex(pick, n);
        && isSpinning
        && pendingWinner == Some(players[i])
        && rotation == FinalRotation(old(rotation), TargetAngle(i, n), FullSpins(RandomIndex(turns, 3)))
        && Mod360(rotation) == TargetAngle(i, n)
        && rotation > old(rotation) + 1440.0
    {
      if |players| < 2 || isSpinning || isLoading {
        return false;
      }
      isSpinning := true;

      var winnerIndex := RandomIndex(pick, |players|);
      var winnerName := players[winnerIndex];

      var targetAngle := TargetAngle(winnerIndex, |players|);
      var fullSpins := FullSpins(RandomIndex(turns, 3));
      LandsOnTarget(rotation, targetAngle, fullSpins);
      SpinAdvances(rotation, winnerIndex, |players|, RandomIndex(turns, 3));
      rotation := FinalRotation(rotation, targetAngle, fullSpins);

      pendingWinner := Some(winnerName);
      started := true;
    }

    /** The completion timer firing: lowers the flag and reports the winner captured when
        the spin started, whatever the roster holds now. */
    method CompleteSpin() returns (winner: string)
      requires Valid() && isSpinning
      modifies this`isSpinning, this`pendingWinner
      ensures Valid()
      ensures !isSpinning && pendingWinner == None
      ensures winner == old(pendingWinner).value
    {
      winner := pendingWinner.value;
      isSpinning := false;
      pendingWinner := None;
    }
  }

  /** A bottle at rest whose roster is Alice, Bob and Cara. */
  method ThreePlayers() returns (bottle: SpinBottle)
    ensures fresh(bottle) && bottle.Valid()
    ensures bottle.players == ["Alice", "Bob", "Cara"]
    ensures bottle.rotation == 0.0 && !bottle.isSpinning
  {
    bottle := new SpinBottle();
    bottle.players := ["Alice", "Bob", "Cara"];
  }

  /** Three players, the second chosen, from rest: the bottle ends at 120 degrees plus at
      least five whole turns, and the completion reports "Bob" even if the roster changes
      meanwhile. */
  method SpinScenario()
  {
    var bottle := ThreePlayers();
    var blocked := bottle.Spin(true, 0.5, 0.0);
    assert !blocked && bottle.rotation == 0.0;

    var started := bottle.Spin(false, 0.5, 0.0);
    assert RandomIndex(0.5, 3) == 1;
    assert started && bottle.pendingWinner == Some("Bob");
    assert Mod360(bottle.rotation) == 120.0;
    assert bottle.rotation >= 1800.0 by {
      JsRemIsMod360(0.0);
    }

    var again := bottle.Spin(false, 0.1, 0.9);
    assert !again;

    bottle.RemovePlayer("Bob");
    var winner := bottle.CompleteSpin();
    assert winner == "Bob" && !bottle.isSpinning;
  }
}

/** The participant roster of the spin-the-bottle game: an ordered list of names. */
module Roster {
  import opened Seqs
  import opened Strings

  /** The roster never grows beyond this many players. */
  const MaxPlayers: nat := 12

  /** What the roster keeps: distinct, trimmed, non-empty names, at most twelve. */
  predicate Valid(players: seq<string>) {
    && Distinct(players)
    && |players| <= MaxPlayers
    && forall p :: p in players ==> p != [] && Trimmed(p)
  }

  /** The add handler's guard: the trimmed name is non-empty, new, and there is room. */
  predicate Accepts(players: seq<string>, typed: string) {
    var name := Trim(typed);
    name != [] && name !in players && |players| < MaxPlayers
  }

  /** The Add button is enabled: the field is not blank, there is room, and neither a spin
      nor a request is in progress. */
  predicate AddEnabled(players: seq<string>, typed: string, isSpinning: bool, isLoading: bool) {
    Trim(typed) != [] && |players| < MaxPlayers && !isSpinning && !isLoading
  }

  /** The button does not look for duplicates: once it is enabled, the handler accepts the
      name exactly when it is new. Every name the handler would accept can be submitted
      while no spin or request is in progress. */
  lemma AddEnabledAccepts(players: seq<string>, typed: string, isSpinning: bool, isLoading: bool)
    ensures AddEnabled(players, typed, isSpinning, isLoading) ==>
              (Accepts(players, typed) <==> Trim(typed) !in players)
    ensures Accepts(players, typed) && !isSpinning && !isLoading ==>
              AddEnabled(players, typed, isSpinning, isLoading)
  {
  }

  /** `handleAddPlayer`: appends the trimmed name when the guard lets it through and
      otherwise leaves the roster as it was. */
  function AddPlayer(players: seq<string>, typed: string): (r: seq<string>)
    ensures r != players <==> Accepts(players, typed)
    ensures r != players ==> r == players + [Trim(typed)]
  {
    var name := Trim(typed);
    if name != [] && name !in players && |players| < MaxPlayers then players + [name] else players
  }

  /** `handleRemovePlayer`: drops every entry equal to `name` and keeps the others. */
  function RemovePlayer(players: seq<string>, name: string): (r: seq<string>)
    ensures forall p :: p in r <==> p in players && p != name
    ensures name !in players ==> r == players
  {
    var r := Filter(players, p => p != name);
    assert name !in players ==> r == players by {
      if name !in players { FilterKeepsAll(players, p => p != name); }
    }
    r
  }

  /** Removing the name at position `k` of a duplicate-free roster splices out exactly
      that entry and keeps the rest in their order. */
  lemma RemoveAt(players: seq<string>, k: nat)
    requires Distinct(players) && k < |players|
    ensures RemovePlayer(players, players[k]) == players[..k] + players[k + 1..]
  {
    FilterDropsOne(players, k, p => p != players[k]);
  }

  /** Adding a name and removing it again restores the roster. */
  lemma AddThenRemove(players: seq<string>, typed: string)
    requires Accepts(players, typed)
    ensures RemovePlayer(AddPlayer(players, typed), Trim(typed)) == players
  {
    var name := Trim(typed);
    var grown := players + [name];
    FilterAppend(players, [name], p => p != name);
    FilterKeepsAll(players, p => p != name);
    assert Filter([name], p => p != name) == [];
  }

  /** Adding keeps the roster valid. */
  lemma AddKeepsValid(players: seq<string>, typed: string)
    requires Valid(players)
    ensures Valid(AddPlayer(players, typed))
  {
    var name := Trim(typed);
    if Accepts(players, typed) {
      var r := players + [name];
      forall i, j | 0 <= i < j < |r| ensures r[i] != r[j] {
        if j == |players| { assert r[i] in players; }
      }
    }
  }

  /** Removing keeps the roster valid. */
  lemma RemoveKeepsValid(players: seq<string>, name: string)
    requires Valid(players)
    ensures Valid(RemovePlayer(players, name))
  {
    FilterDistinct(players, p => p != name);
  }

  /** One roster edit, as the Add button and a player's remove button issue them. */
  datatype Edit = Add(typed: string) | Remove(name: string)

  /** The roster after applying `edits` in order. */
  function ApplyEdits(players: seq<string>, edits: seq<Edit>): seq<string>
    decreases |edits|
  {
    if edits == [] then players
    else
      var next := match edits[0]
        case Add(typed) => AddPlayer(players, typed)
        case Remove(name) => RemovePlayer(players, name);
      ApplyEdits(next, edits[1..])
  }

  /** Starting from a valid roster (the empty one, for instance), any sequence of adds and
      removes keeps it duplicate-free, trimmed and at most twelve long. */
  lemma {:induction false} EditsKeepValid(players: seq<string>, edits: seq<Edit>)
    requires Valid(players)
    ensures Valid(ApplyEdits(players, edits))
    decreases |edits|
  {
    if edits != [] {
      match edits[0]
      case Add(typed) =>
        AddKeepsValid(players, typed);
        EditsKeepValid(AddPlayer(players, typed), edits[1..]);
      case Remove(name) =>
        RemoveKeepsValid(players, name);
        EditsKeepValid(RemovePlayer(players, name), edits[1..]);
    }
  }
}

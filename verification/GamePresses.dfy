/**
 Presses of the next-turn button whose callbacks run on threads of their own, as
 the input library allows. Elsewhere a click is one step; here each press tests
 whose turn it is, ships and ends the turn, reads the turn and writes it, as
 separate steps, and any number of presses may interleave.
 */
module GamePresses {
  import opened GameClient
  import opened GamePlay

  /** Where the callback of a press has got to; `Read` holds the turn it has read. */
  datatype Press = Ready | Passed | Shipped | Read(turn: Team) | Done

  /** The client's turn variable, the presses, and the ends of turn sent. */
  datatype Race = Race(turn: Team, presses: seq<Press>, endTurns: nat)

  /** One step of press i of the player of team `me`. */
  function Next(r: Race, me: Team, i: nat): Race {
    if i >= |r.presses| then r
    else
      match r.presses[i]
      case Ready => r.(presses := r.presses[i := if r.turn == me then Passed else Done])
      case Passed => r.(presses := r.presses[i := Shipped], endTurns := r.endTurns + 1)
      case Shipped => r.(presses := r.presses[i := Read(r.turn)])
      case Read(t) => r.(presses := r.presses[i := Done], turn := Opponent(t))
      case Done => r
  }

  function Run(r: Race, me: Team, steps: seq<nat>): Race {
    if steps == [] then r else Next(Run(r, me, steps[..|steps| - 1]), me, steps[|steps| - 1])
  }

  /** The player may act, and some presses of the button are about to be handled. */
  function Start(me: Team, n: nat): Race { Race(me, seq(n, i => Ready), 0) }

  predicate Finished(r: Race) { forall i :: 0 <= i < |r.presses| ==> r.presses[i] == Done }

  /** Between its test and its write of the turn. */
  predicate Pending(p: Press) { p.Passed? || p.Shipped? || p.Read? }

  /** A press passes its test while another one is pending. */
  predicate Overlaps(r: Race, me: Team, i: nat) {
    i < |r.presses| && r.presses[i] == Ready && r.turn == me && exists j :: 0 <= j < |r.presses| && Pending(r.presses[j])
  }

  predicate HasOverlap(r: Race, me: Team, steps: seq<nat>) {
    steps != [] &&
    (HasOverlap(r, me, steps[..|steps| - 1]) || Overlaps(Run(r, me, steps[..|steps| - 1]), me, steps[|steps| - 1]))
  }

  /** The player's turn, and the ends of turn under way to the other side. */
  function Tokens(r: Race, me: Team): nat { Count(r.turn == me) + r.endTurns }

  // ----- without an overlap -----

  /** No press has been handled, one is being handled, or one has been and the rest come too late. */
  datatype Phase = Before | During(press: nat) | After

  predicate InPhase(r: Race, me: Team, phase: Phase) {
    match phase
    case Before => r.turn == me && r.endTurns == 0 && forall i :: 0 <= i < |r.presses| ==> r.presses[i] == Ready
    case During(j) =>
      && j < |r.presses| && r.turn == me && Pending(r.presses[j])
      && (r.presses[j].Read? ==> r.presses[j].turn == me) && r.endTurns == Count(!r.presses[j].Passed?)
      && forall i :: 0 <= i < |r.presses| && i != j ==> r.presses[i] == Ready
    case After =>
      r.turn == Opponent(me) && r.endTurns == 1 && forall i :: 0 <= i < |r.presses| ==> r.presses[i] == Ready || r.presses[i] == Done
  }

  lemma StepInPhase(r: Race, me: Team, i: nat, phase: Phase) returns (phase': Phase)
    requires me != NoTeam && InPhase(r, me, phase) && !Overlaps(r, me, i)
    ensures InPhase(Next(r, me, i), me, phase')
  {
    phase' := phase;
    if i < |r.presses| {
      match phase
      case Before => phase' := During(i);
      case During(j) =>
        if i == j && r.presses[j].Read? {
          phase' := After;
        }
      case After =>
    }
  }

  lemma {:induction false} RunInPhase(me: Team, n: nat, steps: seq<nat>) returns (phase: Phase)
    requires me != NoTeam && !HasOverlap(Start(me, n), me, steps)
    ensures InPhase(Run(Start(me, n), me, steps), me, phase)
  {
    if steps == [] {
      phase := Before;
    } else {
      var before := RunInPhase(me, n, steps[..|steps| - 1]);
      phase := StepInPhase(Run(Start(me, n), me, steps[..|steps| - 1]), me, steps[|steps| - 1], before);
    }
  }

  // ----- with one -----

  /** How many presses have passed the test but not sent their end of turn. */
  function Owed(ps: seq<Press>): nat {
    if ps == [] then 0 else Owed(ps[..|ps| - 1]) + Count(ps[|ps| - 1].Passed?)
  }

  lemma {:induction false} OwedUpdate(ps: seq<Press>, i: nat, p: Press)
    requires i < |ps|
    ensures Owed(ps[i := p]) == Owed(ps) - Count(ps[i].Passed?) + Count(p.Passed?)
  {
    var n := |ps| - 1;
    if i == n {
      assert ps[i := p][..n] == ps[..n];
    } else {
      assert ps[i := p][..n] == ps[..n][i := p];
      OwedUpdate(ps[..n], i, p);
    }
  }

  /** Ends of turn sent or owed never become fewer, and a press that passes adds one. */
  lemma StepOwes(r: Race, me: Team, i: nat)
    ensures var r' := Next(r, me, i);
            r'.endTurns + Owed(r'.presses) ==
            r.endTurns + Owed(r.presses) + Count(i < |r.presses| && r.presses[i] == Ready && r.turn == me)
  {
    if i < |r.presses| {
      OwedUpdate(r.presses, i, Next(r, me, i).presses[i]);
      assert r.presses[i] == Done ==> r.presses[i := Done] == r.presses;
    }
  }

  /** A pending press has passed its test: its end of turn is sent or owed. */
  lemma {:induction false} PendingOwes(me: Team, n: nat, steps: seq<nat>)
    requires me != NoTeam
    ensures var r := Run(Start(me, n), me, steps);
            (exists j :: 0 <= j < |r.presses| && Pending(r.presses[j])) ==> r.endTurns + Owed(r.presses) >= 1
  {
    if steps != [] {
      var before, i := steps[..|steps| - 1], steps[|steps| - 1];
      var r := Run(Start(me, n), me, before);
      PendingOwes(me, n, before);
      StepOwes(r, me, i);
      var r' := Next(r, me, i);
      if j :| 0 <= j < |r'.presses| && Pending(r'.presses[j]) {
        assert Pending(r.presses[j]) || (j == i && r.presses[i] == Ready && r.turn == me);
      }
    }
  }

  lemma {:induction false} OverlapOwes(me: Team, n: nat, steps: seq<nat>)
    requires me != NoTeam && HasOverlap(Start(me, n), me, steps)
    ensures var r := Run(Start(me, n), me, steps); r.endTurns + Owed(r.presses) >= 2
  {
    var before, i := steps[..|steps| - 1], steps[|steps| - 1];
    StepOwes(Run(Start(me, n), me, before), me, i);
    if HasOverlap(Start(me, n), me, before) {
      OverlapOwes(me, n, before);
    } else {
      PendingOwes(me, n, before);
    }
  }

  lemma {:induction false} NothingOwed(ps: seq<Press>)
    requires forall i :: 0 <= i < |ps| ==> ps[i] == Done
    ensures Owed(ps) == 0
  {
    if ps != [] {
      NothingOwed(ps[..|ps| - 1]);
    }
  }

  lemma {:induction false} RunLength(r: Race, me: Team, steps: seq<nat>)
    ensures |Run(r, me, steps).presses| == |r.presses|
  {
    if steps != [] {
      RunLength(r, me, steps[..|steps| - 1]);
    }
  }

  /**
   However the callbacks of any number of presses interleave, once they are done
   there is one turn token if and only if no press passed its test while another
   was pending.
   */
  lemma TokenSurvivesPresses(me: Team, n: nat, steps: seq<nat>)
    requires me != NoTeam && n > 0 && Finished(Run(Start(me, n), me, steps))
    ensures Tokens(Run(Start(me, n), me, steps), me) == 1 <==> !HasOverlap(Start(me, n), me, steps)
  {
    var r := Run(Start(me, n), me, steps);
    RunLength(Start(me, n), me, steps);
    NothingOwed(r.presses);
    if HasOverlap(Start(me, n), me, steps) {
      OverlapOwes(me, n, steps);
    } else {
      var phase := RunInPhase(me, n, steps);
      assert r.presses[0] == Done;
    }
  }

  lemma RunOne(r: Race, me: Team, steps: seq<nat>, i: nat)
    ensures Run(r, me, steps + [i]) == Next(Run(r, me, steps), me, i)
  {
    assert (steps + [i])[..|steps + [i]| - 1] == steps;
  }

  /** Two presses in which the second is tested before the first has passed the turn: three tokens. */
  lemma TwoPressesCanTriple(me: Team) returns (steps: seq<nat>)
    requires me != NoTeam
    ensures Finished(Run(Start(me, 2), me, steps)) && Tokens(Run(Start(me, 2), me, steps), me) == 3
  {
    var r := Start(me, 2);
    assert r.presses == [Ready, Ready];
    steps := [];
    RunOne(r, me, steps, 0);
    steps := steps + [0];
    RunOne(r, me, steps, 1);
    steps := steps + [1];
    RunOne(r, me, steps, 0);
    steps := steps + [0];
    RunOne(r, me, steps, 0);
    steps := steps + [0];
    RunOne(r, me, steps, 0);
    steps := steps + [0];
    RunOne(r, me, steps, 1);
    steps := steps + [1];
    RunOne(r, me, steps, 1);
    steps := steps + [1];
    RunOne(r, me, steps, 1);
    steps := steps + [1];
  }
}

/** One player's turn as a function of the board (seen from that
    player) and the turn's dice and decisions. */
module Turns {
  import opened Wrappers
  import opened Players
  import opened Squares

  /** A four-sided die. */
  type Die = d: int | 1 <= d <= 4 witness 1

  /** Everything a turn draws from outside the game: both dice, the
      answer to "pay the jail fine?", the answer to "buy?", and the
      Chance card, each consulted only if the turn gets that far. */
  datatype TurnInput = TurnInput(d1: Die, d2: Die, payFine: bool, buy: bool, draw: ChanceDraw)

  /** The board as one player sees it, slot 0 included and unused:
      21 slots, 1..20 occupied. */
  predicate ViewOk(view: seq<Cell>) {
    |view| == BoardSize + 1 && forall i :: 1 <= i <= BoardSize ==> !view[i].Vacant?
  }

  /** A player's state as the game keeps it: on the board, the jail
      counter consistent, and a jailed player on 11. */
  predicate PlayerOk(s: PlayerState) {
    1 <= s.position <= BoardSize && JailInvariant(s) && (s.inJail ==> s.position == JailPosition)
  }

  /** What a turn did: the lander's new state, the slot it landed on (none
      when it stayed in jail) and the landing's effect. */
  datatype Outcome = Outcome(state: PlayerState, landing: Option<int>, effect: Effect)

  /** Moving `roll` squares from p around the 20-square ring: the new
      square, and whether the move wrapped past 20. */
  function Advance(p: int, roll: int): (r: (int, bool))
    requires 1 <= p <= BoardSize && 2 <= roll <= 8
    ensures 1 <= r.0 <= BoardSize && r.0 != p
    ensures r.1 <==> r.0 < p
  {
    if p + roll > BoardSize then (p + roll - BoardSize, true) else (p + roll, false)
  }

  /** The move is plain addition modulo the ring of 20 squares. */
  lemma AdvanceIsModular(p: int, roll: int)
    requires 1 <= p <= BoardSize && 2 <= roll <= 8
    ensures Advance(p, roll).0 == (p - 1 + roll) % BoardSize + 1
  {
  }

  /** A free player's walk, before the landing: the pass-by effect of
      slot 1 when the move wraps, then the new position. */
  function Walk(view: seq<Cell>, s: PlayerState, roll: int): PlayerState
    requires ViewOk(view) && 1 <= s.position <= BoardSize && 2 <= roll <= 8
  {
    var (np, wrapped) := Advance(s.position, roll);
    var passed := if wrapped then Passing(view[1], s) else s;
    passed.(position := np)
  }

  /** A free player's turn: walk, then land. */
  function Move(view: seq<Cell>, s: PlayerState, input: TurnInput): Outcome
    requires ViewOk(view) && 1 <= s.position <= BoardSize
  {
    var w := Walk(view, s, input.d1 + input.d2);
    var (t, effect) := Land(view[w.position], w, input.buy, input.draw);
    Outcome(t, Some(w.position), effect)
  }

  /** A jailed player's roll for release: on doubles or the third
      attempt the player moves by the roll with no wrap-around and no
      pass-Go, then lands; otherwise only the attempt is counted. */
  function Roll(view: seq<Cell>, s: PlayerState, input: TurnInput): Outcome
    requires ViewOk(view) && 1 <= s.position <= BoardSize - 8
  {
    var (t, freed) := Escape(s, input.d1, input.d2);
    if freed then
      var dest := t.position + input.d1 + input.d2;
      var (u, effect) := Land(view[dest], t.(position := dest), input.buy, input.draw);
      Outcome(u, Some(dest), effect)
    else
      Outcome(t, None, NoEffect)
  }

  /** A jailed player's turn: pay the fine if solvent and willing and then
      take a normal turn; otherwise roll for release. */
  function JailTurn(view: seq<Cell>, s: PlayerState, input: TurnInput): Outcome
    requires ViewOk(view) && s.inJail && 1 <= s.position <= BoardSize - 8
  {
    if s.money >= JailFine && s.inJail && input.payFine then
      Move(view, PayFine(s), input)
    else
      Roll(view, s, input)
  }

  /** takeTurn. A jailed player must stand at most 12 so that the escape
      move, which does not wrap, stays on the board. */
  function Turn(view: seq<Cell>, s: PlayerState, input: TurnInput): Outcome
    requires ViewOk(view) && 1 <= s.position <= BoardSize
    requires s.inJail ==> s.position <= BoardSize - 8
  {
    if s.inJail then JailTurn(view, s, input) else Move(view, s, input)
  }

  /** A turn lands on the board or, only for a jailed player who stays in
      jail, nowhere (position and cash kept); it buys only an unowned
      property and pays rent only on another player's, the property's rent. */
  lemma TurnFacts(view: seq<Cell>, s: PlayerState, input: TurnInput)
    requires ViewOk(view) && 1 <= s.position <= BoardSize
    requires s.inJail ==> s.position <= BoardSize - 8
    ensures var out := Turn(view, s, input);
      && (out.landing.Some? ==> 1 <= out.landing.value <= BoardSize)
      && (out.landing.None? ==>
            s.inJail && out.state.inJail && out.state.position == s.position && out.state.money == s.money)
      && (out.effect.Bought? ==>
            out.landing.Some? && view[out.landing.value].PropertyCell? && view[out.landing.value].holder == Nobody)
      && (out.effect.PaidRent? ==>
            && out.landing.Some? && view[out.landing.value].PropertyCell?
            && view[out.landing.value].holder == Other && out.effect.amount == view[out.landing.value].rent)
  {
  }

  /** A free player moves the dice total around the ring to a different
      square, and collects the 1500 salary exactly when the move wraps
      past 20 (slot 1 being Go); the `position != 1` guard never blocks
      it then. */
  lemma FreeWalk(view: seq<Cell>, s: PlayerState, d1: Die, d2: Die)
    requires ViewOk(view) && view[1] == GoCell && 1 <= s.position <= BoardSize
    ensures var w := Walk(view, s, d1 + d2);
      var wrapped := s.position + d1 + d2 > BoardSize;
      && 1 <= w.position <= BoardSize && w.position != s.position
      && w.position == (if wrapped then s.position + d1 + d2 - BoardSize else s.position + d1 + d2)
      && w.money == s.money + (if wrapped then Salary else 0)
      && w.inJail == s.inJail && w.turnsInJail == s.turnsInJail
  {
  }

  /** A free player's turn lands on the square the walk reached. */
  lemma FreeTurnLands(view: seq<Cell>, s: PlayerState, input: TurnInput)
    requires ViewOk(view) && 1 <= s.position <= BoardSize && !s.inJail
    ensures Turn(view, s, input).landing == Some(Walk(view, s, input.d1 + input.d2).position)
  {
  }

  /** A free player standing on Go always ends the turn elsewhere: the
      walk reaches a square from 3 to 9, and the landing either leaves the
      player there or sends them to 11. */
  lemma TurnMovesOffGo(view: seq<Cell>, s: PlayerState, input: TurnInput)
    requires ViewOk(view) && s.position == 1 && !s.inJail
    ensures Turn(view, s, input).state.position != 1
  {
    var w := Walk(view, s, input.d1 + input.d2);
    var c := view[w.position];
    if !c.GoToJailCell? {
      LandingKeepsPlace(c, w, input.buy, input.draw);
    }
  }

  /** Wrapping round onto Go itself pays the salary twice: once for
      passing (the guard looks at the old position) and once for landing. */
  lemma WrapOntoGoPaysTwice(view: seq<Cell>, s: PlayerState, input: TurnInput)
    requires ViewOk(view) && view[1] == GoCell && 1 <= s.position <= BoardSize && !s.inJail
    requires s.position + input.d1 + input.d2 == BoardSize + 1
    ensures Turn(view, s, input).state.money == s.money + 2 * Salary
    ensures Turn(view, s, input).landing == Some(1)
  {
  }

  /** A jailed player who neither pays nor escapes keeps position and
      cash and only counts the attempt. */
  lemma StayInJail(view: seq<Cell>, s: PlayerState, input: TurnInput)
    requires ViewOk(view) && PlayerOk(s) && s.inJail
    requires !(s.money >= JailFine && input.payFine)
    requires input.d1 != input.d2 && s.turnsInJail + 1 < MaxJailAttempts
    ensures Turn(view, s, input) == Outcome(s.(turnsInJail := s.turnsInJail + 1), None, NoEffect)
  {
  }

  /** Rolling out of jail moves the player by the roll from 11 with no
      pass-Go salary; the fine is charged only on the third attempt. */
  lemma EscapeMove(view: seq<Cell>, s: PlayerState, input: TurnInput)
    requires ViewOk(view) && PlayerOk(s) && s.inJail
    requires !(s.money >= JailFine && input.payFine)
    requires input.d1 == input.d2 || s.turnsInJail + 1 >= MaxJailAttempts
    ensures var dest := JailPosition + input.d1 + input.d2;
      var fine := if s.turnsInJail + 1 >= MaxJailAttempts then JailFine else 0;
      && Turn(view, s, input).landing == Some(dest)
      && Turn(view, s, input) == (
        var (u, effect) := Land(view[dest], PlayerState(s.money - fine, dest, false, 0), input.buy, input.draw);
        Outcome(u, Some(dest), effect))
  {
  }

  /** A free player's turn keeps the player's state as the game keeps
      it: on the board, jail counter in range, and on 11 whenever jailed. */
  lemma MoveKeepsPlayerOk(view: seq<Cell>, s: PlayerState, input: TurnInput)
    requires ViewOk(view) && PlayerOk(s) && !s.inJail
    ensures PlayerOk(Move(view, s, input).state)
  {
    var w := Walk(view, s, input.d1 + input.d2);
    var c := view[w.position];
    if !c.GoToJailCell? {
      LandingKeepsPlace(c, w, input.buy, input.draw);
    }
  }

  /** So does a jailed player's roll for release. */
  lemma RollKeepsPlayerOk(view: seq<Cell>, s: PlayerState, input: TurnInput)
    requires ViewOk(view) && PlayerOk(s) && s.inJail
    ensures PlayerOk(Roll(view, s, input).state)
  {
    var (t, freed) := Escape(s, input.d1, input.d2);
    EscapeRules(s, input.d1, input.d2);
    if freed {
      var dest := t.position + input.d1 + input.d2;
      var c := view[dest];
      if !c.GoToJailCell? {
        LandingKeepsPlace(c, t.(position := dest), input.buy, input.draw);
      }
    }
  }

  /** Every turn keeps the player's state as the game keeps it. */
  lemma TurnKeepsPlayerOk(view: seq<Cell>, s: PlayerState, input: TurnInput)
    requires ViewOk(view) && PlayerOk(s)
    ensures PlayerOk(Turn(view, s, input).state)
  {
    if !s.inJail {
      MoveKeepsPlayerOk(view, s, input);
    } else if s.money >= JailFine && input.payFine {
      PayFineRules(s);
      MoveKeepsPlayerOk(view, PayFine(s), input);
    } else {
      RollKeepsPlayerOk(view, s, input);
    }
  }
}

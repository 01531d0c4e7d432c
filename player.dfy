/** A player's cash, token position and jail status, with the jail
    state machine: go to jail, try to roll out, or pay the fine. */
module Players {

  /** Cash every player starts with. */
  const StartMoney := 1500
  /** Fine for leaving jail, paid voluntarily or on the third attempt. */
  const JailFine := 150
  /** The position a jailed player is moved to. */
  const JailPosition := 11
  /** The attempt on which a player is released whatever the dice show. */
  const MaxJailAttempts := 3

  /** The mutable part of a player, as a value. */
  datatype PlayerState = PlayerState(money: int, position: int, inJail: bool, turnsInJail: int)

  /** A freshly created player: full cash, on Go, not in jail. */
  const Start := PlayerState(StartMoney, 1, false, 0)

  /** The jail state machine's invariant: a free player has a zero
      attempt counter, a jailed one has made at most two attempts. */
  predicate JailInvariant(s: PlayerState) {
    if s.inJail then 0 <= s.turnsInJail < MaxJailAttempts else s.turnsInJail == 0
  }

  function Credit(s: PlayerState, amount: int): PlayerState {
    s.(money := s.money + amount)
  }

  function Debit(s: PlayerState, amount: int): PlayerState {
    s.(money := s.money - amount)
  }

  /** goToJail: jailed with a fresh attempt counter, wherever the player was. */
  function Jailed(s: PlayerState): PlayerState {
    s.(inJail := true, turnsInJail := 0)
  }

  /** tryToGetOutOfJail: the counter is bumped first; doubles or a third
      attempt release the player, and only the third attempt costs the fine. */
  function Escape(s: PlayerState, d1: int, d2: int): (PlayerState, bool) {
    var attempts := s.turnsInJail + 1;
    if d1 == d2 || attempts >= MaxJailAttempts then
      var paid := if attempts >= MaxJailAttempts then Debit(s, JailFine) else s;
      (paid.(inJail := false, turnsInJail := 0), true)
    else
      (s.(turnsInJail := attempts), false)
  }

  /** payJailFine: only a jailed player who can afford it pays and leaves. */
  function PayFine(s: PlayerState): PlayerState {
    if s.inJail && s.money >= JailFine then
      Debit(s, JailFine).(inJail := false, turnsInJail := 0)
    else
      s
  }

  /** The outcome of one escape attempt, case by case. */
  lemma EscapeRules(s: PlayerState, d1: int, d2: int)
    ensures var (t, freed) := Escape(s, d1, d2);
      && (freed <==> d1 == d2 || s.turnsInJail + 1 >= MaxJailAttempts)
      && t.position == s.position
      && (freed ==> !t.inJail && t.turnsInJail == 0)
      && (freed ==> t.money == s.money - (if s.turnsInJail + 1 >= MaxJailAttempts then JailFine else 0))
      && (!freed ==> t.inJail == s.inJail && t.turnsInJail == s.turnsInJail + 1 && t.money == s.money)
  {
  }

  /** Paying the fine: exactly 150 and release when jailed and solvent,
      otherwise nothing at all changes. */
  lemma PayFineRules(s: PlayerState)
    ensures s.inJail && s.money >= JailFine ==>
      PayFine(s) == PlayerState(s.money - JailFine, s.position, false, 0)
    ensures !(s.inJail && s.money >= JailFine) ==> PayFine(s) == s
  {
  }

  /** Every transition of the jail machine keeps its invariant. */
  lemma JailTransitionsKeepInvariant(s: PlayerState, d1: int, d2: int)
    requires JailInvariant(s)
    ensures JailInvariant(Jailed(s))
    ensures s.inJail ==> JailInvariant(Escape(s, d1, d2).0)
    ensures JailInvariant(PayFine(s))
  {
  }

  /** Repeated escape attempts, one pair of dice per jail turn, stopping
      once the player is free. */
  function AfterAttempts(s: PlayerState, rolls: seq<(int, int)>): PlayerState
    decreases |rolls|
  {
    if rolls == [] || !s.inJail then s
    else AfterAttempts(Escape(s, rolls[0].0, rolls[0].1).0, rolls[1..])
  }

  /** Nobody spends more than three attempts in jail: whatever the dice,
      a jailed player is free after the remaining attempts. */
  lemma {:induction false} ReleasedWithinThreeAttempts(s: PlayerState, rolls: seq<(int, int)>)
    requires JailInvariant(s)
    requires |rolls| >= MaxJailAttempts - s.turnsInJail
    ensures !AfterAttempts(s, rolls).inJail
    ensures AfterAttempts(s, rolls).turnsInJail == 0
    decreases |rolls|
  {
    if s.inJail {
      var t := Escape(s, rolls[0].0, rolls[0].1).0;
      JailTransitionsKeepInvariant(s, rolls[0].0, rolls[0].1);
      if t.inJail {
        ReleasedWithinThreeAttempts(t, rolls[1..]);
      } else {
        assert AfterAttempts(t, rolls[1..]) == t;
      }
    }
  }

  /** The three-attempt scenario: two non-doubles keep the player jailed,
      the third attempt frees them and costs exactly the fine. */
  lemma ThirdAttemptChargesFine(s: PlayerState, a: (int, int), b: (int, int), c: (int, int))
    requires s.inJail && s.turnsInJail == 0
    requires a.0 != a.1 && b.0 != b.1
    ensures Escape(s, a.0, a.1).1 == false
    ensures Escape(Escape(s, a.0, a.1).0, b.0, b.1).1 == false
    ensures AfterAttempts(s, [a, b, c]) == PlayerState(s.money - JailFine, s.position, false, 0)
  {
    var s1 := Escape(s, a.0, a.1).0;
    var s2 := Escape(s1, b.0, b.1).0;
    assert [a, b, c][1..] == [b, c];
    assert [b, c][1..] == [c];
    assert AfterAttempts(s, [a, b, c]) == AfterAttempts(s1, [b, c]);
    assert AfterAttempts(s1, [b, c]) == AfterAttempts(s2, [c]);
    assert [c][1..] == [];
    assert AfterAttempts(s2, [c]) == Escape(s2, c.0, c.1).0;
  }

  /** A participant. Money is never clamped: a negative balance is how
      bankruptcy shows. */
  class Player {
    const name: string
    var money: int
    var position: int
    var inJail: bool
    var turnsInJail: int

    function State(): PlayerState
      reads this
    {
      PlayerState(money, position, inJail, turnsInJail)
    }

    constructor(name: string)
      ensures this.name == name
      ensures State() == Start
    {
      this.name := name;
      money := StartMoney;
      position := 1;
      inJail := false;
      turnsInJail := 0;
    }

    method AddMoney(amount: int)
      modifies this
      ensures State() == Credit(old(State()), amount)
    {
      money := money + amount;
    }

    method ReduceMoney(amount: int)
      modifies this
      ensures State() == Debit(old(State()), amount)
    {
      money := money - amount;
    }

    method SetPosition(p: int)
      modifies this
      ensures State() == old(State()).(position := p)
    {
      position := p;
    }

    method GoToJail()
      modifies this
      ensures State() == Jailed(old(State()))
    {
      inJail := true;
      turnsInJail := 0;
    }

    method TryToGetOutOfJail(d1: int, d2: int) returns (freed: bool)
      modifies this
      ensures (State(), freed) == Escape(old(State()), d1, d2)
      ensures freed <==> d1 == d2 || old(turnsInJail) + 1 >= MaxJailAttempts
    {
      turnsInJail := turnsInJail + 1;
      if d1 == d2 || turnsInJail >= MaxJailAttempts {
        inJail := false;
        if turnsInJail >= MaxJailAttempts {
          ReduceMoney(JailFine);
        }
        turnsInJail := 0;
        return true;
      }
      return false;
    }

    method PayJailFine()
      modifies this
      ensures State() == PayFine(old(State()))
    {
      if inJail && money >= JailFine {
        ReduceMoney(JailFine);
        inJail := false;
        turnsInJail := 0;
      }
    }
  }
}

/** The seven kinds of board square and what happens to a player who
    lands on (or, for Go, passes) one. */
module Squares {
  import opened Players

  /** Number of squares; positions run 1..20 and wrap from 20 to 1. */
  const BoardSize := 20

  /** Salary paid by Go, on landing and on passing. */
  const Salary := 1500

  /** Java's `/` on int: the quotient truncated toward zero. */
  function JavaDiv(a: int, b: int): int
    requires b > 0
  {
    if a >= 0 then a / b else -((-a) / b)
  }

  lemma DivTwice(m: nat)
    ensures m / 10 / 10 == m / 100
  {
    var q, r := m / 10, m % 10;
    var q2, r2 := q / 10, q % 10;
    assert m == 10 * q + r;
    assert q == 10 * q2 + r2;
    assert m == 100 * q2 + (10 * r2 + r);
    assert 0 <= 10 * r2 + r < 100;
  }

  /** The income tax on a balance, computed as `money / 10 / 10 * 10` in
      Java arithmetic: a tenth of the balance after rounding it down to a
      multiple of 100.
      A negative balance gives a non-positive tax. */
  function TaxDue(money: int): int {
    JavaDiv(JavaDiv(money, 10), 10) * 10
  }

  /** The tax is a tenth of the balance after rounding it down to a
      multiple of 100, never more than the balance when that is not
      negative, and a negative balance (truncation toward zero) gives a
      non-positive tax. */
  lemma TaxDueSpec(money: int)
    ensures money >= 0 ==> TaxDue(money) == money / 100 * 10
    ensures money >= 0 ==> 0 <= TaxDue(money) <= money / 10 && money - TaxDue(money) >= 0
    ensures money >= 100 ==> TaxDue(money) > 0
    ensures money < 0 ==> TaxDue(money) == -((-money) / 100 * 10) && TaxDue(money) <= 0
    ensures TaxDue(money) % 10 == 0
  {
    var m := if money >= 0 then money else -money;
    DivTwice(m);
    assert JavaDiv(money, 10) == if money >= 0 then m / 10 else -(m / 10);
    assert TaxDue(money) == if money >= 0 then m / 100 * 10 else -(m / 100 * 10);
  }

  /** A Chance card: a coin (heads is a gain) and a multiple of ten,
      1..20 tens for a gain, 1..30 tens for a loss. */
  datatype Draw = Draw(heads: bool, tens: int)
  type ChanceDraw = d: Draw | 1 <= d.tens <= (if d.heads then 20 else 30) witness Draw(true, 1)

  /** The change in cash a Chance card makes: never zero, a multiple of
      ten, a gain of at most 200 or a loss of at most 300. */
  function ChanceDelta(d: ChanceDraw): int {
    if d.heads then d.tens * 10 else -(d.tens * 10)
  }

  lemma ChanceDeltaSpec(d: ChanceDraw)
    ensures ChanceDelta(d) != 0 && ChanceDelta(d) % 10 == 0
    ensures d.heads <==> ChanceDelta(d) > 0
    ensures -300 <= ChanceDelta(d) <= 200
  {
  }

  /** A buyable square with a fixed price and rent and a mutable owner;
      the owner is a plain reference, compared by identity. */
  class PropertySquare {
    const position: int
    const name: string
    const price: int
    const rent: int
    var owner: Player?

    constructor(position: int, name: string, price: int, rent: int)
      ensures this.position == position && this.name == name
      ensures this.price == price && this.rent == rent
      ensures owner == null
    {
      this.position := position;
      this.name := name;
      this.price := price;
      this.rent := rent;
      owner := null;
    }

    /** Who holds this square, as seen by player p. */
    function HolderFor(p: Player): Holder
      reads this
    {
      if owner == null then Nobody else if owner == p then Lander else Other
    }

    method SetOwner(o: Player?)
      modifies this
      ensures owner == o
    {
      owner := o;
    }

    /** Buy it if unowned, affordable and the player says yes; pay rent
      to another owner; nothing if the lander owns it. */
    method LandOn(player: Player, buy: bool)
      modifies this, player, owner
      ensures var (t, effect) := PropertyLanding(price, rent, old(HolderFor(player)), old(player.State()), buy);
        && player.State() == t
        && owner == (if effect.Bought? then player else old(owner))
        && (effect.PaidRent? ==> old(owner) != null && old(owner).State() == Credit(old(owner.State()), rent))
    {
      if owner == null {
        if player.money >= price {
          if buy {
            player.ReduceMoney(price);
            owner := player;
          }
        }
      } else if owner != player {
        player.ReduceMoney(rent);
        owner.AddMoney(rent);
      }
    }
  }

  /** A board square. Go sits at 1 and the jail square reports 11 as
      its position wherever the board stores it. */
  datatype Square =
    | Go
    | Property(deed: PropertySquare)
    | Chance(position: int)
    | IncomeTax(position: int)
    | Jail
    | GoToJail(position: int)
    | FreeParking(position: int)
  {
    function Position(): int {
      match this
      case Go => 1
      case Property(d) => d.position
      case Chance(p) => p
      case IncomeTax(p) => p
      case Jail => JailPosition
      case GoToJail(p) => p
      case FreeParking(p) => p
    }
  }

  /** Ownership of a property relative to the player landing on it. */
  datatype Holder = Nobody | Lander | Other

  /** What a square looks like to one player: its kind, and for a
      property its price, rent and who holds it. Vacant is an empty
      board slot (a null entry). */
  datatype Cell =
    | GoCell
    | PropertyCell(price: int, rent: int, holder: Holder)
    | ChanceCell
    | TaxCell
    | JailCell
    | GoToJailCell
    | ParkingCell
    | Vacant

  /** What a landing did besides changing the lander: bought the
      property, or paid rent to its owner. */
  datatype Effect = NoEffect | Bought | PaidRent(amount: int)

  function CellOf(sq: Square, p: Player): Cell
    reads if sq.Property? then {sq.deed} else {}
  {
    match sq
    case Go => GoCell
    case Property(d) => PropertyCell(d.price, d.rent, d.HolderFor(p))
    case Chance(_) => ChanceCell
    case IncomeTax(_) => TaxCell
    case Jail => JailCell
    case GoToJail(_) => GoToJailCell
    case FreeParking(_) => ParkingCell
  }

  /** Landing on a property. */
  function PropertyLanding(price: int, rent: int, holder: Holder, s: PlayerState, buy: bool): (PlayerState, Effect) {
    match holder
    case Nobody => if s.money >= price && buy then (Debit(s, price), Bought) else (s, NoEffect)
    case Other => (Debit(s, rent), PaidRent(rent))
    case Lander => (s, NoEffect)
  }

  /** Landing on any square: the lander's new state and the effect on
      the property's ownership or its owner. */
  function Land(c: Cell, s: PlayerState, buy: bool, draw: ChanceDraw): (PlayerState, Effect)
    requires !c.Vacant?
  {
    match c
    case GoCell => (Credit(s, Salary), NoEffect)
    case PropertyCell(price, rent, holder) => PropertyLanding(price, rent, holder, s, buy)
    case ChanceCell => (Credit(s, ChanceDelta(draw)), NoEffect)
    case TaxCell => (Debit(s, TaxDue(s.money)), NoEffect)
    case JailCell => (s, NoEffect)
    case GoToJailCell => (Jailed(s).(position := JailPosition), NoEffect)
    case ParkingCell => (s, NoEffect)
  }

  /** Passing a square: only Go pays, and only when the player's current
      position is not 1. */
  function Passing(c: Cell, s: PlayerState): PlayerState {
    if c.GoCell? && s.position != 1 then Credit(s, Salary) else s
  }

  /** Go pays exactly the salary; Jail and Free Parking change nothing;
      Go to Jail jails the player at 11 with a fresh counter wherever
      they were. */
  lemma SimpleSquares(s: PlayerState, buy: bool, draw: ChanceDraw)
    ensures Land(GoCell, s, buy, draw) == (s.(money := s.money + 1500), NoEffect)
    ensures Land(JailCell, s, buy, draw) == (s, NoEffect)
    ensures Land(ParkingCell, s, buy, draw) == (s, NoEffect)
    ensures Land(GoToJailCell, s, buy, draw) == (PlayerState(s.money, 11, true, 0), NoEffect)
  {
  }

  /** The four cases of landing on a property. */
  lemma PropertyCases(price: int, rent: int, holder: Holder, s: PlayerState, buy: bool)
    ensures var (t, effect) := PropertyLanding(price, rent, holder, s, buy);
      && (holder == Nobody && s.money >= price && buy ==> t == s.(money := s.money - price) && effect == Bought)
      && (holder == Nobody && !(s.money >= price && buy) ==> t == s && effect == NoEffect)
      && (holder == Other ==> t == s.(money := s.money - rent) && effect == PaidRent(rent))
      && (holder == Lander ==> t == s && effect == NoEffect)
  {
  }

  /** Income tax never pushes a solvent player below zero and takes
      something from a balance of 100 or more; a Chance card changes the
      balance by a non-zero multiple of ten. */
  lemma CashSquares(s: PlayerState, buy: bool, draw: ChanceDraw)
    ensures s.money >= 0 ==> Land(TaxCell, s, buy, draw).0.money == s.money - s.money / 100 * 10 >= 0
    ensures s.money >= 100 ==> Land(TaxCell, s, buy, draw).0.money < s.money
    ensures Land(ChanceCell, s, buy, draw).0.money != s.money
  {
    TaxDueSpec(s.money);
    ChanceDeltaSpec(draw);
  }

  /** Landing moves the player only on Go to Jail, and touches the jail
      state only there. */
  lemma LandingKeepsPlace(c: Cell, s: PlayerState, buy: bool, draw: ChanceDraw)
    requires !c.Vacant? && !c.GoToJailCell?
    ensures var t := Land(c, s, buy, draw).0;
      t.position == s.position && t.inJail == s.inJail && t.turnsInJail == s.turnsInJail
  {
  }

  /** landOn, dispatched on the kind of square. */
  method LandOn(sq: Square, player: Player, buy: bool, draw: ChanceDraw)
    modifies player, if sq.Property? then {sq.deed, sq.deed.owner} else {}
    ensures var (t, effect) := Land(old(CellOf(sq, player)), old(player.State()), buy, draw);
      && player.State() == t
      && (sq.Property? ==> sq.deed.owner == (if effect.Bought? then player else old(sq.deed.owner)))
      && (effect.PaidRent? ==> sq.Property? && old(sq.deed.owner) != null
                               && old(sq.deed.owner).State() == Credit(old(sq.deed.owner.State()), effect.amount))
  {
    match sq
    case Go =>
      player.AddMoney(Salary);
    case Property(d) =>
      d.LandOn(player, buy);
    case Chance(_) =>
      if draw.heads {
        player.AddMoney(draw.tens * 10);
      } else {
        player.ReduceMoney(draw.tens * 10);
      }
    case IncomeTax(_) =>
      var tax := JavaDiv(JavaDiv(player.money, 10), 10) * 10;
      player.ReduceMoney(tax);
    case Jail =>
    case GoToJail(_) =>
      player.GoToJail();
      player.SetPosition(JailPosition);
    case FreeParking(_) =>
  }

  /** passBy: Go pays the salary unless the player stands on 1; every
      other square does nothing. */
  method PassBy(sq: Square, player: Player)
    modifies player
    ensures player.State() == Passing(old(CellOf(sq, player)), old(player.State()))
  {
    if sq.Go? && player.position != 1 {
      player.AddMoney(Salary);
    }
  }
}

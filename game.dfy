/** The game: the board, the ordered list of active players, the round
    counter, turns, bankruptcies and the winner. */
module Games {
  import opened Wrappers
  import opened Players
  import opened Squares
  import opened Turns
  import opened Roster

  /** The game stops when the round counter reaches this value. */
  const MaxRounds := 100
  const MinPlayers := 2
  const MaxPlayers := 6

  /** What the default board holds at one slot. */
  datatype Layout =
    | GoAt
    | PropertyAt(name: string, price: int, rent: int)
    | ChanceAt
    | TaxAt
    | JailAt
    | GoToJailAt
    | ParkingAt

  /** The default board. The jail square sits in slot 6 (it reports 11 as
      its position); slot 11, where jailed players are put, is Free Parking. */
  function DefaultLayout(i: int): Layout
    requires 1 <= i <= BoardSize
  {
    if i == 1 then GoAt
    else if i == 2 then PropertyAt("Central", 800, 90)
    else if i == 3 then PropertyAt("Wan Chai", 700, 65)
    else if i == 4 then TaxAt
    else if i == 5 then PropertyAt("Stanley", 600, 60)
    else if i == 6 then JailAt
    else if i == 7 then PropertyAt("Shek O", 400, 10)
    else if i == 8 then PropertyAt("Mong Kok", 500, 40)
    else if i == 9 then ChanceAt
    else if i == 10 then PropertyAt("Tsing Yi", 400, 15)
    else if i == 11 then ParkingAt
    else if i == 12 then PropertyAt("Shatin", 700, 75)
    else if i == 13 then PropertyAt("Tuen Mun", 400, 20)
    else if i == 14 then PropertyAt("Tai Po", 500, 25)
    else if i == 15 then PropertyAt("Sai Kung", 400, 10)
    else if i == 16 then GoToJailAt
    else if i == 17 then PropertyAt("Yuen Long", 400, 25)
    else if i == 18 then PropertyAt("Tai O", 600, 25)
    else if i == 19 then ChanceAt
    else PropertyAt("Peak", 850, 100)
  }

  /** Square sq is the one the layout prescribes for slot i. */
  predicate Matches(sq: Square, l: Layout, i: int) {
    match l
    case GoAt => sq == Go
    case PropertyAt(n, p, r) =>
      sq.Property? && sq.deed.position == i && sq.deed.name == n && sq.deed.price == p && sq.deed.rent == r
    case ChanceAt => sq == Chance(i)
    case TaxAt => sq == IncomeTax(i)
    case JailAt => sq == Jail
    case GoToJailAt => sq == GoToJail(i)
    case ParkingAt => sq == FreeParking(i)
  }

  /** Slots 1..20 hold the default squares. */
  ghost predicate DefaultBoard(board: array<Option<Square>>)
    reads board
  {
    && board.Length == BoardSize + 1
    && board[0] == None
    && forall i :: 1 <= i <= BoardSize ==> board[i].Some? && Matches(board[i].value, DefaultLayout(i), i)
  }

  /** What the turn logic needs of a board: 21 slots, slot 0 empty, Go in
      slot 1 and every slot from 1 to 20 occupied. */
  ghost predicate Occupied(board: array<Option<Square>>)
    reads board
  {
    && board.Length == BoardSize + 1
    && board[0] == None
    && board[1] == Some(Go)
    && forall i :: 1 <= i <= BoardSize ==> board[i].Some?
  }

  /** deeds is exactly the set of property squares on the board, each
      stored at the slot its position names. */
  ghost predicate DeedsOnBoard(board: array<Option<Square>>, deeds: set<PropertySquare>)
    reads board
  {
    && board.Length == BoardSize + 1
    && (forall i :: 0 <= i < board.Length && board[i].Some? && board[i].value.Property? ==>
          board[i].value.deed in deeds && board[i].value.deed.position == i)
    && (forall d :: d in deeds ==> 1 <= d.position <= BoardSize && board[d.position] == Some(Property(d)))
  }

  /** The default board is occupied and prices every property above zero. */
  lemma DefaultBoardFacts(board: array<Option<Square>>, deeds: set<PropertySquare>)
    requires DefaultBoard(board) && DeedsOnBoard(board, deeds)
    ensures Occupied(board)
    ensures forall d :: d in deeds ==> d.price > 0 && d.rent > 0
    ensures board[6] == Some(Jail) && board[6].value.Position() == JailPosition
    ensures board[JailPosition] == Some(FreeParking(JailPosition))
    ensures forall i :: 1 <= i <= BoardSize && i != 6 ==> board[i].value.Position() == i
  {
    assert Matches(board[1].value, DefaultLayout(1), 1);
    assert Matches(board[6].value, DefaultLayout(6), 6);
    assert Matches(board[11].value, DefaultLayout(11), 11);
    forall i | 1 <= i <= BoardSize && i != 6
      ensures board[i].value.Position() == i
    {
      assert Matches(board[i].value, DefaultLayout(i), i);
    }
    forall d | d in deeds
      ensures d.price > 0 && d.rent > 0
    {
      assert Matches(board[d.position].value, DefaultLayout(d.position), d.position);
    }
  }

  class Game {
    var players: seq<Player>
    const board: array<Option<Square>>
    /** The property squares on the board (a fixed set of objects). */
    ghost const deeds: set<PropertySquare>
    var currentPlayerIndex: int
    var currentRound: int

    ghost predicate Valid()
      reads this, board, players, deeds
    {
      && Occupied(board)
      && DeedsOnBoard(board, deeds)
      && (forall d :: d in deeds ==> d.price > 0 && d.rent > 0)
      && (forall i, j :: 0 <= i < j < |players| ==> players[i] != players[j])
      && (forall q :: q in players ==> PlayerOk(q.State()))
      && (forall d :: d in deeds ==> d.owner == null || d.owner in players)
      && 0 <= currentRound <= MaxRounds
      && 0 <= currentPlayerIndex
    }

    /** The board as player p sees it. */
    ghost function View(p: Player): (view: seq<Cell>)
      requires board.Length == BoardSize + 1
      reads board, deeds
    {
      seq(BoardSize + 1, i requires 0 <= i < BoardSize + 1 reads board, deeds =>
        if board[i].Some? && (board[i].value.Property? ==> board[i].value.deed in deeds)
        then CellOf(board[i].value, p) else Vacant)
    }

    /** The owner of the property in slot i, if there is one. */
    ghost function OwnerAt(i: int): Player?
      requires 0 <= i < board.Length
      reads board, deeds
    {
      if board[i].Some? && board[i].value.Property? && board[i].value.deed in deeds
      then board[i].value.deed.owner else null
    }

    constructor(names: seq<string>)
      requires MinPlayers <= |names| <= MaxPlayers
      ensures Valid() && fresh(board) && DefaultBoard(board)
      ensures |players| == |names|
      ensures forall i :: 0 <= i < |names| ==> fresh(players[i]) && players[i].name == names[i] && players[i].State() == Start
      ensures forall d :: d in deeds ==> fresh(d) && d.owner == null
      ensures currentPlayerIndex == 0 && currentRound == 0
    {
      var ps: seq<Player> := [];
      var k := 0;
      while k < |names|
        invariant 0 <= k <= |names| && |ps| == k
        invariant forall i :: 0 <= i < k ==> fresh(ps[i]) && ps[i].name == names[i] && ps[i].State() == Start
        invariant forall i, j :: 0 <= i < j < k ==> ps[i] != ps[j]
      {
        var p := new Player(names[k]);
        ps := ps + [p];
        k := k + 1;
      }
      players := ps;
      var b := new Option<Square>[BoardSize + 1](_ => None);
      ghost var ds := InitializeBoard(b);
      DefaultBoardFacts(b, ds);
      board := b;
      deeds := ds;
      currentPlayerIndex := 0;
      currentRound := 0;
    }

    /** The constructor's failure case made explicit: a player count
        outside 2..6 yields no game. */
    static method Create(names: seq<string>) returns (game: Option<Game>)
      ensures game.None? <==> !(MinPlayers <= |names| <= MaxPlayers)
      ensures game.Some? ==> fresh(game.value) && game.value.Valid() && |game.value.players| == |names|
    {
      if |names| < MinPlayers || |names| > MaxPlayers {
        return None;
      }
      var g := new Game(names);
      return Some(g);
    }

    /** The square the default layout puts in slot i; a property square
        is freshly allocated and unowned. */
    static method NewSquare(i: int) returns (sq: Square)
      requires 1 <= i <= BoardSize
      ensures Matches(sq, DefaultLayout(i), i)
      ensures sq.Property? ==> fresh(sq.deed) && sq.deed.owner == null
    {
      match DefaultLayout(i)
      case GoAt => sq := Go;
      case PropertyAt(name, price, rent) =>
        var deed := new PropertySquare(i, name, price, rent);
        sq := Property(deed);
      case ChanceAt => sq := Chance(i);
      case TaxAt => sq := IncomeTax(i);
      case JailAt => sq := Jail;
      case GoToJailAt => sq := GoToJail(i);
      case ParkingAt => sq := FreeParking(i);
    }

    /** initializeBoard: fills slots 1..20 with the default squares, every
        property fresh and unowned. */
    static method InitializeBoard(board: array<Option<Square>>) returns (ghost deeds: set<PropertySquare>)
      requires board.Length == BoardSize + 1 && board[0] == None
      modifies board
      ensures DefaultBoard(board) && DeedsOnBoard(board, deeds)
      ensures forall d :: d in deeds ==> fresh(d) && d.owner == null
    {
      deeds := {};
      var i := 1;
      while i <= BoardSize
        invariant 1 <= i <= BoardSize + 1 && board[0] == None
        invariant forall j :: 1 <= j < i ==> board[j].Some? && Matches(board[j].value, DefaultLayout(j), j)
        invariant forall j :: 1 <= j < i && board[j].value.Property? ==> board[j].value.deed in deeds
        invariant forall d :: d in deeds ==>
          fresh(d) && d.owner == null && 1 <= d.position < i && board[d.position] == Some(Property(d))
      {
        var sq := NewSquare(i);
        board[i] := Some(sq);
        if sq.Property? {
          deeds := deeds + {sq.deed};
        }
        i := i + 1;
      }
    }

    /** On a valid game every slot of a player's view is occupied, and
        slot 1 is Go. */
    lemma ViewIsOk(p: Player)
      requires Valid()
      ensures ViewOk(View(p)) && View(p)[1] == GoCell
    {
    }

    /** Each occupied slot of the view shows the square stored there. */
    lemma ViewShows(p: Player, i: int)
      requires Valid() && 1 <= i <= BoardSize
      ensures View(p)[i] == CellOf(board[i].value, p)
    {
    }

    /** What takeTurn will do for player p with these inputs. */
    ghost function Planned(p: Player, input: TurnInput): Outcome
      requires Valid() && p in players
      reads this, board, players, deeds
    {
      ViewIsOk(p);
      Turn(View(p), p.State(), input)
    }

    /** The owner a turn's rent goes to: the owner of the landed property. */
    ghost function Payee(out: Outcome): Player?
      requires board.Length == BoardSize + 1
      reads board, deeds
    {
      if out.landing.Some? && 0 <= out.landing.value < board.Length then OwnerAt(out.landing.value) else null
    }

    /** isGameOver: the round cap is reached exactly, or one player is
        left. Below the cap, a game that is not over has a round to go. */
    predicate IsGameOver(): (over: bool)
      reads this
      ensures |players| == 1 ==> over
      ensures !over && currentRound <= MaxRounds ==> currentRound + 1 <= MaxRounds && |players| != 1
    {
      currentRound == MaxRounds || |players| == 1
    }

    /** What one turn did to the game: the lander's state is out.state;
        of the other players in roster only payee changes, credited with
        the rent; the landed property becomes the lander's if bought, and
        no other ownership changes. */
    twostate predicate Did(player: Player, roster: seq<Player>, out: Outcome, payee: Player?)
      reads player, roster, deeds
    {
      && DidToPlayers(player, roster, out, payee)
      && (forall d :: d in deeds ==>
            d.owner == if out.effect.Bought? && out.landing == Some(d.position) then player else old(d.owner))
    }

    /** The players' part of Did. */
    twostate predicate DidToPlayers(player: Player, roster: seq<Player>, out: Outcome, payee: Player?)
      reads player, roster
    {
      && player.State() == out.state
      && (forall q :: q in roster && q != player ==>
            q.State() == if out.effect.PaidRent? && q == payee then Credit(old(q.State()), out.effect.amount) else old(q.State()))
    }

    /** takeTurn: the game changes as Did says for the outcome Turn
        prescribes on the board as the player saw it, the rent going to
        the owner of the landed property. */
    method TakeTurn(player: Player, input: TurnInput)
      requires Valid() && player in players
      modifies players, deeds
      ensures Valid()
      ensures Did(player, players, old(Planned(player, input)), old(Payee(Planned(player, input))))
      ensures forall q :: q in players && q != player ==> q.money >= old(q.money)
      decreases if player.inJail then 2 else 0
    {
      RentIsPositive(player, input);
      if player.inJail {
        HandleJailTurn(player, input);
      } else {
        FreeTurn(player, input);
      }
      assert forall q :: q in players ==> PlayerOk(q.State());
    }

    /** The free player's part of takeTurn: roll, walk (Go's passBy when
        the move wraps past 20), land. */
    method FreeTurn(player: Player, input: TurnInput)
      requires Valid() && player in players && !player.inJail
      modifies players, deeds
      ensures PlayerOk(player.State())
      ensures Did(player, players, old(Planned(player, input)), old(Payee(Planned(player, input))))
    {
      ViewIsOk(player);
      ghost var view, s := View(player), player.State();
      MoveKeepsPlayerOk(view, s, input);
      ghost var out := Move(view, s, input);
      ghost var payee := Payee(out);
      var roll := input.d1 + input.d2;
      var oldPosition := player.position;
      var newPosition := oldPosition + roll;
      if newPosition > BoardSize {
        newPosition := newPosition - BoardSize;
        PassBy(board[1].value, player);
      }
      assert player.State().(position := newPosition) == Walk(view, s, roll);
      assert out.landing == Some(newPosition) && OwnerAt(newPosition) == payee;
      MoveTo(player, newPosition, input);
    }

    /** handleJailTurn: a solvent player who chooses to pays the fine and
        takes a normal turn; otherwise the player rolls for release. */
    method HandleJailTurn(player: Player, input: TurnInput)
      requires Valid() && player in players && player.inJail
      modifies players, deeds
      ensures PlayerOk(player.State())
      ensures Did(player, players, old(Planned(player, input)), old(Payee(Planned(player, input))))
      decreases 1
    {
      if player.money >= JailFine && player.inJail {
        if input.payFine {
          player.PayJailFine();
          if !player.inJail {
            assert forall q :: q in players ==> PlayerOk(q.State());
            TakeTurn(player, input);
            return;
          }
        }
      }
      RollForRelease(player, input);
    }

    /** The dice part of handleJailTurn: doubles or the third attempt
        release the player, who moves by the roll from the jail position
        (no wrap-around, no pass-Go) and lands there. */
    method RollForRelease(player: Player, input: TurnInput)
      requires Valid() && player in players && player.inJail
      modifies players, deeds
      ensures PlayerOk(player.State())
      ensures var out := old(Roll(View(player), player.State(), input));
        Did(player, players, out, old(Payee(out)))
    {
      ViewIsOk(player);
      ghost var view, s := View(player), player.State();
      RollKeepsPlayerOk(view, s, input);
      ghost var out := Roll(view, s, input);
      ghost var payee := Payee(out);
      var freed := player.TryToGetOutOfJail(input.d1, input.d2);
      if freed {
        var dest := player.position + input.d1 + input.d2;
        ghost var (u, effect) := Land(view[dest], player.State().(position := dest), input.buy, input.draw);
        assert out == Outcome(u, Some(dest), effect) && OwnerAt(dest) == payee;
        assert View(player)[dest] == view[dest];
        MoveTo(player, dest, input);
      } else {
        assert out == Outcome(player.State(), None, NoEffect);
      }
    }

    /** The last step of both kinds of turn: setPosition, then landOn of
        the square in that slot. */
    method MoveTo(player: Player, at: int, input: TurnInput)
      requires Occupied(board) && DeedsOnBoard(board, deeds) && 1 <= at <= BoardSize
      requires player in players
      requires forall d :: d in deeds ==> d.owner == null || d.owner in players
      modifies players, deeds
      ensures var (t, effect) := Land(old(View(player))[at], old(player.State()).(position := at), input.buy, input.draw);
        Did(player, players, Outcome(t, Some(at), effect), old(OwnerAt(at)))
    {
      player.SetPosition(at);
      var sq := board[at].value;
      assert View(player)[at] == CellOf(sq, player);
      LandOn(sq, player, input.buy, input.draw);
    }

    /** The bankruptcy step of play: every property on the board loses
        its owner. */
    method ClearOwners()
      requires DeedsOnBoard(board, deeds)
      modifies deeds
      ensures forall d :: d in deeds ==> d.owner == null
    {
      var i := 0;
      while i < board.Length
        invariant 0 <= i <= board.Length
        invariant forall d :: d in deeds && d.position < i ==> d.owner == null
      {
        if board[i].Some? && board[i].value.Property? {
          board[i].value.deed.SetOwner(null);
        }
        i := i + 1;
      }
    }

    /** A bankrupt player retires: all ownership is cleared and the
        player leaves the list, the others keeping their order. */
    method Retire(k: int)
      requires Valid() && 0 <= k < |players|
      modifies this, deeds
      ensures Valid()
      ensures players == old(players[..k] + players[k + 1..])
      ensures forall d :: d in deeds ==> d.owner == null
      ensures currentRound == old(currentRound) && currentPlayerIndex == old(currentPlayerIndex)
    {
      ClearOwners();
      players := players[..k] + players[k + 1..];
    }

    /** The rent a turn pays is positive, so a turn never lowers the
        balance of anyone but the player taking it. */
    lemma RentIsPositive(p: Player, input: TurnInput)
      requires Valid() && p in players
      ensures Planned(p, input).effect.PaidRent? ==> Planned(p, input).effect.amount > 0
    {
      ViewIsOk(p);
      TurnFacts(View(p), p.State(), input);
      var out := Planned(p, input);
      if out.effect.PaidRent? {
        var at := out.landing.value;
        ViewShows(p, at);
        assert board[at].value.deed in deeds;
      }
    }

    /** play: rounds until the game is over, then announceWinner. The
        k-th turn of the game uses script(k); turns and sizes are as
        PlayRounds gives them. */
    method Play(script: nat -> TurnInput) returns (winners: seq<Player>, turns: nat, ghost sizes: seq<nat>)
      requires Valid()
      modifies this, players, deeds
      ensures Valid() && IsGameOver()
      ensures old(IsGameOver()) ==> players == old(players) && currentRound == old(currentRound) && turns == 0
      ensures currentPlayerIndex == old(currentPlayerIndex)
      ensures |sizes| == currentRound - old(currentRound) && turns == Total(sizes)
      ensures forall k :: 0 <= k < |sizes| ==> |players| <= sizes[k] <= |old(players)|
      ensures |sizes| > 0 ==> sizes[0] == |old(players)|
      ensures IsSubseq(players, old(players))
      ensures forall q :: q in old(players) && q !in players ==> q.money < 0
      ensures old(!IsGameOver()) ==> forall q :: q in players ==> q.money >= 0
      ensures winners == Winners(players)
    {
      turns, sizes := PlayRounds(script);
      winners := AnnounceWinner();
    }

    /** The rounds of play: rounds until the game is over, the round
        counter advancing by one per round; the k-th turn uses script(k).
        sizes holds one entry per round, the scripted inputs that round
        consumed (the whole starting list in the first round, and never
        fewer than the survivors), and turns is their sum. A game already
        over plays no round. Survivors keep their order, every player who
        left went bankrupt, after at least one round every survivor is
        solvent, and the turn index is untouched. */
    method PlayRounds(script: nat -> TurnInput) returns (turns: nat, ghost sizes: seq<nat>)
      requires Valid()
      modifies this, players, deeds
      ensures Valid() && IsGameOver()
      ensures old(IsGameOver()) ==> players == old(players) && currentRound == old(currentRound) && turns == 0
      ensures currentPlayerIndex == old(currentPlayerIndex)
      ensures |sizes| == currentRound - old(currentRound) && turns == Total(sizes)
      ensures forall k :: 0 <= k < |sizes| ==> |players| <= sizes[k] <= |old(players)|
      ensures |sizes| > 0 ==> sizes[0] == |old(players)|
      ensures IsSubseq(players, old(players))
      ensures forall q :: q in old(players) && q !in players ==> q.money < 0
      ensures old(!IsGameOver()) ==> forall q :: q in players ==> q.money >= 0
    {
      SubseqRefl(players);
      turns, sizes := 0, [];
      while !IsGameOver()
        invariant Valid()
        invariant IsSubseq(players, old(players))
        invariant forall j :: 0 <= j < |players| ==> players[j] in old(players)
        invariant forall q :: q in old(players) && q !in players ==> q.money < 0
        invariant |sizes| == currentRound - old(currentRound) && turns == Total(sizes)
        invariant forall k :: 0 <= k < |sizes| ==> |players| <= sizes[k] <= |old(players)|
        invariant |sizes| > 0 ==> sizes[0] == |old(players)|
        invariant currentPlayerIndex == old(currentPlayerIndex)
        invariant old(IsGameOver()) ==> currentRound == old(currentRound)
        invariant currentRound == old(currentRound) ==> players == old(players)
        invariant currentRound > old(currentRound) ==> forall q :: q in players ==> q.money >= 0
        decreases MaxRounds - currentRound
      {
        ghost var before := players;
        assert (sizes + [|before|])[..|sizes|] == sizes;
        sizes := sizes + [|before|];
        turns := PlayRound(script, turns);
        SubseqTrans(players, before, old(players));
      }
    }

    /** The number of turns in rounds of the given sizes. */
    static function Total(sizes: seq<nat>): nat {
      if sizes == [] then 0 else Total(sizes[..|sizes| - 1]) + sizes[|sizes| - 1]
    }

    /** One round of play: the round counter goes up by one; then each
        active player, in list order, takes a turn, and one whose balance
        is then negative retires at once; the iteration goes on with the
        player after it. The round consumes one scripted input per player
        active at its start; the effect of each turn is stated by TurnAt,
        which the loop calls once per player. */
    method PlayRound(script: nat -> TurnInput, turn: nat) returns (next: nat)
      requires Valid() && !IsGameOver()
      modifies this, players, deeds
      ensures Valid()
      ensures currentRound == old(currentRound) + 1 && currentPlayerIndex == old(currentPlayerIndex)
      ensures next == turn + |old(players)|
      ensures IsSubseq(players, old(players)) && |players| <= |old(players)|
      ensures forall j :: 0 <= j < |players| ==> players[j] in old(players)
      ensures forall q :: q in old(players) && q !in players ==> q.money < 0
      ensures forall q :: q in players ==> q.money >= 0
    {
      currentRound := currentRound + 1;
      ghost var start := players;
      SubseqRefl(players);
      next := turn;
      var i := 0;
      while i < |players|
        invariant Valid() && 0 <= i <= |players|
        invariant currentRound == old(currentRound) + 1 && currentPlayerIndex == old(currentPlayerIndex)
        invariant next - turn + |players| - i == |start|
        invariant IsSubseq(players, start)
        invariant forall j :: 0 <= j < |players| ==> players[j] in start
        invariant forall q :: q in start && q !in players ==> q.money < 0
        invariant forall j :: 0 <= j < i ==> players[j].money >= 0
        decreases |players| - i
      {
        ghost var before := players;
        var retired := TurnAt(i, script(next));
        next := next + 1;
        SubseqTrans(players, before, start);
        forall j | 0 <= j < |players|
          ensures players[j] in start
        {
          SubseqMembers(players, start, players[j]);
        }
        if !retired {
          i := i + 1;
        }
      }
      SubseqLength(players, start);
    }

    /** One step of play's inner loop: the player at index i takes a
        turn and retires if its balance is then negative. The players
        before it stay solvent, and the list only loses that player. */
    method TurnAt(i: int, input: TurnInput) returns (retired: bool)
      requires Valid() && 0 <= i < |players|
      requires forall j :: 0 <= j < i ==> players[j].money >= 0
      modifies this, players, deeds
      ensures Valid() && currentRound == old(currentRound) && currentPlayerIndex == old(currentPlayerIndex)
      ensures var out := old(Planned(players[i], input));
        if retired then DidToPlayers(old(players[i]), old(players), out, old(Payee(out)))
        else Did(old(players[i]), old(players), out, old(Payee(out)))
      ensures retired ==> forall d :: d in deeds ==> d.owner == null
      ensures retired <==> old(players[i]).money < 0
      ensures players == if retired then old(players[..i] + players[i + 1..]) else old(players)
      ensures IsSubseq(players, old(players))
      ensures forall q :: q in old(players) && q !in players ==> q.money < 0
      ensures forall j :: 0 <= j < (if retired then i else i + 1) ==> players[j].money >= 0
    {
      var player := players[i];
      TakeTurn(player, input);
      assert forall j :: 0 <= j < i ==> players[j] != player;
      retired := player.money < 0;
      if retired {
        Retire(i);
        SubseqRemove(old(players), i);
      } else {
        SubseqRefl(players);
      }
    }

    /** announceWinner: nobody when no player is left, otherwise the
        players whose balance is the largest, in list order. */
    method AnnounceWinner() returns (winners: seq<Player>)
      ensures winners == Winners(players)
    {
      if players == [] {
        return [];
      }
      var maxMoney := MaxBalance();
      winners := PlayersWith(maxMoney);
    }

    /** The stream maximum of announceWinner: the largest balance. */
    method MaxBalance() returns (maxMoney: int)
      requires players != []
      ensures maxMoney == MaxMoney(players)
    {
      maxMoney := players[0].money;
      ghost var best := 0;
      var i := 1;
      while i < |players|
        invariant 1 <= i <= |players| && 0 <= best < i
        invariant players[best].money == maxMoney
        invariant forall j :: 0 <= j < i ==> players[j].money <= maxMoney
      {
        if players[i].money > maxMoney {
          maxMoney := players[i].money;
          best := i;
        }
        i := i + 1;
      }
      assert players[best] in players;
    }

    /** The stream filter of announceWinner: the players holding exactly
        m, in list order. */
    method PlayersWith(m: int) returns (winners: seq<Player>)
      ensures winners == Select(players, m)
    {
      winners := [];
      var i := 0;
      while i < |players|
        invariant 0 <= i <= |players|
        invariant winners == Select(players[..i], m)
      {
        assert players[..i + 1] == players[..i] + [players[i]];
        SelectSnoc(players[..i], players[i], m);
        if players[i].money == m {
          winners := winners + [players[i]];
        }
        i := i + 1;
      }
      assert players[..i] == players;
    }

    /** moveToNextPlayer: the turn passes to the next player in list
        order, from the last back to the first. The list must not be
        empty. */
    method MoveToNextPlayer()
      requires |players| > 0 && currentPlayerIndex >= 0
      modifies this
      ensures players == old(players) && currentRound == old(currentRound)
      ensures currentPlayerIndex == NextIndex(old(currentPlayerIndex), |players|)
      ensures players[currentPlayerIndex] == old(GetNextPlayer())
    {
      currentPlayerIndex := (currentPlayerIndex + 1) % |players|;
    }

    /** getNextPlayer: the player after the current one, the first player
        after the last. */
    function GetNextPlayer(): (p: Player)
      requires |players| > 0 && currentPlayerIndex >= 0
      reads this
      ensures p in players
      ensures currentPlayerIndex + 1 < |players| ==> p == players[currentPlayerIndex + 1]
      ensures currentPlayerIndex == |players| - 1 ==> p == players[0]
    {
      players[NextIndex(currentPlayerIndex, |players|)]
    }
  }
}

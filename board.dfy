/** A stand-alone board for the board-design workflow: 21 slots, slot 0
    unused, all empty until squares are placed. */
module Boards {
  import opened Wrappers
  import opened Squares

  class GameBoard {
    const squares: array<Option<Square>>

    /** The slot array always has 21 entries, and slot 0 stays empty. */
    ghost predicate Valid()
      reads squares
    {
      squares.Length == BoardSize + 1 && squares[0] == None
    }

    constructor()
      ensures Valid() && fresh(squares)
      ensures forall i :: 0 <= i < squares.Length ==> squares[i] == None
    {
      squares := new Option<Square>[BoardSize + 1](_ => None);
    }

    /** setSquare: replaces one slot wholesale; a position outside 1..20
        is refused and leaves the board as it was. */
    method SetSquare(position: int, sq: Square) returns (ok: bool)
      requires Valid()
      modifies squares
      ensures Valid()
      ensures ok <==> 1 <= position <= BoardSize
      ensures ok ==> squares[..] == old(squares[..])[position := Some(sq)]
      ensures ok ==> GetSquare(position) == Some(sq)
      ensures forall i :: 0 <= i < squares.Length && i != position ==> GetSquare(i) == old(GetSquare(i))
      ensures !ok ==> squares[..] == old(squares[..])
    {
      if position < 1 || position > BoardSize {
        return false;
      }
      squares[position] := Some(sq);
      return true;
    }

    /** getSquare: the slot's square, if any; slot 0 never holds one. */
    function GetSquare(position: int): (sq: Option<Square>)
      requires Valid() && 0 <= position < squares.Length
      reads squares
      ensures position == 0 ==> sq == None
    {
      squares[position]
    }
  }
}

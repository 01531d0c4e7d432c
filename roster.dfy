/** The ordered list of active players: whose turn is next, which
    players remain after removals, and who has the most money. */
module Roster {
  import opened Players

  // ---- Turn rotation ----

  /** The index of the player after player i among n. */
  function NextIndex(i: int, n: int): (r: int)
    requires n > 0 && i >= 0
    ensures 0 <= r < n
  {
    (i + 1) % n
  }

  /** The current index after k moves to the next player. */
  function Rotate(i: int, n: int, k: nat): (r: int)
    requires n > 0 && i >= 0
    ensures r >= 0
  {
    if k == 0 then i else NextIndex(Rotate(i, n, k - 1), n)
  }

  /** The next index wraps from the last player back to the first. */
  lemma NextIndexWraps(i: int, n: int)
    requires 0 <= i < n
    ensures NextIndex(i, n) == if i + 1 < n then i + 1 else 0
  {
  }

  /** Up to n moves from index i lead to index i + k, wrapped once past
      the end of the list. */
  lemma {:induction false} RotateIsOffset(i: int, n: int, k: nat)
    requires 0 <= i < n && k <= n
    ensures Rotate(i, n, k) == if i + k < n then i + k else i + k - n
  {
    if k > 0 {
      RotateIsOffset(i, n, k - 1);
      NextIndexWraps(Rotate(i, n, k - 1), n);
    }
  }

  /** Within n moves every one of the n players becomes current, and
      after exactly n moves the turn is back where it started. */
  lemma EveryPlayerGetsATurn(i: int, n: int, j: int)
    requires 0 <= i < n && 0 <= j < n
    ensures exists k :: 0 <= k < n && Rotate(i, n, k) == j
    ensures Rotate(i, n, n) == i
  {
    var k := if j >= i then j - i else j - i + n;
    RotateIsOffset(i, n, k);
    RotateIsOffset(i, n, n);
  }

  // ---- Order-preserving removal ----

  /** a is b with some elements left out, the rest in the same order. */
  predicate IsSubseq<T(==)>(a: seq<T>, b: seq<T>)
    decreases |b|
  {
    if a == [] then true
    else if b == [] then false
    else (a[0] == b[0] && IsSubseq(a[1..], b[1..])) || IsSubseq(a, b[1..])
  }

  lemma {:induction false} SubseqRefl<T>(a: seq<T>)
    ensures IsSubseq(a, a)
    decreases |a|
  {
    if a != [] {
      SubseqRefl(a[1..]);
    }
  }

  /** Removing one element keeps the others in order. */
  lemma {:induction false} SubseqRemove<T>(s: seq<T>, k: int)
    requires 0 <= k < |s|
    ensures IsSubseq(s[..k] + s[k + 1..], s)
    decreases k
  {
    var a := s[..k] + s[k + 1..];
    if k == 0 {
      assert a == s[1..];
      SubseqRefl(s[1..]);
    } else {
      SubseqRemove(s[1..], k - 1);
      assert a[0] == s[0];
      assert a[1..] == s[1..][..k - 1] + s[1..][k..];
    }
  }

  lemma {:induction false} SubseqTrans<T>(a: seq<T>, b: seq<T>, c: seq<T>)
    requires IsSubseq(a, b) && IsSubseq(b, c)
    ensures IsSubseq(a, c)
    decreases |c|
  {
    if a != [] {
      assert b != [] && c != [];
      if IsSubseq(b, c[1..]) {
        SubseqTrans(a, b, c[1..]);
      } else {
        assert b[0] == c[0] && IsSubseq(b[1..], c[1..]);
        if a[0] == b[0] && IsSubseq(a[1..], b[1..]) {
          SubseqTrans(a[1..], b[1..], c[1..]);
        } else {
          SubseqTrans(a, b[1..], c[1..]);
        }
      }
    }
  }

  lemma {:induction false} SubseqLength<T>(a: seq<T>, b: seq<T>)
    requires IsSubseq(a, b)
    ensures |a| <= |b|
    decreases |b|
  {
    if a != [] && b != [] {
      if a[0] == b[0] && IsSubseq(a[1..], b[1..]) {
        SubseqLength(a[1..], b[1..]);
      } else {
        SubseqLength(a, b[1..]);
      }
    }
  }

  lemma {:induction false} SubseqMembers<T>(a: seq<T>, b: seq<T>, x: T)
    requires IsSubseq(a, b) && x in a
    ensures x in b
    decreases |b|
  {
    if a[0] == b[0] && IsSubseq(a[1..], b[1..]) {
      if x != a[0] {
        SubseqMembers(a[1..], b[1..], x);
      }
    } else {
      SubseqMembers(a, b[1..], x);
    }
  }

  // ---- Winners ----

  /** The largest balance among a non-empty list of players. */
  function MaxMoney(ps: seq<Player>): (m: int)
    requires ps != []
    reads ps
    ensures exists q :: q in ps && q.money == m
    ensures forall q :: q in ps ==> q.money <= m
  {
    if |ps| == 1 then ps[0].money
    else
      var rest := MaxMoney(ps[1..]);
      if ps[0].money >= rest then ps[0].money else rest
  }

  /** The players with balance m, in list order. */
  function Select(ps: seq<Player>, m: int): seq<Player>
    reads ps
  {
    if ps == [] then []
    else if ps[0].money == m then [ps[0]] + Select(ps[1..], m)
    else Select(ps[1..], m)
  }

  /** Select keeps exactly the players holding m, in list order. */
  lemma {:induction false} SelectSpec(ps: seq<Player>, m: int)
    ensures forall q :: q in Select(ps, m) ==> q in ps && q.money == m
    ensures forall q :: q in ps && q.money == m ==> q in Select(ps, m)
    ensures IsSubseq(Select(ps, m), ps)
    decreases |ps|
  {
    if ps != [] {
      SelectSpec(ps[1..], m);
      var rest := Select(ps[1..], m);
      if ps[0].money == m {
        assert ([ps[0]] + rest)[1..] == rest;
      }
      assert forall q :: q in ps ==> q == ps[0] || q in ps[1..];
    }
  }

  /** Selecting from a list extended by one player extends the selection
      by that player exactly when it holds m. */
  lemma {:induction false} SelectSnoc(ps: seq<Player>, x: Player, m: int)
    ensures Select(ps + [x], m) == Select(ps, m) + (if x.money == m then [x] else [])
    decreases |ps|
  {
    if ps == [] {
      assert [x][1..] == [];
    } else {
      assert (ps + [x])[1..] == ps[1..] + [x];
      SelectSnoc(ps[1..], x, m);
    }
  }

  /** announceWinner's selection: nobody when no player is left,
      otherwise the players holding the largest balance, in list order. */
  function Winners(ps: seq<Player>): seq<Player>
    reads ps
  {
    if ps == [] then [] else Select(ps, MaxMoney(ps))
  }

  /** The winners are empty exactly when the list is; they are exactly
      the players with the largest balance, every other player has
      strictly less, and they keep the list order. */
  lemma WinnersSpec(ps: seq<Player>)
    ensures Winners(ps) == [] <==> ps == []
    ensures forall q :: q in Winners(ps) ==> q in ps && forall r :: r in ps ==> r.money <= q.money
    ensures forall q :: q in ps && (forall r :: r in ps ==> r.money <= q.money) ==> q in Winners(ps)
    ensures forall q, v :: q in ps && q !in Winners(ps) && v in Winners(ps) ==> q.money < v.money
    ensures IsSubseq(Winners(ps), ps)
  {
    if ps == [] {
      SubseqRefl(ps);
    } else {
      var m := MaxMoney(ps);
      SelectSpec(ps, m);
      var q :| q in ps && q.money == m;
      assert q in Winners(ps);
    }
  }
}

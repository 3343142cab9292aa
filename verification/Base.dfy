/** Vocabulary shared by every part of the model. */
module Base {

  datatype Option<+T> = None | Some(value: T)

  type Byte = b: int | 0 <= b < 256

  /** `n` rounded up to a multiple of the 8-byte word. */
  function RoundUp8(n: nat): (r: nat)
    ensures n <= r < n + 8 && r % 8 == 0
  {
    (n + 7) / 8 * 8
  }

  /** `n` rounded up to a multiple of 4, the alignment of netlink messages and attributes. */
  function RoundUp4(n: nat): (r: nat)
    ensures n <= r < n + 4 && r % 4 == 0
  {
    (n + 3) / 4 * 4
  }

  /** The least element of a non-empty finite set, the head of an ordered container. */
  function Least(s: set<int>): (m: int)
    requires s != {}
    ensures m in s && forall x :: x in s ==> m <= x
  {
    LeastExists(s);
    var m :| m in s && forall x :: x in s ==> m <= x;
    m
  }

  lemma {:induction false} LeastExists(s: set<int>)
    requires s != {}
    ensures exists m :: m in s && forall x :: x in s ==> m <= x
  {
    if forall y :: y !in s {
      assert false;
    }
    var y :| y in s;
    var rest := s - {y};
    if rest == {} {
      assert s == {y};
    } else {
      LeastExists(rest);
      var m :| m in rest && forall x :: x in rest ==> m <= x;
      var k := if m <= y then m else y;
      forall x | x in s ensures k <= x {
        assert x == y || x in rest;
      }
    }
  }
}

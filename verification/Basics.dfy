/** Value types shared by the PArSEC modules: tickets, keys, values and options. */
module Basics {

  datatype Option<+T> = None | Some(value: T)

  newtype byte = x: int | 0 <= x < 256

  /** `cbdc::buffer`: the type of both keys and values. */
  datatype Buffer = Buffer(bytes: seq<byte>)

  type Key = Buffer
  type Value = Buffer

  /** The value of a key that was never written. */
  const EMPTY: Value := Buffer([])

  /** Ticket numbers are unique and increasing; an older ticket has a smaller number. */
  type Ticket = nat

  /** The smallest element of a nonempty set of tickets. */
  predicate IsLeast(s: set<Ticket>, t: Ticket) {
    t in s && forall u :: u in s ==> t <= u
  }

  lemma {:induction false} LeastExists(s: set<Ticket>)
    requires s != {}
    ensures exists t :: IsLeast(s, t)
  {
    var x :| x in s;
    if s == {x} {
      assert IsLeast(s, x);
    } else {
      var rest := s - {x};
      LeastExists(rest);
      var y :| IsLeast(rest, y);
      assert forall u :: u in s ==> u == x || u in rest;
      assert IsLeast(s, if x < y then x else y);
    }
  }

  lemma {:induction false} NotLarger<T>(a: set<T>, b: set<T>)
    requires a <= b
    ensures |a| <= |b|
  {
    if a != {} {
      var x :| x in a;
      NotLarger(a - {x}, b - {x});
    }
  }
}

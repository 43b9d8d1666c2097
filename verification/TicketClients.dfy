/** The ticket machine and its clients as objects whose queues and counter are updated in place. */
module TicketClients {
  import opened Basics
  import opened TicketMachine

  class Machine {
    var next: Ticket
    const range: nat

    constructor (range: nat)
      ensures next == 0 && this.range == range
    {
      next, this.range := 0, range;
    }

    /** Allocates the next range: from the old counter up to, not including, the new one. */
    method GetTicketNumber() returns (first: Ticket, last: Ticket)
      modifies this
      ensures first == old(next) && last == next == old(next) + range
    {
      first := next;
      next := next + range;
      last := first + range;
    }
  }

  class TicketClient {
    var tickets: seq<Ticket>
    var callbacks: seq<nat>
    var fetching: bool

    ghost function Abs(): Client
      reads this
    {
      Client(tickets, callbacks, fetching)
    }

    constructor ()
      ensures Abs() == NEW_CLIENT
    {
      tickets, callbacks, fetching := [], [], false;
    }

    /** `reached` tells whether a request for a range can be sent. */
    method GetTicketNumber(callback: nat, reached: bool) returns (accepted: bool, answers: seq<Answer>, asks: bool)
      modifies this
      ensures Step(Abs(), accepted, answers, asks) == Get(old(Abs()), callback, reached)
    {
      answers, asks := [], false;
      if |tickets| < FETCH_THRESHOLD && !fetching {
        asks := reached;
        if asks {
          fetching := true;
        }
        if tickets == [] && !asks {
          return false, [], false;
        }
      }
      if tickets == [] {
        callbacks := callbacks + [callback];
        return true, [], asks;
      }
      var number := tickets[0];
      tickets := tickets[1..];
      return true, [Number(callback, number)], asks;
    }

    /** A range has arrived. */
    method HandleTicketNumbers(first: Ticket, last: Ticket, reached: bool) returns (answers: seq<Answer>, asks: bool)
      requires first <= last
      modifies this
      ensures Step(Abs(), true, answers, asks) == Receive(old(Abs()), first, last, reached)
    {
      var i := first;
      while i < last
        invariant first <= i <= last
        invariant tickets == old(tickets) + Range(first, i)
        invariant callbacks == old(callbacks) && fetching == old(fetching)
      {
        assert Range(first, i + 1) == Range(first, i) + [i];
        tickets := tickets + [i];
        i := i + 1;
      }
      ghost var all := tickets;
      answers := [];
      while tickets != [] && callbacks != []
        invariant |answers| <= |all| && |answers| <= |old(callbacks)|
        invariant tickets == all[|answers|..] && callbacks == old(callbacks)[|answers|..]
        invariant answers == Pair(old(callbacks), all, |answers|) && fetching == old(fetching)
        decreases |tickets|
      {
        answers := answers + [Number(callbacks[0], tickets[0])];
        callbacks := callbacks[1..];
        tickets := tickets[1..];
      }
      asks := false;
      if callbacks == [] {
        fetching := false;
      } else {
        asks := reached;
        fetching := asks;
      }
    }

    /** The request for a range failed. */
    method HandleError() returns (answers: seq<Answer>)
      modifies this
      ensures Step(Abs(), true, answers, false) == Fail(old(Abs()))
    {
      fetching := false;
      answers := [];
      while callbacks != []
        invariant |answers| <= |old(callbacks)| && callbacks == old(callbacks)[|answers|..]
        invariant forall i :: 0 <= i < |answers| ==> answers[i] == Refusal(old(callbacks)[i])
        invariant tickets == old(tickets) && !fetching
        decreases |callbacks|
      {
        answers := answers + [Refusal(callbacks[0])];
        callbacks := callbacks[1..];
      }
    }
  }
}

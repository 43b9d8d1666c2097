/** Ticket numbers: the machine that allocates ranges (src/parsec/ticket_machine/impl.cpp) and
    the clients that cache them (src/parsec/ticket_machine/client.cpp). */
module TicketMachine {
  import opened Basics

  /** A client's cached numbers and waiting callbacks, both first in, first out. */
  datatype Client = Client(tickets: seq<Ticket>, callbacks: seq<nat>, fetching: bool)

  datatype Answer = Number(callback: nat, number: Ticket) | Refusal(callback: nat)

  /** A client's step: its new state, its answers, and whether it has sent a request for a range. */
  datatype Step = Step(client: Client, accepted: bool, answers: seq<Answer>, asks: bool)

  const FETCH_THRESHOLD: nat := 500
  const NEW_CLIENT := Client([], [], false)

  function Range(first: Ticket, last: Ticket): (r: seq<Ticket>)
    requires first <= last
    ensures |r| == last - first
  {
    seq(last - first, i requires 0 <= i < last - first => first + i)
  }

  /** `get_ticket_number`: `reached` tells whether a request for a range can be sent. */
  function Get(c: Client, callback: nat, reached: bool): Step {
    var asks := |c.tickets| < FETCH_THRESHOLD && !c.fetching && reached;
    var c := if asks then c.(fetching := true) else c;
    if c.tickets == [] then
      if !c.fetching then Step(c, false, [], asks)
      else Step(c.(callbacks := c.callbacks + [callback]), true, [], asks)
    else Step(c.(tickets := c.tickets[1..]), true, [Number(callback, c.tickets[0])], asks)
  }

  function Min(a: nat, b: nat): nat { if a < b then a else b }

  /** The first `n` callbacks answered with the first `n` numbers. */
  function Pair(callbacks: seq<nat>, tickets: seq<Ticket>, n: nat): (a: seq<Answer>)
    requires n <= |callbacks| && n <= |tickets|
    ensures |a| == n
  {
    seq(n, i requires 0 <= i < n => Number(callbacks[i], tickets[i]))
  }

  /** `handle_ticket_numbers`: waiting callbacks are served first; if some still wait, another
      range is asked for. */
  function Receive(c: Client, first: Ticket, last: Ticket, reached: bool): Step
    requires first <= last
  {
    var tickets := c.tickets + Range(first, last);
    var n := Min(|tickets|, |c.callbacks|);
    var callbacks := c.callbacks[n..];
    var asks := callbacks != [] && reached;
    Step(Client(tickets[n..], callbacks, asks), true, Pair(c.callbacks, tickets, n), asks)
  }

  function Refuse(callbacks: seq<nat>): (a: seq<Answer>)
    ensures |a| == |callbacks|
  {
    seq(|callbacks|, i requires 0 <= i < |callbacks| => Refusal(callbacks[i]))
  }

  /** The machine answered with an error: so are all waiting callbacks. */
  function Fail(c: Client): Step {
    Step(c.(callbacks := [], fetching := false), true, Refuse(c.callbacks), false)
  }

  // ---- Many clients and one machine ----

  /** What is under way between a client and the machine. */
  datatype Call = Idle | Asked | Answered(first: Ticket, last: Ticket)

  /** One client with what it was asked and has answered so far. */
  datatype Account = Account(client: Client, call: Call, accepted: seq<nat>, answers: seq<Answer>)

  datatype System = System(next: Ticket, range: nat, accounts: seq<Account>)

  datatype Event =
    | Ask(account: nat, callback: nat, reached: bool)
    | Allocate(account: nat)
    | Deliver(account: nat, reached: bool)
    | Error(account: nat)

  predicate Possible(sys: System, e: Event) {
    && e.account < |sys.accounts|
    && match e
       case Ask(_, _, _) => true
       case Allocate(i) => sys.accounts[i].call.Asked?
       case Deliver(i, _) => sys.accounts[i].call.Answered? && sys.accounts[i].call.first <= sys.accounts[i].call.last
       case Error(i) => !sys.accounts[i].call.Idle?
  }

  /** An account after a step of its client. */
  function Book(x: Account, step: Step, accepted: seq<nat>, call: Call): Account {
    Account(step.client, if step.asks then Asked else call, x.accepted + accepted, x.answers + step.answers)
  }

  function After(sys: System, e: Event): System
    requires Possible(sys, e)
  {
    var x := sys.accounts[e.account];
    match e
    case Ask(i, callback, reached) =>
      var step := Get(x.client, callback, reached);
      sys.(accounts := sys.accounts[i := Book(x, step, if step.accepted then [callback] else [], x.call)])
    case Allocate(i) =>
      sys.(next := sys.next + sys.range,
        accounts := sys.accounts[i := x.(call := Answered(sys.next, sys.next + sys.range))])
    case Deliver(i, reached) =>
      sys.(accounts := sys.accounts[i := Book(x, Receive(x.client, x.call.first, x.call.last, reached), [], Idle)])
    case Error(i) => sys.(accounts := sys.accounts[i := Book(x, Fail(x.client), [], Idle)])
  }

  // ---- What holds in every reachable state ----

  function Numbers(answers: seq<Answer>): seq<Ticket> {
    if answers == [] then []
    else
      var last := answers[|answers| - 1];
      Numbers(answers[..|answers| - 1]) + if last.Number? then [last.number] else []
  }

  function Callbacks(answers: seq<Answer>): seq<nat> {
    seq(|answers|, i requires 0 <= i < |answers| => answers[i].callback)
  }

  function UnderWay(call: Call): seq<Ticket> {
    if call.Answered? && call.first <= call.last then Range(call.first, call.last) else []
  }

  /** The numbers of a client in the order in which it hands them out: those it has handed out,
      those it has cached and those on their way to it. */
  function Line(x: Account): seq<Ticket> { Numbers(x.answers) + x.client.tickets + UnderWay(x.call) }

  predicate Increasing(s: seq<Ticket>) { forall i, j :: 0 <= i < j < |s| ==> s[i] < s[j] }

  predicate Below(s: seq<Ticket>, n: nat) { forall i :: 0 <= i < |s| ==> s[i] < n }

  ghost predicate AccountOk(x: Account, next: Ticket) {
    && Increasing(Line(x)) && Below(Line(x), next)
    && (x.client.fetching <==> !x.call.Idle?)
    && (x.client.tickets == [] || x.client.callbacks == [])
    && Callbacks(x.answers) + x.client.callbacks == x.accepted
  }

  ghost predicate SystemOk(sys: System) {
    && (forall i :: 0 <= i < |sys.accounts| ==> AccountOk(sys.accounts[i], sys.next))
    && (forall i, j :: 0 <= i < j < |sys.accounts| ==> Apart(Line(sys.accounts[i]), Line(sys.accounts[j])))
  }

  predicate Apart(s: seq<Ticket>, t: seq<Ticket>) { forall x :: x in s ==> x !in t }

  // ---- Proofs ----

  lemma {:induction false} NumbersAppend(a: seq<Answer>, b: seq<Answer>)
    ensures Numbers(a + b) == Numbers(a) + Numbers(b)
    decreases |b|
  {
    if b == [] {
      assert a + b == a;
    } else {
      var front := b[..|b| - 1];
      assert (a + b)[..|a + b| - 1] == a + front;
      NumbersAppend(a, front);
    }
  }

  lemma {:induction false} NumbersOfPair(callbacks: seq<nat>, tickets: seq<Ticket>, n: nat)
    requires n <= |callbacks| && n <= |tickets|
    ensures Numbers(Pair(callbacks, tickets, n)) == tickets[..n]
  {
    if n > 0 {
      assert Pair(callbacks, tickets, n)[..n - 1] == Pair(callbacks, tickets, n - 1);
      NumbersOfPair(callbacks, tickets, n - 1);
      assert tickets[..n] == tickets[..n - 1] + [tickets[n - 1]];
    }
  }

  lemma {:induction false} NumbersOfRefusals(callbacks: seq<nat>)
    ensures Numbers(Refuse(callbacks)) == []
  {
    if callbacks != [] {
      assert Refuse(callbacks)[..|callbacks| - 1] == Refuse(callbacks[..|callbacks| - 1]);
      NumbersOfRefusals(callbacks[..|callbacks| - 1]);
    }
  }

  lemma CallbacksAppend(a: seq<Answer>, b: seq<Answer>)
    ensures Callbacks(a + b) == Callbacks(a) + Callbacks(b)
  {
  }

  /** `s` lies within `t`, in the same order. */
  ghost predicate Within(s: seq<Ticket>, t: seq<Ticket>) { s == t || exists n :: 0 <= n <= |t| && s == t[..n] }

  /** Handing out the first `n` cached numbers does not change the line. */
  lemma LineMoves(handed: seq<Ticket>, tickets: seq<Ticket>, under: seq<Ticket>, n: nat)
    requires n <= |tickets|
    ensures handed + tickets[..n] + tickets[n..] + under == handed + tickets + under
  {
    assert tickets == tickets[..n] + tickets[n..];
  }

  lemma GetKeeps(x: Account, callback: nat, reached: bool, next: Ticket)
    requires AccountOk(x, next)
    ensures var step := Get(x.client, callback, reached);
            var y := Book(x, step, if step.accepted then [callback] else [], x.call);
            AccountOk(y, next) && Line(y) == Line(x)
  {
    var step := Get(x.client, callback, reached);
    var y := Book(x, step, if step.accepted then [callback] else [], x.call);
    assert UnderWay(y.call) == UnderWay(x.call);
    NumbersAppend(x.answers, step.answers);
    CallbacksAppend(x.answers, step.answers);
    hide Increasing, Below, Callbacks;
    if x.client.tickets != [] {
      OneAnswer(callback, x.client.tickets[0]);
      assert x.client.tickets[..1] == [x.client.tickets[0]];
      LineMoves(Numbers(x.answers), x.client.tickets, UnderWay(x.call), 1);
      hide Numbers, UnderWay;
    } else {
      assert x.answers + [] == x.answers;
      hide Numbers, UnderWay;
      assert x.accepted + [] == x.accepted;
      assert Callbacks(x.answers) + (x.client.callbacks + [callback]) == x.accepted + [callback];
    }
  }

  lemma OneAnswer(callback: nat, number: Ticket)
    ensures Numbers([Number(callback, number)]) == [number] && Callbacks([Number(callback, number)]) == [callback]
  {
    assert [Number(callback, number)][..0] == [];
  }

  lemma DeliverKeeps(x: Account, reached: bool, next: Ticket)
    requires AccountOk(x, next) && x.call.Answered? && x.call.first <= x.call.last
    ensures var y := Book(x, Receive(x.client, x.call.first, x.call.last, reached), [], Idle);
            AccountOk(y, next) && Line(y) == Line(x)
  {
    hide Numbers, Increasing, Below, Callbacks, Pair, Range, Line;
    var step := Receive(x.client, x.call.first, x.call.last, reached);
    var y := Book(x, step, [], Idle);
    var tickets := x.client.tickets + Range(x.call.first, x.call.last);
    var n := Min(|tickets|, |x.client.callbacks|);
    NumbersAppend(x.answers, step.answers);
    NumbersOfPair(x.client.callbacks, tickets, n);
    DeliverLine(x, y, tickets, n);
    CallbacksAppend(x.answers, step.answers);
    CallbacksOfPair(x.client.callbacks, tickets, n);
    DeliverIds(Callbacks(x.answers), x.client.callbacks, x.accepted, n);
  }

  lemma DeliverIds(answered: seq<nat>, callbacks: seq<nat>, accepted: seq<nat>, n: nat)
    requires answered + callbacks == accepted && n <= |callbacks|
    ensures answered + callbacks[..n] + callbacks[n..] == accepted + []
  {
    assert callbacks == callbacks[..n] + callbacks[n..];
  }

  lemma CallbacksOfPair(callbacks: seq<nat>, tickets: seq<Ticket>, n: nat)
    requires n <= |callbacks| && n <= |tickets|
    ensures Callbacks(Pair(callbacks, tickets, n)) == callbacks[..n]
  {
  }

  lemma DeliverLine(x: Account, y: Account, tickets: seq<Ticket>, n: nat)
    requires x.call.Answered? && x.call.first <= x.call.last && n <= |tickets| && UnderWay(y.call) == []
    requires tickets == x.client.tickets + Range(x.call.first, x.call.last)
    requires Numbers(y.answers) == Numbers(x.answers) + tickets[..n] && y.client.tickets == tickets[n..]
    ensures Line(y) == Line(x)
  {
    hide Numbers, Range;
    assert tickets == tickets[..n] + tickets[n..];
  }

  lemma ErrorKeeps(x: Account, next: Ticket)
    requires AccountOk(x, next)
    ensures var y := Book(x, Fail(x.client), [], Idle); AccountOk(y, next) && Within(Line(y), Line(x))
  {
    var step := Fail(x.client);
    var y := Book(x, step, [], Idle);
    NumbersAppend(x.answers, step.answers);
    CallbacksAppend(x.answers, step.answers);
    NumbersOfRefusals(x.client.callbacks);
    assert Callbacks(step.answers) == x.client.callbacks;
    assert x.accepted + [] == x.accepted;
    assert Line(y) == Numbers(x.answers) + x.client.tickets;
    assert Line(y) == Line(x)[..|Line(y)|];
  }

  lemma AllocateKeeps(x: Account, next: Ticket, range: nat)
    requires AccountOk(x, next) && x.call.Asked?
    ensures var y := x.(call := Answered(next, next + range));
            AccountOk(y, next + range) && Line(y) == Line(x) + Range(next, next + range)
  {
    var y := x.(call := Answered(next, next + range));
    var l := Line(x);
    assert Line(y) == l + Range(next, next + range);
    forall i, j | 0 <= i < j < |Line(y)| ensures Line(y)[i] < Line(y)[j] {
      if i < |l| { assert Line(y)[i] == l[i]; }
    }
  }

  lemma OneChanged(sys: System, i: nat, y: Account)
    requires SystemOk(sys) && i < |sys.accounts| && AccountOk(y, sys.next)
    requires forall x :: x in Line(y) ==> x in Line(sys.accounts[i])
    ensures SystemOk(sys.(accounts := sys.accounts[i := y]))
  {
    hide AccountOk, Line;
  }

  lemma EventKeepsOk(sys: System, e: Event)
    requires SystemOk(sys) && Possible(sys, e)
    ensures SystemOk(After(sys, e))
  {
    var x := sys.accounts[e.account];
    match e
    case Ask(i, callback, reached) =>
      GetKeeps(x, callback, reached, sys.next);
      hide AccountOk, Line, Get, Book;
      OneChanged(sys, i, After(sys, e).accounts[i]);
    case Deliver(i, reached) =>
      DeliverKeeps(x, reached, sys.next);
      hide AccountOk, Line, Receive, Book;
      OneChanged(sys, i, After(sys, e).accounts[i]);
    case Error(i) =>
      ErrorKeeps(x, sys.next);
      hide AccountOk, Line, Fail, Book;
      OneChanged(sys, i, After(sys, e).accounts[i]);
    case Allocate(i) => AllocateApart(sys, i);
  }

  lemma AllocateApart(sys: System, i: nat)
    requires SystemOk(sys) && Possible(sys, Allocate(i))
    ensures SystemOk(After(sys, Allocate(i)))
  {
    var r := After(sys, Allocate(i));
    AllocateKeeps(sys.accounts[i], sys.next, sys.range);
    var added := Range(sys.next, r.next);
    forall j | 0 <= j < |r.accounts| ensures AccountOk(r.accounts[j], r.next)
      && Below(Line(sys.accounts[j]), sys.next) {
      assert AccountOk(sys.accounts[j], sys.next);
      if j != i { LaterIsBelow(sys.accounts[j], sys.next, r.next); }
    }
    hide AccountOk, Line, Range;
    forall j, k | 0 <= j < k < |r.accounts| ensures Apart(Line(r.accounts[j]), Line(r.accounts[k])) {
      assert Apart(Line(sys.accounts[j]), Line(sys.accounts[k]));
      FreshApart(Line(sys.accounts[j]), added, sys.next);
      FreshApart(Line(sys.accounts[k]), added, sys.next);
    }
  }

  lemma LaterIsBelow(x: Account, next: Ticket, later: Ticket)
    requires AccountOk(x, next) && next <= later
    ensures AccountOk(x, later)
  {
    hide Line, Increasing, Callbacks;
  }

  lemma FreshApart(s: seq<Ticket>, f: seq<Ticket>, next: Ticket)
    requires Below(s, next) && forall i :: 0 <= i < |f| ==> next <= f[i]
    ensures Apart(s, f) && Apart(f, s)
  {
  }

  // ---- Whole runs ----

  datatype Run = Run(states: seq<System>, events: seq<Event>)

  ghost predicate Follows(sys: System, e: Event, r: System) { Possible(sys, e) && r == After(sys, e) }

  ghost predicate Legal(run: Run) {
    && |run.states| == |run.events| + 1
    && (forall i :: 0 <= i < |run.states[0].accounts| ==>
          run.states[0].accounts[i] == Account(NEW_CLIENT, Idle, [], []))
    && forall n :: 0 <= n < |run.events| ==> Follows(run.states[n], run.events[n], run.states[n + 1])
  }

  lemma {:induction false} ReachableOk(run: Run, n: nat)
    requires Legal(run) && n < |run.states|
    ensures SystemOk(run.states[n])
  {
    hide Possible, After;
    if n > 0 {
      hide SystemOk;
      ReachableOk(run, n - 1);
      assert Follows(run.states[n - 1], run.events[n - 1], run.states[n]);
      EventKeepsOk(run.states[n - 1], run.events[n - 1]);
    }
  }

  /** The numbers a client has handed out come first in its line. */
  lemma HandedInLine(x: Account, k: nat)
    requires k < |Numbers(x.answers)|
    ensures k < |Line(x)| && Line(x)[k] == Numbers(x.answers)[k]
  {
  }

  /** Over every run, with any number of clients: no number is handed out twice, each client
      hands out strictly increasing numbers in the order of the requests, never has both cached
      numbers and waiting callbacks, and answers every accepted request at most once, in order. */
  lemma TicketsAreUnique(run: Run, n: nat, i: nat, j: nat, k: nat, l: nat)
    requires Legal(run) && n < |run.states| && i < |run.states[n].accounts| && j < |run.states[n].accounts|
    requires k < |Numbers(run.states[n].accounts[i].answers)| && l < |Numbers(run.states[n].accounts[j].answers)|
    ensures var x, y := run.states[n].accounts[i], run.states[n].accounts[j];
            && (Numbers(x.answers)[k] == Numbers(y.answers)[l] <==> i == j && k == l)
            && (i == j && k < l ==> Numbers(x.answers)[k] < Numbers(y.answers)[l])
            && (x.client.tickets == [] || x.client.callbacks == [])
            && Callbacks(x.answers) <= x.accepted
  {
    hide Legal;
    ReachableOk(run, n);
    var sys := run.states[n];
    var x, y := sys.accounts[i], sys.accounts[j];
    assert AccountOk(x, sys.next) && AccountOk(y, sys.next);
    HandedInLine(x, k);
    HandedInLine(y, l);
    assert Callbacks(x.answers) <= Callbacks(x.answers) + x.client.callbacks;
    hide Numbers, Callbacks;
    assert Line(x)[k] in Line(x) && Line(y)[l] in Line(y);
    if i < j {
      assert Apart(Line(x), Line(y));
    } else if j < i {
      assert Apart(Line(y), Line(x));
    } else {
      assert k < l ==> Line(x)[k] < Line(x)[l];
      assert l < k ==> Line(x)[l] < Line(x)[k];
    }
  }
}

/** Runs of agents, brokers and shards together. No request of an agent is ever one that `Systems`
    does not allow a client to make, so that what is proved of systems holds of agents without an
    assumption about clients; and what an agent reports as committed is in the serial order. Whether agents
    can wait for each other in a circle depends on their runners: `DeadlockFreedom` says how. */
module WorldRuns {
  import opened Basics
  import opened ShardSteps
  import opened ShardRuns
  import opened BrokerSpec
  import opened Links
  import opened BrokerLinks
  import opened ShardLinks
  import opened Systems
  import opened Serializability
  import opened SystemRuns
  import opened Progress
  import opened Worlds
  import A = AgentSpec

  /** `rolledBack` and `committed` are the tickets to whose agents a successful rollback or commit
      is being reported. */
  datatype World = World(sys: System, agents: map<nat, A.Agent>, rolledBack: set<Ticket>, committed: set<Ticket>)

  datatype Happening =
    /** Something that no agent asks for. */
    | Inside(e: Event)
    | Enters(id: nat, agent: A.Agent)
    /** A broker begins a ticket for an agent and tells it so. */
    | Begins(id: nat, ticket: Ticket, luck: A.Luck, evs: seq<Event>)
    /** An agent is told something, or told to execute; `evs` is what it then asks of its broker. */
    | Turns(id: nat, told: A.Event, luck: A.Luck, evs: seq<Event>)

  predicate Undriven(w: World, t: Ticket) { forall id :: id in w.agents ==> w.agents[id].ticket != Some(t) }

  /** Messages arrive, brokers crash with their agents and are recovered, and the tickets that no
      agent steers are rolled back and finished. */
  predicate Outside(w: World, e: Event) {
    e.AtShard? || e.AtBroker? || e.Begin? || e.Crash? || e.TakeUp?
      || ((e.AskRollback? || e.AskFinish?) && Undriven(w, e.ticket))
  }

  /** What an agent may be told. A success is told once the broker has reported it. */
  predicate MayTell(w: World, a: A.Agent, e: A.Event) {
    && !e.GotTicket?
    && (e.RollbackOk? ==> a.ticket.Some? && a.ticket.value in w.rolledBack)
    && (e.CommitOk? ==> a.ticket.Some? && a.ticket.value in w.committed)
  }

  function Staying(w: World, e: Event): map<nat, A.Agent> {
    map id | id in w.agents && !(e.Crash? && w.agents[id].ticket == Some(e.ticket)) :: w.agents[id]
  }

  function Struck(tokens: set<Ticket>, e: Event): set<Ticket> { if e.Crash? then tokens - {e.ticket} else tokens }

  function Used(tokens: set<Ticket>, a: A.Agent, e: A.Event): set<Ticket> {
    if e.RollbackOk? && a.ticket.Some? then tokens - {a.ticket.value} else tokens
  }

  /** `x` leads from `w` to `r`, and the system along `h`. */
  ghost predicate Moves(dir: Key -> ShardId, w: World, x: Happening, h: History, r: World) {
    match x
    case Inside(e) =>
      && Outside(w, e) && Path(dir, w.sys, h, r.sys, [e])
      && r == World(r.sys, Staying(w, e), Struck(w.rolledBack, e) + Replies(h),
           Struck(w.committed, e) + CommitReplies(w.sys, e))
    case Enters(id, a) =>
      && id !in w.agents && a.state.Init? && a.ticket.None? && A.AgentInv(a)
      && Path(dir, w.sys, h, r.sys, []) && r == World(r.sys, w.agents[id := a], w.rolledBack, w.committed)
    case Begins(id, t, luck, evs) =>
      && id in w.agents && w.agents[id].state.BeginSent? && t !in w.sys.clients
      && var reaction := A.React(w.agents[id], A.GotTicket(t), luck);
         && reaction.Some? && Asks(reaction.value.acts, t, evs) && Path(dir, w.sys, h, r.sys, [Begin(t)] + evs)
         && r == World(r.sys, w.agents[id := reaction.value.agent], w.rolledBack + Replies(h), w.committed)
    case Turns(id, told, luck, evs) =>
      && id in w.agents && MayTell(w, w.agents[id], told)
      && var a, reaction := w.agents[id], A.React(w.agents[id], told, luck);
         && reaction.Some? && Requests(w.sys, a.ticket, reaction.value.acts, evs) && Path(dir, w.sys, h, r.sys, evs)
         && r == World(r.sys, w.agents[id := reaction.value.agent], Used(w.rolledBack, a, told) + Replies(h),
              w.committed)
  }

  // ---- The invariant ----

  ghost predicate AgentFits(w: World, a: A.Agent) {
    && A.AgentInv(a)
    && (a.ticket.Some? ==>
          var t := a.ticket.value;
          && !A.Starting(a.state) && t in w.sys.clients && t !in w.sys.lost
          && (a.committed ==> Irrevocable(w.sys, t))
          && Fits(RecordOf(w.sys, t), ClientAt(w.sys, t), a, t in w.rolledBack, t in w.committed))
  }

  ghost predicate WorldInv(dir: Key -> ShardId, init: map<Key, Value>, w: World) {
    && Sound(dir, init, w.sys)
    && (forall id :: id in w.agents ==> AgentFits(w, w.agents[id]))
    && (forall i, j :: i in w.agents && j in w.agents && i != j && w.agents[i].ticket.Some? ==>
          w.agents[i].ticket != w.agents[j].ticket)
    && (forall t :: t in w.rolledBack || t in w.committed ==> t in w.sys.clients)
    && (forall t :: t in w.committed ==> Irrevocable(w.sys, t))
  }

  /** Nothing about a ticket has changed that its agent relies on. */
  ghost predicate Kept(sys: System, r: System, t: Ticket) {
    && RecordOf(r, t) == RecordOf(sys, t) && ClientAt(r, t) == ClientAt(sys, t)
    && (t in r.clients <==> t in sys.clients) && (t in r.lost <==> t in sys.lost)
    && (Irrevocable(sys, t) ==> Irrevocable(r, t))
  }

  lemma StillFits(w: World, r: World, a: A.Agent)
    requires AgentFits(w, a)
    requires a.ticket.Some? ==> var t := a.ticket.value;
             Kept(w.sys, r.sys, t)
             && (t in r.rolledBack <==> t in w.rolledBack) && (t in r.committed <==> t in w.committed)
    ensures AgentFits(r, a)
  {
    hide Fits, Irrevocable, A.AgentInv;
  }

  lemma ServedFrame(dir: Key -> ShardId, sys: System, e: Event)
    requires Possible(sys, e) && e.AtShard?
    ensures var r := After(dir, sys, e); r.tickets == sys.tickets && r.clients == sys.clients && r.lost == sys.lost
  {
    hide Do, AnswersTo, ReportOf;
  }

  /** An event leaves the other tickets alone. */
  lemma OthersKept(dir: Key -> ShardId, init: map<Key, Value>, sys: System, e: Event, t: Ticket)
    requires Sound(dir, init, sys) && Possible(sys, e) && (e.ticket != t || e.AtShard?)
    ensures Kept(sys, After(dir, sys, e), t)
  {
    hide Irrevocable, Sound, Brokered, Sharded, WithoutTicket, Idled;
    if Irrevocable(sys, t) { IrrevocableStep(dir, init, sys, e, t); }
    if e.AtShard? {
      hide Possible, After;
      ServedFrame(dir, sys, e);
    } else if e.Begin? || e.Crash? || (e.AtBroker? && e.ticket !in sys.tickets) {
    } else {
      hide After, Possible;
      var u, step, c := AsBrokered(dir, sys, e);
      BrokeredFrame(u, e.ticket, step, c);
    }
  }

  // ---- What happens without the agents ----

  lemma CommitReplied(b: TicketState, s: ShardId, r: Response)
    requires r.CommitDone? && Handle(b, s, r).reply.Success?
    ensures Handle(b, s, r).state.Some? && Handle(b, s, r).state.value.phase.AllCommitted?
  {
  }

  lemma ResponseTaken(dir: Key -> ShardId, sys: System, t: Ticket, s: ShardId)
    requires Possible(sys, AtBroker(t, s))
    ensures var r := After(dir, sys, AtBroker(t, s));
            && (t in r.clients <==> t in sys.clients || t in sys.tickets) && r.lost == sys.lost
            && if t in sys.tickets then RecordOf(r, t) == Receive(sys.tickets[t], s, LinkOf(sys, t, s)).state
                 && ClientAt(r, t).update == ClientAt(sys, t).update
               else Kept(sys, r, t)
  {
    hide Handle, Brokered;
    if t in sys.tickets {
      var link := LinkOf(sys, t, s);
      var step := Receive(sys.tickets[t], s, link);
      BrokeredFrame(Unread(sys, t, s), t, step, ClientOfResponse(ClientAt(sys, t), link.resps[0], step.reply));
    }
  }

  lemma DecidedHasUpdate(dir: Key -> ShardId, init: map<Key, Value>, sys: System, t: Ticket)
    requires Sound(dir, init, sys) && InOrder(sys.order, t)
    ensures t in sys.clients && sys.clients[t].update.Some?
            && Txn(t, sys.clients[t].told, sys.clients[t].update.value) in sys.order
  {
    hide Wired, KeyOk, SerialReads;
    var i :| 0 <= i < |sys.order| && sys.order[i].ticket == t;
    assert sys.order[i] in sys.order;
  }

  /** A response keeps the agent of its ticket in step with the record. */
  lemma ReceivedFits(dir: Key -> ShardId, init: map<Key, Value>, w: World, t: Ticket, s: ShardId, r: World, a: A.Agent)
    requires Sound(dir, init, w.sys) && Possible(w.sys, AtBroker(t, s)) && r.sys == After(dir, w.sys, AtBroker(t, s))
             && Sound(dir, init, r.sys)
    requires AgentFits(w, a) && a.ticket == Some(t)
    requires r.rolledBack == w.rolledBack + RollbackReplies(w.sys, AtBroker(t, s))
    requires r.committed == w.committed + CommitReplies(w.sys, AtBroker(t, s))
    ensures AgentFits(r, a)
  {
    hide Fits, Irrevocable, A.AgentInv, Handle, Sound;
    ResponseTaken(dir, w.sys, t, s);
    if Irrevocable(w.sys, t) { IrrevocableStep(dir, init, w.sys, AtBroker(t, s), t); }
    hide After, Possible;
    if t in w.sys.tickets {
      var b, resp := w.sys.tickets[t], LinkOf(w.sys, t, s).resps[0];
      if Decided(Handle(b, s, resp).state) {
        DecidedIsListed(dir, init, r.sys, t);
        DecidedHasUpdate(dir, init, r.sys, t);
      }
      ResponseFits(b, ClientAt(w.sys, t), ClientAt(r.sys, t), a, s, resp, t in w.rolledBack, t in w.committed);
    }
  }

  lemma DecidedIsListed(dir: Key -> ShardId, init: map<Key, Value>, sys: System, t: Ticket)
    requires Sound(dir, init, sys) && Decided(RecordOf(sys, t))
    ensures InOrder(sys.order, t)
  {
    hide Wired, KeyOk, SerialReads, InOrder;
    assert t in sys.tickets;
  }

  lemma ReplyIsIrrevocable(dir: Key -> ShardId, init: map<Key, Value>, sys: System, e: Event, t: Ticket)
    requires Possible(sys, e) && t in CommitReplies(sys, e) && Sound(dir, init, After(dir, sys, e))
    ensures t == e.ticket && Irrevocable(After(dir, sys, e), t) && t in After(dir, sys, e).clients
  {
    hide Sound, Handle, Irrevocable;
    ResponseTaken(dir, sys, t, e.shard);
    CommitReplied(sys.tickets[t], e.shard, LinkOf(sys, t, e.shard).resps[0]);
    hide After, Possible;
    CommittedIsIrrevocable(dir, init, After(dir, sys, e), t);
    ListedHasClient(dir, init, After(dir, sys, e), t);
  }

  lemma ListedHasClient(dir: Key -> ShardId, init: map<Key, Value>, sys: System, t: Ticket)
    requires Sound(dir, init, sys) && t in sys.tickets
    ensures t in sys.clients && t !in sys.lost
  {
    assert CellOk(dir, sys, t, 0);
  }

  lemma ClientsStay(dir: Key -> ShardId, sys: System, e: Event, t: Ticket)
    requires Possible(sys, e) && t in sys.clients
    ensures t in After(dir, sys, e).clients
  {
    hide Brokered, Sharded, WithoutTicket, Idled;
    if e.AtShard? {
      hide Possible, After;
      ServedFrame(dir, sys, e);
    } else if e.Begin? || e.Crash? || (e.AtBroker? && e.ticket !in sys.tickets) {
    } else {
      hide After, Possible;
      var u, step, c := AsBrokered(dir, sys, e);
      BrokeredFrame(u, e.ticket, step, c);
    }
  }

  /** An agent that stays fits what an event leaves. */
  lemma InsideFits(dir: Key -> ShardId, init: map<Key, Value>, w: World, e: Event, h: History, r: World, id: nat)
    requires WorldInv(dir, init, w) && Possible(w.sys, e) && r.sys == After(dir, w.sys, e) && Sound(dir, init, r.sys)
    requires Moves(dir, w, Inside(e), h, r) && Replies(h) == RollbackReplies(w.sys, e) && id in r.agents
    ensures AgentFits(r, r.agents[id])
  {
    hide Sound, Path, Replies, Fits, Irrevocable, A.AgentInv, Handle;
    var a := w.agents[id];
    assert AgentFits(w, a) && r.agents[id] == a;
    if a.ticket.Some? {
      var t := a.ticket.value;
      if e.ticket == t && e.AtBroker? {
        ReceivedFits(dir, init, w, t, e.shard, r, a);
      } else {
        assert e.ticket != t || e.AtShard?;
        OthersKept(dir, init, w.sys, e, t);
        hide After, Possible;
        StillFits(w, r, a);
      }
    }
  }

  lemma OneStep(dir: Key -> ShardId, sys: System, h: History, r: System, e: Event)
    requires Path(dir, sys, h, r, [e])
    ensures Possible(sys, e) && r == After(dir, sys, e) && Replies(h) == RollbackReplies(sys, e)
  {
    hide Possible, After, RollbackReplies;
    assert Follows(dir, h.states[0], h.events[0], h.states[1]);
  }

  lemma TokensKnown(dir: Key -> ShardId, init: map<Key, Value>, w: World, e: Event, t: Ticket)
    requires Sound(dir, init, w.sys) && Possible(w.sys, e) && t in RollbackReplies(w.sys, e)
    ensures t in After(dir, w.sys, e).clients
  {
    hide Sound, Handle, BrokerSpec.Rollback, After, Possible;
    ListedHasClient(dir, init, w.sys, t);
    ClientsStay(dir, w.sys, e, t);
  }

  lemma InsideKeeps(dir: Key -> ShardId, init: map<Key, Value>, w: World, e: Event, h: History, r: World)
    requires WorldInv(dir, init, w) && Moves(dir, w, Inside(e), h, r)
    ensures WorldInv(dir, init, r)
  {
    hide Sound, Path, Replies, AgentFits, Irrevocable, RollbackReplies, CommitReplies;
    OneStep(dir, w.sys, h, r.sys, e);
    hide After, Possible;
    EventKeepsSound(dir, init, w.sys, e);
    forall id | id in r.agents ensures AgentFits(r, r.agents[id]) { InsideFits(dir, init, w, e, h, r, id); }
    forall t | t in r.rolledBack || t in r.committed ensures t in r.sys.clients {
      if t in w.rolledBack || t in w.committed { ClientsStay(dir, w.sys, e, t); }
      else if t in r.rolledBack { TokensKnown(dir, init, w, e, t); }
      else { ReplyIsIrrevocable(dir, init, w.sys, e, t); }
    }
    forall t | t in r.committed ensures Irrevocable(r.sys, t) {
      if t in w.committed { IrrevocableStep(dir, init, w.sys, e, t); }
        else { ReplyIsIrrevocable(dir, init, w.sys, e, t); }
    }
  }

  // ---- The turns of agents ----

  /** A path is determined by where it starts and its events. */
  lemma {:induction false} SameStates(dir: Key -> ShardId, g: History, h: History, n: nat)
    requires Steps(dir, g) && Steps(dir, h) && g.states[0] == h.states[0] && g.events == h.events && n < |g.states|
    ensures g.states[n] == h.states[n]
  {
    hide Possible, After;
    if n > 0 {
      SameStates(dir, g, h, n - 1);
      assert Follows(dir, g.states[n - 1], g.events[n - 1], g.states[n])
        && Follows(dir, h.states[n - 1], h.events[n - 1], h.states[n]);
    }
  }

  lemma SamePath(dir: Key -> ShardId, sys: System, g: History, m: System, h: History, r: System, evs: seq<Event>)
    requires Path(dir, sys, g, m, evs) && Path(dir, sys, h, r, evs)
    ensures g == h && m == r
  {
    hide Follows;
    forall n: nat | n < |g.states| ensures g.states[n] == h.states[n] { SameStates(dir, g, h, n); }
    assert g.states == h.states;
  }

  lemma {:induction false} StandsAlong(dir: Key -> ShardId, init: map<Key, Value>, h: History, t: Ticket, n: nat)
    requires Steps(dir, h) && Sound(dir, init, h.states[0]) && Irrevocable(h.states[0], t) && n < |h.states|
    ensures Sound(dir, init, h.states[n]) && Irrevocable(h.states[n], t)
  {
    hide Possible, After, Sound, Irrevocable;
    if n > 0 {
      StandsAlong(dir, init, h, t, n - 1);
      assert Follows(dir, h.states[n - 1], h.events[n - 1], h.states[n]);
      EventKeepsSound(dir, init, h.states[n - 1], h.events[n - 1]);
      IrrevocableStep(dir, init, h.states[n - 1], h.events[n - 1], t);
    }
  }

  lemma PathStands(dir: Key -> ShardId, init: map<Key, Value>, sys: System, h: History, r: System, evs: seq<Event>,
                   t: Ticket)
    requires Path(dir, sys, h, r, evs) && Sound(dir, init, sys) && Irrevocable(sys, t)
    ensures Irrevocable(r, t)
  {
    hide Sound, Irrevocable, Follows;
    StandsAlong(dir, init, h, t, |h.events|);
  }

  /** What a turn leads to, seen from the world. */
  ghost predicate TurnsTo(dir: Key -> ShardId, init: map<Key, Value>, w: World, id: nat, t: Ticket, h: History,
                          r: World, evs: seq<Event>, a: A.Agent) {
    && Path(dir, w.sys, h, r.sys, evs) && Sound(dir, init, r.sys) && SameOthers(w.sys, r.sys, t)
    && id in w.agents && w.agents[id].ticket in {None, Some(t)} && r.agents == w.agents[id := a] && a.ticket == Some(t)
    && (forall t' :: t' != t ==> (t' in r.rolledBack <==> t' in w.rolledBack))
    && r.committed == w.committed && t in r.sys.clients && AgentFits(r, a)
  }

  lemma TurnsToKeeps(dir: Key -> ShardId, init: map<Key, Value>, w: World, id: nat, t: Ticket, h: History, r: World,
                     evs: seq<Event>, a: A.Agent)
    requires WorldInv(dir, init, w) && TurnsTo(dir, init, w, id, t, h, r, evs, a)
    requires forall i :: i in w.agents && i != id ==> w.agents[i].ticket != Some(t)
    ensures WorldInv(dir, init, r)
  {
    hide Sound, Path, Irrevocable, A.AgentInv;
    forall t' | Irrevocable(w.sys, t') ensures Irrevocable(r.sys, t') {
      PathStands(dir, init, w.sys, h, r.sys, evs, t');
    }
    forall i | i in r.agents ensures AgentFits(r, r.agents[i]) {
      if i != id {
        assert AgentFits(w, w.agents[i]);
        hide AgentFits;
        StillFits(w, r, w.agents[i]);
      }
    }
    hide AgentFits;
  }

  /** How an agent reacts. */
  ghost predicate Reacts(a: A.Agent, e: A.Event, r: A.Reaction) {
    A.AgentInv(r.agent) && A.Steers(a, e, r) && A.Remembers(a, e, r)
  }

  lemma AgentReacts(a: A.Agent, e: A.Event, luck: A.Luck)
    requires A.AgentInv(a) && A.React(a, e, luck).Some?
    ensures Reacts(a, e, A.React(a, e, luck).value)
  {
    hide A.React, A.AgentInv, A.Steers, A.Remembers;
    A.FailsExactlyWhen(a, e, luck);
    A.AgentSteers(a, e, luck);
    A.AgentRemembers(a, e, luck);
  }

  lemma SteeredTurn(dir: Key -> ShardId, init: map<Key, Value>, w: World, id: nat, t: Ticket, told: A.Event,
                    x: A.Reaction, evs: seq<Event>)
    returns (h: History, r: World)
    requires WorldInv(dir, init, w) && id in w.agents && w.agents[id].ticket == Some(t)
             && MayTell(w, w.agents[id], told)
    requires Reacts(w.agents[id], told, x) && Requests(w.sys, Some(t), x.acts, evs)
    ensures r == World(r.sys, w.agents[id := x.agent], Used(w.rolledBack, w.agents[id], told) + Replies(h), w.committed)
    ensures Path(dir, w.sys, h, r.sys, evs) && WorldInv(dir, init, r) && Early(h)
  {
    hide Sound, Path, Irrevocable, A.AgentInv, A.Remembers, A.Steers, Fits, Requests, Replies, Early;
    var a := w.agents[id];
    assert AgentFits(w, a);
    var m: System;
    h, m := TurnPath(dir, init, w.sys, t, a, told, x, t in w.rolledBack, t in w.committed, evs);
    r := World(m, w.agents[id := x.agent], Used(w.rolledBack, a, told) + Replies(h), w.committed);
    if x.agent.committed {
      assert Irrevocable(w.sys, t) by { CommitStands(w, a, told, x, t); }
      PathStands(dir, init, w.sys, h, m, evs, t);
    }
    assert x.agent.ticket == Some(t) && !A.Starting(x.agent.state) by { StaysBegun(a, told, x); }
    assert t !in m.lost && TurnsTo(dir, init, w, id, t, h, r, evs, x.agent);
    hide TurnsTo;
    TurnsToKeeps(dir, init, w, id, t, h, r, evs, x.agent);
  }

  lemma StaysBegun(a: A.Agent, e: A.Event, x: A.Reaction)
    requires A.Steers(a, e, x) && !e.GotTicket? && !A.Starting(a.state)
    ensures x.agent.ticket == a.ticket && !A.Starting(x.agent.state)
  {
  }

  lemma CommitStands(w: World, a: A.Agent, e: A.Event, x: A.Reaction, t: Ticket)
    requires A.Remembers(a, e, x) && x.agent.committed && MayTell(w, a, e) && AgentFits(w, a) && a.ticket == Some(t)
    requires forall t' :: t' in w.committed ==> Irrevocable(w.sys, t')
    ensures Irrevocable(w.sys, t)
  {
  }

  /** Whatever an agent is told and however its calls go, what it asks of its broker in that turn
      is allowed. */
  lemma TurnGoes(dir: Key -> ShardId, init: map<Key, Value>, w: World, id: nat, told: A.Event, luck: A.Luck,
                 evs: seq<Event>)
    returns (h: History, r: World)
    requires WorldInv(dir, init, w) && id in w.agents && MayTell(w, w.agents[id], told)
    requires var x := A.React(w.agents[id], told, luck);
             x.Some?
             && Requests(w.sys, w.agents[id].ticket, x.value.acts, evs)
    ensures Moves(dir, w, Turns(id, told, luck, evs), h, r) && WorldInv(dir, init, r) && Early(h)
  {
    hide Early, Sound, Path, Irrevocable, A.React, A.AgentInv, Reacts, Fits, Requests, Replies, MayTell, AgentFits;
    var a := w.agents[id];
    assert A.AgentInv(a) by { assert AgentFits(w, a); AgentIsFit(w, a); }
    var x := A.React(a, told, luck).value;
    AgentReacts(a, told, luck);
    if a.ticket.Some? {
      hide WorldInv;
      h, r := SteeredTurn(dir, init, w, id, a.ticket.value, told, x, evs);
    } else {
      h := EmptyPath(dir, w.sys);
      r := World(w.sys, w.agents[id := x.agent], Used(w.rolledBack, a, told) + Replies(h), w.committed);
      assert evs == [] && !told.GotTicket? by { NothingRequested(w, a, told, x.acts, evs); }
      UnsteeredTurn(dir, init, w, id, told, x);
      assert r == w.(agents := w.agents[id := x.agent]);
    }
  }

  lemma AgentIsFit(w: World, a: A.Agent)
    requires AgentFits(w, a)
    ensures A.AgentInv(a)
  {
    hide A.AgentInv;
  }

  lemma NothingRequested(w: World, a: A.Agent, told: A.Event, acts: seq<A.Act>, evs: seq<Event>)
    requires a.ticket.None? && Requests(w.sys, a.ticket, acts, evs) && MayTell(w, a, told)
    ensures evs == [] && !told.GotTicket?
  {
  }

  lemma UnsteeredTurn(dir: Key -> ShardId, init: map<Key, Value>, w: World, id: nat, told: A.Event, x: A.Reaction)
    requires WorldInv(dir, init, w) && id in w.agents && w.agents[id].ticket.None? && Reacts(w.agents[id], told, x)
             && !told.GotTicket?
    ensures WorldInv(dir, init, w.(agents := w.agents[id := x.agent]))
  {
    hide Sound, Irrevocable, A.AgentInv, A.Remembers, Fits;
    var r := w.(agents := w.agents[id := x.agent]);
    assert x.agent.ticket.None?;
    hide A.Steers;
    forall i | i in r.agents ensures AgentFits(r, r.agents[i]) {
      if i != id { assert AgentFits(w, w.agents[i]); }
    }
    hide AgentFits;
  }

  lemma NewFits(a: A.Agent)
    requires A.AgentInv(a) && a.state.BeginSent?
    ensures Fits(Some(NEW_STATE), NEW_CLIENT, a, false, false)
  {
  }

  lemma BegunSystem(dir: Key -> ShardId, sys: System, t: Ticket)
    requires t !in sys.clients
    ensures var r := After(dir, sys, Begin(t));
            RecordOf(r, t) == Some(NEW_STATE) && ClientAt(r, t) == NEW_CLIENT && t in r.tickets && t in r.clients
              && SameOthers(sys, r, t)
    ensures RollbackReplies(sys, Begin(t)) == {}
  {
  }

  lemma FreshTicket(dir: Key -> ShardId, init: map<Key, Value>, w: World, t: Ticket)
    requires WorldInv(dir, init, w) && t !in w.sys.clients
    ensures t !in w.sys.lost && t !in w.rolledBack && t !in w.committed && forall id :: id in w.agents ==>
            w.agents[id].ticket != Some(t)
  {
    assert CellOk(dir, w.sys, t, 0);
    hide Sound, Fits, Irrevocable, A.AgentInv;
    forall id | id in w.agents ensures w.agents[id].ticket != Some(t) { assert AgentFits(w, w.agents[id]); }
  }

  /** A broker may begin any fresh ticket for an agent that waits for one, and what the agent then
      asks is allowed. */
  lemma BeginGoes(dir: Key -> ShardId, init: map<Key, Value>, w: World, id: nat, t: Ticket, luck: A.Luck,
                  evs: seq<Event>)
    returns (h: History, r: World)
    requires WorldInv(dir, init, w) && id in w.agents && w.agents[id].state.BeginSent? && t !in w.sys.clients
    requires var x := A.React(w.agents[id], A.GotTicket(t), luck); x.Some? && Asks(x.value.acts, t, evs)
    ensures Moves(dir, w, Begins(id, t, luck, evs), h, r) && WorldInv(dir, init, r) && Early(h)
  {
    hide Early, Sound, Path, Irrevocable, A.React, A.AgentInv, A.Steers, A.Remembers, Fits, Asks, Replies, AgentFits;
    var a := w.agents[id];
    assert A.AgentInv(a) && a.ticket.None? by { assert AgentFits(w, a); AgentIsFit(w, a); StartingIsFree(w, a); }
    var x := A.React(a, A.GotTicket(t), luck).value;
    AgentReacts(a, A.GotTicket(t), luck);
    A.AgentBegins(a, t, luck);
    FreshTicket(dir, init, w, t);
    BegunSystem(dir, w.sys, t);
    var m := After(dir, w.sys, Begin(t));
    assert Possible(w.sys, Begin(t));
    hide After, Possible;
    EventKeepsSound(dir, init, w.sys, Begin(t));
    NewFits(a);
    var g := OnePath(dir, w.sys, Begin(t));
    var k: System;
    h, k := TurnPath(dir, init, m, t, a, A.GotTicket(t), x, false, false, evs);
    SameOthersJoin(w.sys, m, k, t);
    hide SameOthers;
    h := JoinPaths(dir, w.sys, g, m, [Begin(t)], h, k, evs);
    r := World(k, w.agents[id := x.agent], w.rolledBack + Replies(h), w.committed);
    assert AgentFits(r, x.agent) by { BegunFits(w, r, a, t, x); }
    assert TurnsTo(dir, init, w, id, t, h, r, [Begin(t)] + evs, x.agent);
    hide TurnsTo;
    TurnsToKeeps(dir, init, w, id, t, h, r, [Begin(t)] + evs, x.agent);
  }

  lemma StartingIsFree(w: World, a: A.Agent)
    requires AgentFits(w, a) && a.state.BeginSent?
    ensures a.ticket.None?
  {
  }

  lemma BegunFits(w: World, r: World, a: A.Agent, t: Ticket, x: A.Reaction)
    requires Reacts(a, A.GotTicket(t), x) && a.state.BeginSent? && A.AgentInv(a) && x.agent.ticket == Some(t)
             && !A.Starting(x.agent.state)
    requires t in r.sys.clients && t !in r.sys.lost && Fits(RecordOf(r.sys, t), ClientAt(r.sys, t), x.agent,
             t in r.rolledBack, t in r.committed)
    ensures AgentFits(r, x.agent)
  {
    hide Fits, A.Steers;
  }

  lemma EntersKeeps(dir: Key -> ShardId, init: map<Key, Value>, w: World, id: nat, a: A.Agent, h: History, r: World)
    requires WorldInv(dir, init, w) && Moves(dir, w, Enters(id, a), h, r)
    ensures WorldInv(dir, init, r)
  {
    hide Sound, Fits, Irrevocable, A.AgentInv;
    assert r.sys == w.sys;
    forall i | i in r.agents ensures AgentFits(r, r.agents[i]) {
      if i != id { assert AgentFits(w, w.agents[i]); }
    }
    hide AgentFits, Path;
  }

  lemma MoveKeeps(dir: Key -> ShardId, init: map<Key, Value>, w: World, x: Happening, h: History, r: World)
    requires WorldInv(dir, init, w) && Moves(dir, w, x, h, r)
    ensures WorldInv(dir, init, r) && Early(h)
  {
    assert x.Inside? || x.Enters? ==> Early(h);
    hide Early, WorldInv, Path, A.React, Asks, Requests, MayTell, Replies, CommitReplies;
    match x
    case Inside(e) => InsideKeeps(dir, init, w, e, h, r);
    case Enters(id, a) => EntersKeeps(dir, init, w, id, a, h, r);
    case Begins(id, t, luck, evs) =>
      var h', r' := BeginGoes(dir, init, w, id, t, luck, evs);
      SamePath(dir, w.sys, h, r.sys, h', r'.sys, [Begin(t)] + evs);
    case Turns(id, told, luck, evs) =>
      var h', r' := TurnGoes(dir, init, w, id, told, luck, evs);
      SamePath(dir, w.sys, h, r.sys, h', r'.sys, evs);
  }

  // ---- Whole runs ----

  /** A run of agents, brokers and shards: any happenings, in any order. */
  datatype WorldRun = WorldRun(worlds: seq<World>, happenings: seq<Happening>, paths: seq<History>)

  ghost predicate Unfolds(dir: Key -> ShardId, init: map<Key, Value>, run: WorldRun) {
    && |run.worlds| == |run.happenings| + 1 && |run.paths| == |run.happenings|
    && Initial(dir, init, run.worlds[0].sys) && run.worlds[0] == World(run.worlds[0].sys, map[], {}, {})
    && forall n :: 0 <= n < |run.happenings| ==>
         Moves(dir, run.worlds[n], run.happenings[n], run.paths[n], run.worlds[n + 1])
  }

  lemma InitialWorld(dir: Key -> ShardId, init: map<Key, Value>, w: World)
    requires Initial(dir, init, w.sys) && w == World(w.sys, map[], {}, {})
    ensures WorldInv(dir, init, w)
  {
    hide SystemInv;
    InitialInv(dir, init, w.sys);
  }

  lemma {:induction false} ReachableWorld(dir: Key -> ShardId, init: map<Key, Value>, run: WorldRun, n: nat)
    requires Unfolds(dir, init, run) && n < |run.worlds|
    ensures WorldInv(dir, init, run.worlds[n])
  {
    hide Moves, WorldInv, Initial;
    if n == 0 {
      InitialWorld(dir, init, run.worlds[0]);
    } else {
      ReachableWorld(dir, init, run, n - 1);
      MoveKeeps(dir, init, run.worlds[n - 1], run.happenings[n - 1], run.paths[n - 1], run.worlds[n]);
    }
  }

  /** In no reachable state does an agent ask its broker for what `Systems` does not allow a client
      to ask: its turn can always be taken, for every reply, every failure of a call and every
      order of its requests. */
  lemma AgentsAreNeverHeld(dir: Key -> ShardId, init: map<Key, Value>, run: WorldRun, n: nat, id: nat, told: A.Event,
                           luck: A.Luck, evs: seq<Event>)
    requires Unfolds(dir, init, run) && n < |run.worlds| && id in run.worlds[n].agents
             && MayTell(run.worlds[n], run.worlds[n].agents[id], told)
    requires var w := run.worlds[n];
             var x := A.React(w.agents[id], told, luck);
             x.Some? && Requests(w.sys, w.agents[id].ticket, x.value.acts, evs)
    ensures exists h, r :: Moves(dir, run.worlds[n], Turns(id, told, luck, evs), h, r)
  {
    hide Unfolds, WorldInv, MayTell, A.React, Requests, Moves;
    ReachableWorld(dir, init, run, n);
    var h, r := TurnGoes(dir, init, run.worlds[n], id, told, luck, evs);
  }

  lemma MoveIsPath(dir: Key -> ShardId, w: World, x: Happening, h: History, r: World)
    requires Moves(dir, w, x, h, r)
    ensures Path(dir, w.sys, h, r.sys, h.events)
  {
    hide Follows, Last, A.React, Asks, Requests, MayTell, Replies, CommitReplies;
  }

  /** What the system goes through while agents act is a run of the system. */
  lemma {:induction false} WorldIsHistory(dir: Key -> ShardId, init: map<Key, Value>, run: WorldRun, n: nat)
    returns (h: History)
    requires Unfolds(dir, init, run) && n < |run.worlds|
    ensures Lawful(dir, init, h) && Last(h) == run.worlds[n].sys
  {
    hide Moves, Initial, Follows;
    if n == 0 {
      h := History([run.worlds[0].sys], []);
    } else {
      h := WorldIsHistory(dir, init, run, n - 1);
      MoveIsPath(dir, run.worlds[n - 1], run.happenings[n - 1], run.paths[n - 1], run.worlds[n]);
      JoinSteps(dir, h, run.paths[n - 1]);
      h := Join(h, run.paths[n - 1]);
    }
  }

  /** Serializability of agents, without an assumption about them. */
  lemma AgentsAreSerializable(dir: Key -> ShardId, init: map<Key, Value>, run: WorldRun, n: nat, k: Key)
    requires Unfolds(dir, init, run) && n < |run.worlds|
    ensures var sys := run.worlds[n].sys;
            SerialReads(init, sys.order) && dir(k) < |sys.shards|
            && ValueOk(dir, init, sys, k)
  {
    hide Unfolds, Follows, Initial, SerialReads, ValueOk;
    var h := WorldIsHistory(dir, init, run, n);
    Serializable(dir, init, h, |h.states| - 1, k);
  }

  /** The ticket is decided for good, with these writes. */
  ghost predicate Lasting(sys: System, t: Ticket, writes: map<Key, Value>) {
    Irrevocable(sys, t) && ClientAt(sys, t).update == Some(writes)
  }

  lemma {:induction false} LastingAlong(dir: Key -> ShardId, init: map<Key, Value>, h: History, t: Ticket,
                                        writes: map<Key, Value>, n: nat)
    requires Steps(dir, h) && Sound(dir, init, h.states[0]) && Lasting(h.states[0], t, writes) && n < |h.states|
    ensures Sound(dir, init, h.states[n]) && Lasting(h.states[n], t, writes)
  {
    hide Possible, After, Sound, InOrder;
    if n > 0 {
      LastingAlong(dir, init, h, t, writes, n - 1);
      var sys, e := h.states[n - 1], h.events[n - 1];
      assert Follows(dir, sys, e, h.states[n]);
      EventKeepsSound(dir, init, sys, e);
      IrrevocableStep(dir, init, sys, e, t);
      ClientStays(dir, init, sys, e, t);
    }
  }

  lemma {:induction false} LastingRun(dir: Key -> ShardId, init: map<Key, Value>, run: WorldRun, n: nat, m: nat,
                                      t: Ticket, writes: map<Key, Value>)
    requires Unfolds(dir, init, run) && n <= m < |run.worlds| && Lasting(run.worlds[n].sys, t, writes)
    ensures Lasting(run.worlds[m].sys, t, writes)
    decreases m
  {
    hide Moves, Initial, Sound, Lasting, Follows;
    if n < m {
      LastingRun(dir, init, run, n, m - 1, t, writes);
      ReachableWorld(dir, init, run, m - 1);
      var h := run.paths[m - 1];
      MoveIsPath(dir, run.worlds[m - 1], run.happenings[m - 1], h, run.worlds[m]);
      LastingAlong(dir, init, h, t, writes, |h.events|);
    }
  }

  lemma SuccessIsLasting(dir: Key -> ShardId, init: map<Key, Value>, w: World, id: nat)
    requires WorldInv(dir, init, w) && id in w.agents && A.Succeeded(w.agents[id])
    ensures w.agents[id].ticket.Some? && Lasting(w.sys, w.agents[id].ticket.value, A.Payload(w.agents[id]))
  {
    hide Sound, Irrevocable, A.Payload;
    assert AgentFits(w, w.agents[id]);
  }

  lemma ReportSucceeds(a: A.Agent, e: A.Event, luck: A.Luck, u: map<Key, Value>)
    requires A.AgentInv(a) && A.React(a, e, luck).Some? && A.Report(A.Updates(u)) in A.React(a, e, luck).value.acts
    ensures var r := A.React(a, e, luck).value.agent; A.Succeeded(r) && r.result == Some(A.Updates(u))
  {
    hide A.React, A.AgentInv;
    A.FailsExactlyWhen(a, e, luck);
  }

  /** What an agent reports to its caller as committed is a transaction of the serial order with
      exactly those writes, and stays one whatever happens afterwards. */
  lemma ReportedIsCommitted(dir: Key -> ShardId, init: map<Key, Value>, run: WorldRun, n: nat, m: nat,
                            u: map<Key, Value>)
    requires Unfolds(dir, init, run) && n < m < |run.worlds| && run.happenings[n].Turns?
    requires var x, w := run.happenings[n], run.worlds[n];
             x.id in w.agents && var r := A.React(w.agents[x.id], x.told, x.luck);
               r.Some?
               && A.Report(A.Updates(u)) in r.value.acts
    ensures run.happenings[n].id in run.worlds[n + 1].agents
    ensures var a := run.worlds[n + 1].agents[run.happenings[n].id];
            && a.ticket.Some?
            && exists i :: 0 <= i < |run.worlds[m].sys.order|
                           && run.worlds[m].sys.order[i].ticket == a.ticket.value
                           && run.worlds[m].sys.order[i].writes == (if a.readonly then map[] else u)
  {
    hide Initial, A.React, A.AgentInv, Asks, Path, Replies, AgentFits, Sound;
    var x, w := run.happenings[n], run.worlds[n];
    ReachableWorld(dir, init, run, n);
    ReachableWorld(dir, init, run, n + 1);
    assert AgentFits(w, w.agents[x.id]);
    AgentIsFit(w, w.agents[x.id]);
    ReportSucceeds(w.agents[x.id], x.told, x.luck, u);
    assert Moves(dir, w, x, run.paths[n], run.worlds[n + 1]);
    var a := run.worlds[n + 1].agents[x.id];
    hide Moves;
    SuccessIsLasting(dir, init, run.worlds[n + 1], x.id);
    LastingRun(dir, init, run, n + 1, m, a.ticket.value, A.Payload(a));
    ReachableWorld(dir, init, run, m);
    hide Unfolds;
    DecidedHasUpdate(dir, init, run.worlds[m].sys, a.ticket.value);
  }
}

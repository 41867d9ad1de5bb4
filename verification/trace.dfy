/** The registry driven by a sequence of calls, with every event it
    publishes appended to one trace, and an observer that follows the
    players' sides from the trace alone, as a scene listening on the bus
    does. */
module Trace {
  import opened Players
  import opened Registry

  /** One call into the registry that can change it. */
  datatype Call =
    | CallInit(width: real, height: real)
    | CallUpdatePosition(id: PlayerId, x: real, y: real)
    | CallTransfer(id: PlayerId, gameWidth: real, gameHeight: real)

  /** The effect of one call: the new registry and the events it published.
      Only a transfer publishes. */
  function Apply(r: State, c: Call): (st: Step)
    ensures !c.CallTransfer? ==> st.events == []
    ensures c.CallInit? && r.initialized ==> st.reg == r
    ensures c.CallTransfer? && c.id in r.players ==> |st.events| == 2
    ensures Valid(r) ==> Valid(st.reg)
  {
    match c
    case CallInit(w, h) => Step(Init(r, w, h), [])
    case CallUpdatePosition(id, x, y) => Step(UpdatePosition(r, id, x, y), [])
    case CallTransfer(id, w, h) => Transfer(r, id, w, h)
  }

  /** Runs the calls in order; the trace is the concatenation of what each
      call published, in call order. */
  function Run(r: State, calls: seq<Call>): (st: Step)
    ensures Valid(r) ==> Valid(st.reg)
    ensures r.initialized ==> st.reg.initialized
    ensures |st.events| <= 2 * |calls|
    decreases |calls|
  {
    if calls == [] then Step(r, [])
    else
      var first := Apply(r, calls[0]);
      var rest := Run(first.reg, calls[1..]);
      Step(rest.reg, first.events + rest.events)
  }

  /** A trace made of depart/arrive pairs: each depart is immediately
      followed by the arrive of the same player on the other side. */
  predicate Paired(events: seq<Event>)
    decreases |events|
  {
    || events == []
    || (&& |events| >= 2
        && events[0].Depart?
        && events[1].Arrive?
        && events[1].player.id == events[0].id
        && events[1].player.side == Other(events[0].side)
        && Paired(events[2..]))
  }

  lemma {:induction false} PairedAppend(a: seq<Event>, b: seq<Event>)
    requires Paired(a) && Paired(b)
    ensures Paired(a + b)
    decreases |a|
  {
    if a != [] {
      PairedAppend(a[2..], b);
      assert (a + b)[0] == a[0] && (a + b)[1] == a[1];
      assert (a + b)[2..] == a[2..] + b;
    } else {
      assert a + b == b;
    }
  }

  /** Every run of a valid registry publishes whole depart/arrive pairs,
      never a lone depart or arrive and never two departs in a row. */
  lemma {:induction false} RunPaired(r: State, calls: seq<Call>)
    requires Valid(r)
    ensures Paired(Run(r, calls).events)
    decreases |calls|
  {
    if calls != [] {
      var first := Apply(r, calls[0]);
      RunPaired(first.reg, calls[1..]);
      if calls[0].CallTransfer? && calls[0].id in r.players {
        assert Paired(first.events[2..]);
      }
      PairedAppend(first.events, Run(first.reg, calls[1..]).events);
    }
  }

  /** Until the first `init`, no call publishes anything and the registry
      stays empty. */
  lemma {:induction false} RunBeforeInitSilent(r: State, calls: seq<Call>)
    requires Valid(r) && !r.initialized
    requires forall i :: 0 <= i < |calls| ==> !calls[i].CallInit?
    ensures Run(r, calls) == Step(r, [])
    decreases |calls|
  {
    if calls != [] {
      RunBeforeInitSilent(r, calls[1..]);
    }
  }

  /** Where an observer believes one player is: on a side, or nowhere
      (not yet seeded, or in transit between a depart and its arrive). */
  datatype Seen = Nowhere | On(side: Side)

  /** An observer's belief about both players. */
  datatype View = View(player1: Seen, player2: Seen) {
    function Of(id: PlayerId): Seen
    {
      if id == Player1 then player1 else player2
    }

    function With(id: PlayerId, s: Seen): (v: View)
      ensures v.Of(id) == s && v.Of(Partner(id)) == Of(Partner(id))
    {
      if id == Player1 then View(s, player2) else View(player1, s)
    }
  }

  /** Where the registry has each player. The ensures only restates the
      body through `View.Of`; it is a bridging fact for the proofs below,
      not a specification of the observer. */
  function Observe(r: State): (v: View)
    ensures forall id :: v.Of(id) == (if id in r.players then On(r.players[id].side) else Nowhere)
  {
    View(
      if Player1 in r.players then On(r.players[Player1].side) else Nowhere,
      if Player2 in r.players then On(r.players[Player2].side) else Nowhere)
  }

  /** An observer's belief, updated from events only. A depart must name
      the side the observer believes the player is on, and leaves the player
      in transit; an arrive must be for a player in transit. Any other event
      means the observer has lost track, and the replay fails. */
  function Replay(view: View, events: seq<Event>): Option<View>
    decreases |events|
  {
    if events == [] then Some(view)
    else
      match events[0]
      case Depart(id, s) =>
        if view.Of(id) == On(s) then Replay(view.With(id, Nowhere), events[1..]) else None
      case Arrive(p) =>
        if view.Of(p.id) == Nowhere then Replay(view.With(p.id, On(p.side)), events[1..]) else None
  }

  lemma {:induction false} ReplayAppend(view: View, a: seq<Event>, b: seq<Event>)
    ensures Replay(view, a + b) ==
            (match Replay(view, a)
             case None => None
             case Some(v) => Replay(v, b))
    decreases |a|
  {
    if a != [] {
      assert a + b != [] && (a + b)[0] == a[0];
      assert (a + b)[1..] == a[1..] + b;
      match a[0]
      case Depart(id, s) =>
        if view.Of(id) == On(s) {
          ReplayAppend(view.With(id, Nowhere), a[1..], b);
        }
      case Arrive(p) =>
        if view.Of(p.id) == Nowhere {
          ReplayAppend(view.With(p.id, On(p.side)), a[1..], b);
        }
    } else {
      assert a + b == b;
    }
  }

  /** One call keeps an observer of an initialized registry in step with it. */
  lemma ApplyReplays(r: State, c: Call)
    requires Valid(r) && r.initialized
    ensures Replay(Observe(r), Apply(r, c).events) == Some(Observe(Apply(r, c).reg))
  {
    var st := Apply(r, c);
    if c.CallTransfer? {
      var id := c.id;
      var p := r.players[id];
      var q := st.reg.players[id];
      var v1 := Observe(r).With(id, Nowhere);
      var v2 := v1.With(id, On(q.side));
      assert st.events == [Depart(id, p.side), Arrive(q)];
      assert st.events[1..] == [Arrive(q)];
      assert st.events[1..][1..] == [];
      assert Replay(v1, st.events[1..]) == Replay(v2, []);
      assert v2 == Observe(st.reg);
    } else {
      assert Observe(st.reg) == Observe(r);
    }
  }

  /** `init` publishes nothing, so an observer seeded before the first
      `init` does not learn where the players were placed: observers must be
      seeded from an initialized registry. */
  lemma ObserverMissesInit(w: real, h: real)
    ensures Replay(Observe(Empty), Apply(Empty, CallInit(w, h)).events) != Some(Observe(Apply(Empty, CallInit(w, h)).reg))
  {
    var st := Apply(Empty, CallInit(w, h));
    assert st.events == [];
    assert Observe(Empty).Of(Player1) == Nowhere;
    assert Observe(st.reg).Of(Player1) == On(Left);
  }

  /** An observer that starts from the sides of an initialized registry and
      then sees only the published events always knows the side of every
      player: every depart names the side the player is leaving, every
      arrive finds the player in transit, and at the end the observer agrees
      with the registry. */
  lemma {:induction false} RunReplays(r: State, calls: seq<Call>)
    requires Valid(r) && r.initialized
    ensures Replay(Observe(r), Run(r, calls).events) == Some(Observe(Run(r, calls).reg))
    decreases |calls|
  {
    if calls != [] {
      var first := Apply(r, calls[0]);
      ApplyReplays(r, calls[0]);
      RunReplays(first.reg, calls[1..]);
      ReplayAppend(Observe(r), first.events, Run(first.reg, calls[1..]).events);
    }
  }
}

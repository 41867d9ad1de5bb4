/** The authoritative player registry (`PlayerManager`): an initialized flag
    and the players record, keyed by player id. The JavaScript record keeps
    its keys in insertion order, which `Object.values` follows; the model
    keeps that order explicitly in `order`. */
module Registry {
  import opened Players

  datatype State = State(
    initialized: bool,
    order: seq<PlayerId>,
    players: map<PlayerId, PlayerData>)

  /** Events published on the bus by a transfer. */
  datatype Event =
    | Depart(id: PlayerId, side: Side)
    | Arrive(player: PlayerData)

  /** The registry after an operation together with the events it published. */
  datatype Step = Step(reg: State, events: seq<Event>)

  /** A freshly constructed registry: not initialized, no players. */
  const Empty: State := State(false, [], map[])

  /** The representation invariant every reachable registry keeps: before
      initialization there are no players; afterwards both players exist,
      player1 first; every record carries its own key as id and the
      cosmetics of that id. */
  predicate Valid(r: State)
  {
    && (!r.initialized ==> r.order == [])
    && (r.initialized ==> r.order == [Player1, Player2])
    && (forall id :: id in r.players <==> r.initialized)
    && (forall id :: id in r.players ==>
          r.players[id].id == id && r.players[id].texture == TextureOf(id) && r.players[id].tint == TintOf(id))
  }

  lemma EmptyValid()
    ensures Valid(Empty)
  {
  }

  /** No key occurs twice in a key order. */
  predicate Distinct(order: seq<PlayerId>)
  {
    forall i, j :: 0 <= i < j < |order| ==> order[i] != order[j]
  }

  /** Assigning a key of a JavaScript record appends it to the key order
      unless it is already present. */
  function WithKey(order: seq<PlayerId>, id: PlayerId): (o: seq<PlayerId>)
    ensures |order| <= |o| <= |order| + 1
    ensures o[..|order|] == order
    ensures forall k :: k in o <==> k in order || k == id
    ensures Distinct(order) ==> Distinct(o)
  {
    if id in order then order else order + [id]
  }

  /** `init(width, height)`: seeds both players on the left side on the
      first call only; every later call leaves the registry as it is. */
  function Init(r: State, width: real, height: real): (r': State)
    ensures r.initialized ==> r' == r
    ensures r'.initialized
    ensures !r.initialized ==>
              && Player1 in r'.players && r'.players[Player1] == InitialRecord(Player1, width, height)
              && Player2 in r'.players && r'.players[Player2] == InitialRecord(Player2, width, height)
    ensures Valid(r) ==> Valid(r')
  {
    if r.initialized then r
    else
      var seeded := r.players[Player1 := InitialRecord(Player1, width, height)]
                             [Player2 := InitialRecord(Player2, width, height)];
      assert forall id :: id in seeded by {
        forall id ensures id in seeded { TwoIds(id); }
      }
      State(true, WithKey(WithKey(r.order, Player1), Player2), seeded)
  }

  /** Calling `init` a second time, with any size, changes nothing. */
  lemma InitIdempotent(r: State, w1: real, h1: real, w2: real, h2: real)
    ensures Init(Init(r, w1, h1), w2, h2) == Init(r, w1, h1)
  {
  }

  /** `getPlayer(id)`: the record of `id`, or none before initialization. */
  function GetPlayer(r: State, id: PlayerId): (o: Option<PlayerData>)
    ensures o.Some? <==> id in r.players
    ensures o.Some? ==> o.value == r.players[id]
    ensures Valid(r) ==> (o.Some? <==> r.initialized)
    ensures Valid(r) && o.Some? ==>
              o.value.id == id && o.value.texture == TextureOf(id) && o.value.tint == TintOf(id)
  {
    if id in r.players then Some(r.players[id]) else None
  }

  /** The records, in key order, of the players on side `s`. Keys without a
      record are skipped (they do not occur in a valid registry). */
  function FilterSide(order: seq<PlayerId>, players: map<PlayerId, PlayerData>, s: Side): (ps: seq<PlayerData>)
    ensures |ps| <= |order|
    ensures forall j :: 0 <= j < |ps| ==> ps[j].side == s
    ensures forall j :: 0 <= j < |ps| ==> ps[j] in players.Values
    decreases |order|
  {
    if order == [] then []
    else
      var id := order[0];
      var rest := FilterSide(order[1..], players, s);
      if id in players && players[id].side == s then [players[id]] + rest else rest
  }

  /** `getPlayersForSide(side)`. */
  function PlayersForSide(r: State, s: Side): seq<PlayerData>
  {
    FilterSide(r.order, r.players, s)
  }

  /** A record is listed for side `s` exactly when some key in the order maps
      to it and it is on side `s`. */
  lemma {:induction false} FilterSideMembers(order: seq<PlayerId>, players: map<PlayerId, PlayerData>, s: Side, p: PlayerData)
    ensures p in FilterSide(order, players, s) <==>
            (p.side == s && exists id :: id in order && id in players && players[id] == p)
    decreases |order|
  {
    if order != [] {
      var id := order[0];
      FilterSideMembers(order[1..], players, s, p);
      if p.side == s && id in players && players[id] == p {
        assert p in FilterSide(order, players, s);
      }
      if p.side == s && (exists k :: k in order && k in players && players[k] == p) {
        var k :| k in order && k in players && players[k] == p;
        if k != id {
          assert k in order[1..];
        }
      }
      if p.side == s && (exists k :: k in order[1..] && k in players && players[k] == p) {
        var k :| k in order[1..] && k in players && players[k] == p;
        assert k in order;
      }
    }
  }

  /** Every key in the order is listed on exactly one of the two sides. */
  lemma {:induction false} FilterSidePartition(order: seq<PlayerId>, players: map<PlayerId, PlayerData>, s: Side)
    requires forall i :: 0 <= i < |order| ==> order[i] in players
    ensures |FilterSide(order, players, s)| + |FilterSide(order, players, Other(s))| == |order|
    decreases |order|
  {
    if order != [] {
      FilterSidePartition(order[1..], players, s);
    }
  }

  /** In a valid registry `getPlayersForSide(s)` lists exactly the players on
      side `s`, each once, player1 before player2. */
  lemma PlayersForSideExact(r: State, s: Side)
    requires Valid(r)
    ensures r.initialized ==>
              PlayersForSide(r, s) ==
                (if r.players[Player1].side == s then [r.players[Player1]] else []) +
                (if r.players[Player2].side == s then [r.players[Player2]] else [])
    ensures !r.initialized ==> PlayersForSide(r, s) == []
  {
    if r.initialized {
      var p1, p2 := r.players[Player1], r.players[Player2];
      assert r.order[1..] == [Player2];
      assert r.order[1..][1..] == [];
      assert FilterSide([], r.players, s) == [];
      assert FilterSide([Player2], r.players, s) == (if p2.side == s then [p2] else []);
    }
  }

  /** In a valid registry a record is listed for `s` iff it is the record of
      a player on `s`. */
  lemma PlayersForSideMembers(r: State, s: Side, p: PlayerData)
    requires Valid(r)
    ensures p in PlayersForSide(r, s) <==> p in r.players.Values && p.side == s
  {
    FilterSideMembers(r.order, r.players, s, p);
    if p in r.players.Values {
      var id :| id in r.players && r.players[id] == p;
      assert id in r.order;
    }
  }

  /** Both players are always listed on exactly one side between them. */
  lemma PlayersConserved(r: State, s: Side)
    requires Valid(r) && r.initialized
    ensures |PlayersForSide(r, s)| + |PlayersForSide(r, Other(s))| == 2
    ensures multiset(PlayersForSide(r, s) + PlayersForSide(r, Other(s))) ==
            multiset{r.players[Player1], r.players[Player2]}
  {
    FilterSidePartition(r.order, r.players, s);
    PlayersForSideExact(r, s);
    PlayersForSideExact(r, Other(s));
    var p1, p2 := r.players[Player1], r.players[Player2];
    var here := PlayersForSide(r, s) + PlayersForSide(r, Other(s));
    if p1.side == s && p2.side == s {
      assert here == [p1, p2];
    } else if p1.side == s {
      assert here == [p1] + [p2];
    } else if p2.side == s {
      assert here == [p2] + [p1];
    } else {
      assert here == [p1, p2];
    }
  }

  /** `updatePosition(id, x, y)`: overwrites x and y of `id` only; a no-op
      before initialization. */
  function UpdatePosition(r: State, id: PlayerId, x: real, y: real): (r': State)
    ensures r'.initialized == r.initialized && r'.order == r.order
    ensures r'.players.Keys == r.players.Keys
    ensures id !in r.players ==> r' == r
    ensures id in r.players ==>
              && r'.players[id].x == x && r'.players[id].y == y
              && r'.players[id].id == r.players[id].id
              && r'.players[id].texture == r.players[id].texture
              && r'.players[id].tint == r.players[id].tint
              && r'.players[id].side == r.players[id].side
    ensures forall o :: o in r.players && o != id ==> r'.players[o] == r.players[o]
    ensures Valid(r) ==> Valid(r')
  {
    if id !in r.players then r
    else r.(players := r.players[id := r.players[id].(x := x, y := y)])
  }

  /** `transferPlayer(id, gameWidth, gameHeight)`: publishes a depart event
      with the old side, moves the player to the other side at the spawn
      point, then publishes an arrive event with a snapshot of the new
      record. A no-op, publishing nothing, before initialization. */
  function Transfer(r: State, id: PlayerId, gameWidth: real, gameHeight: real): (st: Step)
    ensures st.reg.initialized == r.initialized && st.reg.order == r.order
    ensures st.reg.players.Keys == r.players.Keys
    ensures id !in r.players ==> st == Step(r, [])
    ensures id in r.players ==>
              var p := r.players[id];
              var q := st.reg.players[id];
              && q.side == Other(p.side)
              && q.x == SpawnX(q.side, gameWidth) && q.y == SpawnY(id, gameHeight)
              && q.id == p.id && q.texture == p.texture && q.tint == p.tint
              && st.events == [Depart(id, p.side), Arrive(q)]
    ensures forall o :: o in r.players && o != id ==> st.reg.players[o] == r.players[o]
    ensures Valid(r) ==> Valid(st.reg)
  {
    if id !in r.players then Step(r, [])
    else
      var p := r.players[id];
      var fromSide := p.side;
      var toSide := Other(fromSide);
      var spawnY := SpawnY(id, gameHeight);
      var spawnX := SpawnX(toSide, gameWidth);
      var departed := [Depart(id, fromSide)];
      var q := p.(side := toSide, x := spawnX, y := spawnY);
      Step(r.(players := r.players[id := q]), departed + [Arrive(q)])
  }

  /** Two transfers of the same player bring it back to its original side,
      with its cosmetics untouched; the second depart carries the side the
      first arrive announced. */
  lemma TransferTwiceRestoresSide(r: State, id: PlayerId, w1: real, h1: real, w2: real, h2: real)
    requires id in r.players
    ensures var st1 := Transfer(r, id, w1, h1);
            var st2 := Transfer(st1.reg, id, w2, h2);
            && st2.reg.players[id].side == r.players[id].side
            && st2.reg.players[id].texture == r.players[id].texture
            && st2.reg.players[id].tint == r.players[id].tint
            && st2.events[0] == Depart(id, st1.reg.players[id].side)
            && st1.events[1].player.side == st2.events[0].side
  {
    var st1 := Transfer(r, id, w1, h1);
    OtherInvolutive(r.players[id].side);
    assert id in st1.reg.players;
  }

  /** After a transfer the player's new record is listed on the destination
      side, and no record of that player is listed on the side it left. */
  lemma TransferMovesBetweenLists(r: State, id: PlayerId, w: real, h: real)
    requires Valid(r) && r.initialized
    ensures var r' := Transfer(r, id, w, h).reg;
            && r'.players[id] in PlayersForSide(r', Other(r.players[id].side))
            && forall p :: p in PlayersForSide(r', r.players[id].side) ==> p.id != id
  {
    var r' := Transfer(r, id, w, h).reg;
    var from := r.players[id].side;
    PlayersForSideMembers(r', Other(from), r'.players[id]);
    forall p | p in PlayersForSide(r', from)
      ensures p.id != id
    {
      PlayersForSideMembers(r', from, p);
    }
  }

  /** Before initialization every query is empty and every update is a
      no-op that publishes nothing. */
  lemma UninitializedNoOps(r: State, id: PlayerId, s: Side, x: real, y: real, w: real, h: real)
    requires Valid(r) && !r.initialized
    ensures GetPlayer(r, id) == None
    ensures PlayersForSide(r, s) == []
    ensures UpdatePosition(r, id, x, y) == r
    ensures Transfer(r, id, w, h) == Step(r, [])
  {
  }

  /** After the first `init` both players are on the left, listed player1
      first. */
  lemma InitLayout(r: State, w: real, h: real)
    requires Valid(r) && !r.initialized
    ensures PlayersForSide(Init(r, w, h), Left) == [InitialRecord(Player1, w, h), InitialRecord(Player2, w, h)]
    ensures PlayersForSide(Init(r, w, h), Right) == []
  {
    PlayersForSideExact(Init(r, w, h), Left);
    PlayersForSideExact(Init(r, w, h), Right);
  }
}

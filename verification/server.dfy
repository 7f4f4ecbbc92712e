/** The server as a sequence of critical sections. Each connection handler
    and the 100 ms timer contribute events, one per acquisition of the game
    lock, and the lock serialises them, so an execution is one interleaved
    trace of events, each applied atomically. A handler's change and the
    broadcast it then triggers are separate events, and events of other
    handlers or the timer may run between them. */
module Server {
  import opened Model
  import opened Platforms
  import opened Transitions
  import Coins

  /** A message read from a connection: either it decodes into a
      player-shaped record (absent fields read as zero) or it does not.
      Decoding happens outside the lock. */
  datatype Inbound = Malformed | Decoded(update: Player)

  /** One critical section of the server: everything between one
      acquisition of the game lock and its release. */
  datatype Event =
    | Join(id: string, colorIdx: nat, handle: Handle)  // a handler registers its player
    | Update(id: string, update: Player)               // a handler applies a decoded message
    | Leave(id: string)                                // a handler's deferred cleanup
    | Publish                                          // a broadcast, from a handler or the timer

  /** The colour draw of a join is in range, as the random source guarantees. */
  predicate ValidEvent(e: Event) {
    e.Join? ==> e.colorIdx < |Palette|
  }

  predicate ValidEvents(es: seq<Event>) {
    forall i :: 0 <= i < |es| ==> ValidEvent(es[i])
  }

  /** The number of broadcasts in a trace. */
  function Publishes(es: seq<Event>): nat {
    if |es| == 0 then 0 else (if es[0].Publish? then 1 else 0) + Publishes(es[1..])
  }

  /** The broadcasts of two traces run one after the other add up. */
  lemma {:induction false} PublishesAppend(a: seq<Event>, b: seq<Event>)
    ensures Publishes(a + b) == Publishes(a) + Publishes(b)
    decreases |a|
  {
    if |a| > 0 {
      assert (a + b)[1..] == a[1..] + b;
      PublishesAppend(a[1..], b);
    } else {
      assert a + b == b;
    }
  }

  /** The world after some events, and the broadcasts they sent, in order. */
  datatype Outcome = Outcome(world: World, sent: seq<Delivery>)

  /** One critical section. Only a broadcast sends anything; it sends the
      state as it is when it takes the lock, whatever ran since the change
      that triggered it. */
  function Step(w: World, e: Event): (o: Outcome)
    requires ValidEvent(e)
    ensures !e.Publish? ==> o.sent == [] && o.world.platforms == w.platforms
    ensures e.Publish? ==>
      && |o.sent| == 1
      && o.world.players == w.players && o.world.connections == w.connections
      && HealedFrom(w.platforms, o.world.platforms)
      && o.sent[0].recipients == w.connections
      && o.sent[0].frame.players == w.players
      && o.sent[0].frame.coins == w.coins
      && o.sent[0].frame.platforms == o.world.platforms
      && Healthy(o.sent[0].frame.platforms)
    ensures o.world.coins == w.coins
    ensures Healthy(w.platforms) ==> o.world.platforms == w.platforms
  {
    match e
    case Join(id, c, h) => Outcome(Connect(w, id, c, h), [])
    case Update(id, u) => Outcome(ApplyUpdate(w, id, u), [])
    case Leave(id) => Outcome(Disconnect(w, id), [])
    case Publish =>
      var d := Broadcast(w);
      Outcome(d.world, [d])
  }

  /** Every critical section keeps the world well formed. */
  lemma StepPreservesWellFormed(w: World, e: Event)
    requires ValidEvent(e) && WellFormed(w)
    ensures WellFormed(Step(w, e).world)
  {
    match e
    case Join(id, c, h) => ConnectPreservesWellFormed(w, id, c, h);
    case Update(id, u) => ApplyUpdatePreservesWellFormed(w, id, u);
    case Leave(id) => DisconnectPreservesWellFormed(w, id);
    case Publish => BroadcastPreservesWellFormed(w);
  }

  /** A whole trace, one critical section after another. */
  function Run(w: World, es: seq<Event>): (o: Outcome)
    requires ValidEvents(es)
    ensures |o.sent| == Publishes(es)
    ensures forall i :: 0 <= i < |o.sent| ==> Healthy(o.sent[i].frame.platforms)
    ensures o.world.coins == w.coins
    decreases |es|
  {
    if |es| == 0 then Outcome(w, [])
    else
      var first := Step(w, es[0]);
      var rest := Run(first.world, es[1..]);
      Outcome(rest.world, first.sent + rest.sent)
  }

  /** Every trace keeps the world well formed: between any two critical
      sections the registry and the player map have the same keys. */
  lemma {:induction false} RunPreservesWellFormed(w: World, es: seq<Event>)
    requires ValidEvents(es) && WellFormed(w)
    ensures WellFormed(Run(w, es).world)
    decreases |es|
  {
    if |es| > 0 {
      StepPreservesWellFormed(w, es[0]);
      RunPreservesWellFormed(Step(w, es[0]).world, es[1..]);
    }
  }

  /** Once no platform is all-zero, no trace changes the platforms: the
      heal never fires again. */
  lemma {:induction false} RunKeepsHealthyPlatforms(w: World, es: seq<Event>)
    requires ValidEvents(es) && Healthy(w.platforms)
    ensures Run(w, es).world.platforms == w.platforms
    decreases |es|
  {
    if |es| > 0 {
      RunKeepsHealthyPlatforms(Step(w, es[0]).world, es[1..]);
    }
  }

  /** Concatenating two traces of valid events gives a trace of valid events. */
  lemma ValidEventsAppend(a: seq<Event>, b: seq<Event>)
    requires ValidEvents(a) && ValidEvents(b)
    ensures ValidEvents(a + b)
  {
    forall i | 0 <= i < |a + b|
      ensures ValidEvent((a + b)[i])
    {
      if i < |a| { assert (a + b)[i] == a[i]; } else { assert (a + b)[i] == b[i - |a|]; }
    }
  }

  /** A non-empty trace is its first event followed by the rest. */
  lemma RunUnfold(w: World, es: seq<Event>)
    requires ValidEvents(es) && |es| > 0
    ensures Run(w, es).world == Run(Step(w, es[0]).world, es[1..]).world
    ensures Run(w, es).sent == Step(w, es[0]).sent + Run(Step(w, es[0]).world, es[1..]).sent
  {
  }

  /** A two-event trace is its two steps in order. */
  lemma RunPair(w: World, a: Event, b: Event)
    requires ValidEvent(a) && ValidEvent(b)
    ensures Run(w, [a, b]).world == Step(Step(w, a).world, b).world
    ensures Run(w, [a, b]).sent == Step(w, a).sent + Step(Step(w, a).world, b).sent
  {
    var es := [a, b];
    RunUnfold(w, es);
    RunUnfold(Step(w, a).world, es[1..]);
    assert es[1..][1..] == [];
  }

  /** Running two traces one after the other is running their
      concatenation. */
  lemma {:induction false} RunAppend(w: World, a: seq<Event>, b: seq<Event>)
    requires ValidEvents(a) && ValidEvents(b) && ValidEvents(a + b)
    ensures Run(w, a + b).world == Run(Run(w, a).world, b).world
    ensures Run(w, a + b).sent == Run(w, a).sent + Run(Run(w, a).world, b).sent
    decreases |a|
  {
    if |a| > 0 {
      var first := Step(w, a[0]);
      assert (a + b)[0] == a[0];
      assert (a + b)[1..] == a[1..] + b;
      RunAppend(first.world, a[1..], b);
      RunUnfold(w, a + b);
      RunUnfold(w, a);
    } else {
      assert a + b == b;
    }
  }

  /** The number of messages that decode. */
  function DecodedCount(msgs: seq<Inbound>): nat {
    if |msgs| == 0 then 0 else (if msgs[0].Decoded? then 1 else 0) + DecodedCount(msgs[1..])
  }

  /** The decoded updates among `msgs`, in arrival order. */
  function Payloads(msgs: seq<Inbound>): (ps: seq<Player>)
    ensures |ps| == DecodedCount(msgs)
  {
    if |msgs| == 0 then []
    else
      match msgs[0]
      case Malformed => Payloads(msgs[1..])
      case Decoded(u) => [u] + Payloads(msgs[1..])
  }

  /** The critical sections one connection's read loop runs for its
      messages: none for a message that does not decode, and for one that
      does, the update followed by the broadcast it triggers. */
  function MessageEvents(id: string, msgs: seq<Inbound>): (es: seq<Event>)
    ensures |es| == 2 * DecodedCount(msgs)
    ensures forall i :: 0 <= i < |es| ==>
      && (i % 2 == 0 ==> es[i] == Update(id, Payloads(msgs)[i / 2]))
      && (i % 2 == 1 ==> es[i] == Publish)
    ensures Publishes(es) == DecodedCount(msgs)
    ensures ValidEvents(es)
  {
    if |msgs| == 0 then []
    else
      match msgs[0]
      case Malformed => MessageEvents(id, msgs[1..])
      case Decoded(u) =>
        PublishesAppend([Update(id, u), Publish], MessageEvents(id, msgs[1..]));
        [Update(id, u), Publish] + MessageEvents(id, msgs[1..])
  }

  /** A connection's messages only ever update its own player or
      broadcast. */
  lemma MessageEventsOwnUpdates(id: string, msgs: seq<Inbound>)
    ensures forall i :: 0 <= i < |MessageEvents(id, msgs)| ==>
      MessageEvents(id, msgs)[i].Update? || MessageEvents(id, msgs)[i].Publish?
    ensures forall i :: 0 <= i < |MessageEvents(id, msgs)| && MessageEvents(id, msgs)[i].Update? ==>
      MessageEvents(id, msgs)[i].id == id
  {
  }

  /** One connection's critical sections when nothing else interleaves. A
      refused join returns before taking the lock and before deferring its
      cleanup, so it runs none. An accepted one registers and broadcasts,
      runs an update and a broadcast per decoded message, and when its read
      loop ends cleans up and broadcasts. */
  function SessionEvents(id: string, colorIdx: nat, h: Handle, msgs: seq<Inbound>): (es: seq<Event>)
    ensures id == "" ==> es == []
    ensures id != "" ==>
      && |es| == 4 + 2 * DecodedCount(msgs)
      && es[0] == Join(id, colorIdx, h) && es[1] == Publish
      && (forall i :: 2 <= i < |es| - 2 ==>
            && (i % 2 == 0 ==> es[i] == Update(id, Payloads(msgs)[(i - 2) / 2]))
            && (i % 2 == 1 ==> es[i] == Publish))
      && es[|es| - 2] == Leave(id) && es[|es| - 1] == Publish
      && Publishes(es) == 2 + DecodedCount(msgs)
    ensures colorIdx < |Palette| ==> ValidEvents(es)
  {
    if id == "" then []
    else
      var head := [Join(id, colorIdx, h), Publish];
      var mid := MessageEvents(id, msgs);
      var tail := [Leave(id), Publish];
      assert forall i :: 2 <= i < |head + mid| ==> (head + mid)[i] == mid[i - 2];
      assert forall i :: 0 <= i < |head + mid| ==> (head + mid + tail)[i] == (head + mid)[i];
      PublishesAppend(head, mid);
      PublishesAppend(head + mid, tail);
      head + mid + tail
  }

  /** While a connection's player is present, the critical sections for its
      messages change only its own player, never remove it, leave the
      registry alone, and broadcast once per decoded message. */
  lemma {:induction false} MessagesTouchOnlyOwnPlayer(w: World, id: string, msgs: seq<Inbound>)
    requires id in w.players && Healthy(w.platforms)
    ensures id in Run(w, MessageEvents(id, msgs)).world.players
    ensures OthersUnchanged(w, Run(w, MessageEvents(id, msgs)).world, id)
    ensures Run(w, MessageEvents(id, msgs)).world.connections == w.connections
    ensures |Run(w, MessageEvents(id, msgs)).sent| == DecodedCount(msgs)
    decreases |msgs|
  {
    if |msgs| > 0 {
      var es := MessageEvents(id, msgs);
      var rest := MessageEvents(id, msgs[1..]);
      match msgs[0]
      case Malformed =>
        MessagesTouchOnlyOwnPlayer(w, id, msgs[1..]);
      case Decoded(u) =>
        var w1 := Step(w, Update(id, u)).world;
        var w2 := Step(w1, Publish).world;
        assert es[1..][1..] == rest;
        RunUnfold(w, es);
        RunUnfold(w1, es[1..]);
        MessagesTouchOnlyOwnPlayer(w2, id, msgs[1..]);
    }
  }

  /** A session with nothing interleaved: a refused join runs no critical
      section; an accepted one leaves every other player, connection, coin
      and platform as it found them, removes its own identifier, and
      broadcasts once on joining, once per decoded message and once on
      leaving. */
  lemma SessionAlone(w: World, id: string, colorIdx: nat, h: Handle, msgs: seq<Inbound>)
    requires colorIdx < |Palette| && Healthy(w.platforms)
    ensures ValidEvents(SessionEvents(id, colorIdx, h, msgs))
    ensures id == "" ==> Run(w, SessionEvents(id, colorIdx, h, msgs)) == Outcome(w, [])
    ensures id != "" ==>
      && Run(w, SessionEvents(id, colorIdx, h, msgs)).world.players == w.players - {id}
      && Run(w, SessionEvents(id, colorIdx, h, msgs)).world.connections == w.connections - {id}
      && Run(w, SessionEvents(id, colorIdx, h, msgs)).world.coins == w.coins
      && Run(w, SessionEvents(id, colorIdx, h, msgs)).world.platforms == w.platforms
      && |Run(w, SessionEvents(id, colorIdx, h, msgs)).sent| == 2 + DecodedCount(msgs)
  {
    if id != "" {
      var head := [Join(id, colorIdx, h), Publish];
      var mid := MessageEvents(id, msgs);
      var tail := [Leave(id), Publish];
      ValidEventsAppend(head, mid);
      ValidEventsAppend(head + mid, tail);
      RunAppend(w, head, mid);
      RunAppend(w, head + mid, tail);
      JoinThenPublish(w, id, colorIdx, h);
      var w1 := Connect(w, id, colorIdx, h);
      MessagesTouchOnlyOwnPlayer(w1, id, msgs);
      var w2 := Run(w1, mid).world;
      RunKeepsHealthyPlatforms(w1, mid);
      LeaveThenPublish(w2, id);
    }
  }

  /** A join broadcast before any other critical section runs shows the new
      player at its spawn and reaches its connection; once the platforms are
      healthy the pair ends in the world the join alone produces. */
  lemma JoinThenPublish(w: World, id: string, colorIdx: nat, h: Handle)
    requires colorIdx < |Palette| && id != ""
    ensures ValidEvents([Join(id, colorIdx, h), Publish])
    ensures var o := Run(w, [Join(id, colorIdx, h), Publish]);
      && |o.sent| == 1
      && id in o.sent[0].recipients && o.sent[0].recipients[id] == h
      && id in o.sent[0].frame.players
      && o.sent[0].frame.players[id] == Spawn(id, Palette[colorIdx])
      && o.sent[0].recipients == w.connections[id := h]
      && o.sent[0].frame.players == w.players[id := Spawn(id, Palette[colorIdx])]
      && (Healthy(w.platforms) ==> o.world == Connect(w, id, colorIdx, h))
  {
    RunPair(w, Join(id, colorIdx, h), Publish);
  }

  /** An update broadcast before any other critical section runs shows the
      new position (the old one for the (0, 0) sentinel) and the velocity,
      jumping flag and score exactly as sent; once the platforms are healthy
      the pair ends in the world the update alone produces. */
  lemma UpdateThenPublish(w: World, id: string, u: Player)
    requires id in w.players
    ensures ValidEvents([Update(id, u), Publish])
    ensures var o := Run(w, [Update(id, u), Publish]);
      && |o.sent| == 1
      && id in o.sent[0].frame.players
      && var shown := o.sent[0].frame.players[id];
      && (IsSentinel(u) ==> shown.x == w.players[id].x && shown.y == w.players[id].y)
      && (!IsSentinel(u) ==> shown.x == u.x && shown.y == u.y)
      && shown.velocityY == u.velocityY && shown.isJumping == u.isJumping && shown.score == u.score
      && shown.id == w.players[id].id && shown.color == w.players[id].color
      && o.sent[0].recipients == w.connections
      && o.sent[0].frame.players - {id} == w.players - {id}
      && (Healthy(w.platforms) ==> o.world == ApplyUpdate(w, id, u))
  {
    RunPair(w, Update(id, u), Publish);
  }

  /** A departure broadcast before any other critical section runs neither
      reaches nor shows the departed identifier; once the platforms are
      healthy the pair ends in the world the departure alone produces. */
  lemma LeaveThenPublish(w: World, id: string)
    ensures var o := Run(w, [Leave(id), Publish]);
      && |o.sent| == 1
      && id !in o.sent[0].recipients && id !in o.sent[0].frame.players
      && o.sent[0].recipients == w.connections - {id}
      && o.sent[0].frame.players == w.players - {id}
      && (Healthy(w.platforms) ==> o.world == Disconnect(w, id))
  {
    RunPair(w, Leave(id), Publish);
  }

  /** The broadcast `d` reaches handle `h` under `id` and shows `p` there. */
  predicate ShowsAt(d: Delivery, id: string, h: Handle, p: Player) {
    && id in d.recipients && d.recipients[id] == h
    && id in d.frame.players && d.frame.players[id] == p
  }

  /** The change and the broadcast it triggers are separate critical
      sections. When a second join under the same identifier runs before the
      broadcast the first join triggered, that broadcast shows the second
      spawn and goes to the second connection, not the first. */
  lemma RacingJoinsShowLatestSpawn(w: World, id: string, c1: nat, h1: Handle, c2: nat, h2: Handle)
    requires c1 < |Palette| && c2 < |Palette| && id != ""
    ensures ValidEvents([Join(id, c1, h1), Join(id, c2, h2), Publish])
    ensures var o := Run(w, [Join(id, c1, h1), Join(id, c2, h2), Publish]);
      && |o.sent| == 1
      && ShowsAt(o.sent[0], id, h2, Spawn(id, Palette[c2]))
  {
    var es := [Join(id, c1, h1), Join(id, c2, h2), Publish];
    RunUnfold(w, es);
    assert es[1..] == [Join(id, c2, h2), Publish];
    JoinThenPublish(Connect(w, id, c1, h1), id, c2, h2);
  }

  /** A departure's broadcast can show the identifier again: if a new
      connection joins under it before that broadcast runs, the broadcast
      reaches the newcomer's connection and shows the newcomer's spawn. */
  lemma RejoinBeforeLeaveBroadcast(w: World, id: string, c: nat, h: Handle)
    requires c < |Palette| && id != ""
    ensures ValidEvents([Leave(id), Join(id, c, h), Publish])
    ensures var o := Run(w, [Leave(id), Join(id, c, h), Publish]);
      && |o.sent| == 1
      && ShowsAt(o.sent[0], id, h, Spawn(id, Palette[c]))
  {
    var es := [Leave(id), Join(id, c, h), Publish];
    RunUnfold(w, es);
    assert es[1..] == [Join(id, c, h), Publish];
    JoinThenPublish(Disconnect(w, id), id, c, h);
  }

  /** Two connections under the same identifier: the second join replaces
      the first one's registry entry, and when the first connection's read
      loop ends its cleanup removes the identifier outright, so the second,
      still open, connection loses its player, its next update changes
      nothing and no later broadcast reaches it. */
  lemma IdentifierReuseEvictsSecondSession(w: World, id: string, c1: nat, h1: Handle, c2: nat, h2: Handle, u: Player)
    requires c1 < |Palette| && c2 < |Palette| && id != ""
    ensures var w2 := Connect(Connect(w, id, c1, h1), id, c2, h2);
      && id in w2.connections && w2.connections[id] == h2
      && var w3 := Disconnect(w2, id);
      && ApplyUpdate(w3, id, u) == w3
      && id !in Broadcast(ApplyUpdate(w3, id, u)).recipients
      && id !in w3.players && id !in w3.connections
  {
  }

  /** The three fixed platforms: the ground, and two floating ledges. */
  const InitialPlatforms: seq<Platform> :=
    [Platform(0.0, 550.0, 800.0, 50.0), Platform(300.0, 400.0, 200.0, 20.0), Platform(100.0, 300.0, 150.0, 20.0)]

  /** The starting layout has no all-zero rectangle, so the heal never
      changes it, and its first rectangle is the ground the heal restores. */
  lemma InitialPlatformsNeverHealed()
    ensures Healthy(InitialPlatforms)
    ensures HealPlatforms(InitialPlatforms) == InitialPlatforms
    ensures |InitialPlatforms| == 3 && InitialPlatforms[0] == Ground()
  {
    HealHealthyIsIdentity(InitialPlatforms);
  }

  /** The world when the process starts, given the ten coin-height draws:
      no players, no connections, ten coins and the three platforms. */
  function InitialWorld(js: seq<real>): (w: World)
    requires |js| == Coins.CoinCount && Coins.ValidJitters(js)
    ensures WellFormed(w) && Healthy(w.platforms)
    ensures |w.coins| == Coins.CoinCount && w.players == map[] && w.connections == map[]
  {
    World(map[], Coins.InitCoins(js), InitialPlatforms, map[])
  }

  /** From the starting world, every trace of critical sections keeps the
      world well formed, keeps the ten coins and the three platforms as they
      were, and only ever broadcasts frames without all-zero platforms. */
  lemma Reachable(js: seq<real>, es: seq<Event>)
    requires |js| == Coins.CoinCount && Coins.ValidJitters(js) && ValidEvents(es)
    ensures WellFormed(Run(InitialWorld(js), es).world)
    ensures Run(InitialWorld(js), es).world.coins == Coins.InitCoins(js)
    ensures Run(InitialWorld(js), es).world.platforms == InitialPlatforms
  {
    RunPreservesWellFormed(InitialWorld(js), es);
    RunKeepsHealthyPlatforms(InitialWorld(js), es);
  }

  /** Starting with no players (as at process start), a client joins, sends
      x = 120, y = 480, velocity 0, not jumping, score 5, then leaves, each
      change broadcast before anything else runs: the first frame shows it
      at the spawn point (50, 530) in the drawn colour, the second at
      (120, 480) with score 5, the third without it, and the world ends with
      no players. */
  lemma JoinUpdateLeaveScenario(w: World, id: string, h: Handle)
    requires w.players == map[] && Healthy(w.platforms) && id != ""
    ensures var u := Player("", 120.0, 480.0, 0.0, false, 5, "");
      var o1 := Run(w, [Join(id, 0, h), Publish]);
      var o2 := Run(o1.world, [Update(id, u), Publish]);
      var o3 := Run(o2.world, [Leave(id), Publish]);
      && |o1.sent| == 1 && id in o1.sent[0].frame.players
      && o1.sent[0].frame.players[id] == Player(id, 50.0, 530.0, 0.0, false, 0, "red")
      && |o2.sent| == 1 && id in o2.sent[0].frame.players
      && o2.sent[0].frame.players[id] == Player(id, 120.0, 480.0, 0.0, false, 5, "red")
      && |o3.sent| == 1 && id !in o3.sent[0].frame.players
      && o3.world.players == map[]
  {
    var u := Player("", 120.0, 480.0, 0.0, false, 5, "");
    assert Spawn(id, Palette[0]) == Player(id, 50.0, 530.0, 0.0, false, 0, "red");
    JoinThenPublish(w, id, 0, h);
    var w1 := Connect(w, id, 0, h);
    assert Run(w, [Join(id, 0, h), Publish]).world == w1;
    UpdateThenPublish(w1, id, u);
    var w2 := ApplyUpdate(w1, id, u);
    assert Run(w1, [Update(id, u), Publish]).world == w2;
    assert w2.players.Keys == {id};
    assert Disconnect(w2, id).players == map[];
    LeaveThenPublish(w2, id);
  }
}

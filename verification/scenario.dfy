/** The server and the client together: what the shared hand means for the
    board a player sees, and one complete session from creation to the first
    move. */
module Scenario {
  import opened Wrappers
  import opened Cards
  import opened GameModel
  import opened GameStorage
  import opened GameService
  import opened ServiceProperties
  import Client

  /** A client showing any game the service has stored shows the same values
      as its own hand and as the opponent's, whichever player it is. */
  lemma ClientSeesMirroredHands(w: World, k: Option<string>, s: Client.State)
    requires Inv(w) && k in w.storage.games
    requires s.game == Some(Serialize(w.heap, w.storage.games[k]))
    ensures Client.PlayerCards(s) == Client.OpponentCards(s)
  {
    assert GameOk(w.heap, k, Stored(w, k));
  }

  const Alice: User := User(1, "alice")
  const Bob: User := User(2, "bob")

  /** Alice's freshly created game "g", hands at array 2. */
  predicate Created(w: World) {
    && Closed(w) && w.storage.games.Keys == {Some("g")}
    && var g := Stored(w, Some("g"));
       && g.gameId == Some("g") && g.player1 == Some(Alice) && g.player2.None?
       && g.currentTurn == Some(Alice) && g.status == Some(NEW)
       && g.player1Cards == g.player2Cards == 2 && w.heap.arrays[2] == [1, 1]
  }

  /** Game "g" with Bob joined and Alice to move. */
  predicate Started(w: World) {
    && Closed(w) && Some("g") in w.storage.games
    && var g := Stored(w, Some("g"));
       && g.gameId == Some("g") && g.player1 == Some(Alice) && g.player2 == Some(Bob)
       && g.currentTurn == Some(Alice) && g.status == Some(IN_PROGRESS)
       && g.player1Cards == g.player2Cards == 2 && w.heap.arrays[2] == [1, 1]
  }

  lemma CreateStep()
    ensures Created(CreateGame(World(Heap(map[], map[]), Empty()), Alice, "g", 0, 0, 1, 2).world)
  {
    var w0 := World(Heap(map[], map[]), Empty());
    assert CreatedIn(w0, CreateGame(w0, Alice, "g", 0, 0, 1, 2).world, Alice, "g", 0, 2);
  }

  lemma JoinStep(w: World)
    requires Created(w)
    ensures Started(ConnectToGame(w, Bob, "g").world)
  {
    assert JoinedAt(w, ConnectToGame(w, Bob, "g").world, Some("g"), Bob);
  }

  lemma MoveStep(w: World)
    requires Started(w)
    ensures var o := Play(w, GamePlay("g", Alice, 0, 0));
            var g := Stored(o.world, Some("g"));
            && o.result.Ok?
            && Hand1(o.world.heap, g) == [2, 1] && Hand2(o.world.heap, g) == [2, 1]
            && g.currentTurn == Some(Bob) && g.status == Some(IN_PROGRESS)
  {
    var m := GamePlay("g", Alice, 0, 0);
    var g := Stored(w, Some("g"));
    assert Opponent(g, Alice) == Some(Bob);
    assert HandOf(g, Alice) == 2 && HandOf(g, Bob) == 2;
    assert Admissible(w, m) && IndicesInRange(w, m);
    assert HitValue(w, m) == 2;
    var o := Play(w, m);
    assert MoveApplied(w, m, o.world);
    assert o.world.heap.arrays[2] == [2, 1];
    assert o.world.heap.arrays[2][0] != 0;
  }

  /** Alice creates a game, Bob joins, Alice plays her card 0 at Bob's card 0.
      Bob's card 0 becomes 2, and so does Alice's own card 0: the move has hit
      both players' hands. The turn passes to Bob and the game goes on. */
  lemma FirstMoveHitsBothHands()
    ensures var w1 := CreateGame(World(Heap(map[], map[]), Empty()), Alice, "g", 0, 0, 1, 2).world;
            var w2 := ConnectToGame(w1, Bob, "g").world;
            var o := Play(w2, GamePlay("g", Alice, 0, 0));
            var g := Stored(o.world, Some("g"));
            && o.result.Ok?
            && Hand1(o.world.heap, g) == [2, 1] && Hand2(o.world.heap, g) == [2, 1]
            && g.currentTurn == Some(Bob) && g.status == Some(IN_PROGRESS)
  {
    CreateStep();
    var w1 := CreateGame(World(Heap(map[], map[]), Empty()), Alice, "g", 0, 0, 1, 2).world;
    JoinStep(w1);
    MoveStep(ConnectToGame(w1, Bob, "g").world);
  }
}

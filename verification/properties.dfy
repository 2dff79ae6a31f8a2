/** Facts about sequences of service calls: the invariant every reachable
    storage keeps, and what it implies for the shared hands and for the
    `NullPointerException` a move can raise. */
module ServiceProperties {
  import opened Wrappers
  import opened Cards
  import opened GameModel
  import opened GameStorage
  import opened GameService

  /** What holds of every game the service has stored under `k`. */
  predicate GameOk(h: Heap, k: Option<string>, g: Game)
    requires g.player1Cards in h.arrays
  {
    && k.Some? && g.gameId == k
    && g.status.Some? && g.player1.Some? && g.currentTurn.Some?
    && (g.currentTurn == g.player1 || g.currentTurn == g.player2)
    && (g.status == Some(NEW) <==> g.player2.None?)
    && g.winner.None?
    // createGame hands both players one and the same array
    && g.player1Cards == g.player2Cards
    && |Hand1(h, g)| == 2 && AllInPlay(Hand1(h, g))
  }

  /** The invariant of every world the service operations can produce. */
  predicate Inv(w: World) {
    && Closed(w)
    && forall k :: k in w.storage.games ==> GameOk(w.heap, k, Stored(w, k))
  }

  /** The world before any game exists satisfies the invariant. */
  lemma EmptyWorldInv()
    ensures Inv(World(Heap(map[], map[]), Empty()))
  {
  }

  /** Adding a created game to a world keeps the invariant. */
  lemma CreatedKeepsInv(w: World, w': World, player: User, uuid: string, r: GameRef, c3: ArrayRef)
    requires Inv(w) && Closed(w') && CreatedIn(w, w', player, uuid, r, c3)
    ensures Inv(w')
  {
    forall k | k in w'.storage.games
      ensures GameOk(w'.heap, k, Stored(w', k))
    {
      if k != Some(uuid) {
        var g := Stored(w, k);
        assert GameOk(w.heap, k, g);
        assert Stored(w', k) == g;
        assert Hand1(w'.heap, g) == Hand1(w.heap, g);
      }
    }
  }

  lemma CreateGameKeepsInv(w: World, player: User, uuid: string,
                           r: GameRef, c1: ArrayRef, c2: ArrayRef, c3: ArrayRef)
    requires Inv(w)
    requires r !in w.heap.games
    requires c1 !in w.heap.arrays && c2 !in w.heap.arrays && c3 !in w.heap.arrays
    requires c1 != c2 && c1 != c3 && c2 != c3
    ensures Inv(CreateGame(w, player, uuid, r, c1, c2, c3).world)
  {
    CreatedKeepsInv(w, CreateGame(w, player, uuid, r, c1, c2, c3).world, player, uuid, r, c3);
  }

  /** Joining a NEW game keeps the invariant. */
  lemma JoinKeepsInv(w: World, k: Option<string>, player2: User)
    requires Inv(w) && k in w.storage.games && StatusAt(w, k) == Some(NEW)
    ensures Inv(Join(w, k, player2).world)
  {
    var w' := Join(w, k, player2).world;
    assert w'.storage == w.storage;
    forall k' | k' in w'.storage.games
      ensures GameOk(w'.heap, k', Stored(w', k'))
    {
      assert GameOk(w.heap, k', Stored(w, k'));
    }
  }

  lemma ConnectToGameKeepsInv(w: World, player2: User, gameId: string)
    requires Inv(w)
    ensures Inv(ConnectToGame(w, player2, gameId).world)
  {
    var k := Some(gameId);
    if k in w.storage.games && Stored(w, k).player2.None? {
      assert GameOk(w.heap, k, Stored(w, k));
      JoinKeepsInv(w, k, player2);
    }
  }

  lemma ConnectToRandomGameKeepsInv(w: World, player2: User, order: seq<Option<string>>)
    requires Inv(w) && IterationOrder(w.storage, order)
    ensures Inv(ConnectToRandomGame(w, player2, order).world)
  {
    var s := ScanForNew(w, order);
    if s.Found? {
      JoinKeepsInv(w, order[s.index], player2);
    }
  }

  /** In a reachable world every stored game has a status, so the random
      join never dereferences a null status: it throws NotFound exactly when
      no game is NEW. */
  lemma RandomJoinUnderInv(w: World, player2: User, order: seq<Option<string>>)
    requires Inv(w) && IterationOrder(w.storage, order)
    ensures ConnectToRandomGame(w, player2, order).result != Err(NullReference)
    ensures ConnectToRandomGame(w, player2, order).result == Err(NotFound) <==>
              forall k :: k in w.storage.games ==> StatusAt(w, k) != Some(NEW)
    ensures ConnectToRandomGame(w, player2, order).result.Ok? <==>
              exists k :: k in w.storage.games && StatusAt(w, k) == Some(NEW)
  {
    var s := ScanForNew(w, order);
    if s.Found? {
      assert GameOk(w.heap, order[s.index], Stored(w, order[s.index]));
    }
    if forall k :: k in w.storage.games ==> StatusAt(w, k) != Some(NEW) {
      forall k | k in w.storage.games ensures PassedOver(w, k) {
        assert GameOk(w.heap, k, Stored(w, k));
      }
    }
  }

  /** In a reachable world `getGameById` never dereferences null: it fails
      exactly for an unknown id, and otherwise returns the stored game's id
      and players. */
  lemma GetGameByIdUnderInv(w: World, gameId: string)
    requires Inv(w)
    ensures GetGameById(w, gameId).Ok? <==> Some(gameId) in w.storage.games
    ensures GetGameById(w, gameId).Ok? ==>
              GetGameById(w, gameId).value.player1 == ToPlayerDto(Stored(w, Some(gameId)).player1.value)
  {
    if Some(gameId) in w.storage.games {
      assert GameOk(w.heap, Some(gameId), Stored(w, Some(gameId)));
    }
  }

  /** In a reachable world `connectToGame` never dereferences null: it
      succeeds exactly on a stored game that has no second player yet. */
  lemma ConnectToGameUnderInv(w: World, player2: User, gameId: string)
    requires Inv(w)
    ensures ConnectToGame(w, player2, gameId).result != Err(NullReference)
    ensures ConnectToGame(w, player2, gameId).result.Ok? <==>
              Some(gameId) in w.storage.games && Stored(w, Some(gameId)).player2.None?
  {
    if Some(gameId) in w.storage.games {
      assert GameOk(w.heap, Some(gameId), Stored(w, Some(gameId)));
    }
  }

  /** A successful move keeps the invariant. */
  lemma PlayKeepsInv(w: World, m: GamePlay)
    requires Inv(w)
    ensures Inv(Play(w, m).world)
  {
    var o := Play(w, m);
    if o.result.Ok? {
      var k := Some(m.gameId);
      var r := w.storage.games[k];
      var g := Stored(w, k);
      assert GameOk(w.heap, k, g);
      var target := HandOf(g, Opponent(g, m.player).value);
      var mine := HandOf(g, m.player);
      assert mine == target == g.player1Cards;
      var v := HitValue(w, m);
      assert InPlay(v);
      var w' := o.world;
      assert w'.storage == w.storage;
      forall k' | k' in w'.storage.games
        ensures GameOk(w'.heap, k', Stored(w', k'))
      {
        var g0 := Stored(w, k');
        assert GameOk(w.heap, k', g0);
        if g0.player1Cards == target {
          WriteKeepsInPlay(w.heap.arrays[target], m.targetIndex, v);
        }
      }
    }
  }

  /** Because both hands are one array, a successful move changes the mover's
      own hand exactly as it changes the opponent's: the two hands read the
      same afterwards, and the game finishes exactly when that shared hand is
      all zeros. */
  lemma SharedHandsMirrorMove(w: World, m: GamePlay)
    requires Inv(w)
    requires Play(w, m).result.Ok?
    ensures var w' := Play(w, m).world;
            var g' := Stored(w', Some(m.gameId));
            && Hand1(w'.heap, g') == Hand2(w'.heap, g')
            && Hand1(w'.heap, g')[m.targetIndex] == HitValue(w, m)
            && (g'.status == Some(FINISHED) <==> AllZero(Hand1(w'.heap, g')))
  {
    var k := Some(m.gameId);
    assert GameOk(w.heap, k, Stored(w, k));
  }

  /** In a reachable world the only exception outside the declared three is
      the move a creator makes before anyone has joined: the opponent is then
      null and is dereferenced before the index check. */
  lemma MoveBeforeJoinDereferencesNull(w: World, m: GamePlay)
    requires Inv(w)
    ensures Play(w, m).result == Err(NullReference) <==>
              && Some(m.gameId) in w.storage.games
              && Stored(w, Some(m.gameId)).player2.None?
              && Stored(w, Some(m.gameId)).currentTurn == Some(m.player)
    ensures Play(w, m).result == Err(NullReference) ==> StatusAt(w, Some(m.gameId)) == Some(NEW)
  {
    var k := Some(m.gameId);
    if k in w.storage.games {
      assert GameOk(w.heap, k, Stored(w, k));
    }
  }

  /** A finished game is never changed by a move. */
  lemma FinishedGameIsFinal(w: World, m: GamePlay)
    requires Closed(w)
    requires Some(m.gameId) in w.storage.games && StatusAt(w, Some(m.gameId)) == Some(FINISHED)
    ensures Play(w, m) == Outcome(w, Err(InvalidGame))
  {
  }
}

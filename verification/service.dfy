/** `GameService`: creating, joining and playing sessions against the shared
    storage. Every operation takes the whole world (heap and storage) and
    returns the world after the call together with its value or the exception
    it threw. */
module GameService {
  import opened Wrappers
  import opened Cards
  import opened GameModel
  import opened GameStorage

  /** The exceptions the service throws: its three declared ones and the
      `NullPointerException` it raises when it dereferences an absent field. */
  datatype ServiceError = NotFound | InvalidGame | InvalidParam | NullReference

  /** A player as the service returns it. */
  datatype PlayerDto = PlayerDto(id: int, username: string)

  /** A game as `createGame`, `connectToGame` and `getGameById` return it. */
  datatype GameDto = GameDto(gameId: Option<string>, player1: PlayerDto, player2: Option<PlayerDto>)

  /** The move request: which game, who moves, with which own card, at which
      opponent card. */
  datatype GamePlay = GamePlay(gameId: string, player: User, cardIndex: Int32, targetIndex: Int32)

  datatype World = World(heap: Heap, storage: Storage)

  /** The world after a call, and what the call returned or threw. */
  datatype Outcome<T> = Outcome(world: World, result: Result<T, ServiceError>)

  /** Every stored reference and every card reference is allocated, as Java's
      heap guarantees. */
  predicate Closed(w: World) {
    && HeapClosed(w.heap)
    && forall k :: k in w.storage.games ==> w.storage.games[k] in w.heap.games
  }

  /** The game stored under `k`: `getGames().get(k)` read in the heap. */
  function Stored(w: World, k: Option<string>): Game
    requires Closed(w) && k in w.storage.games
  {
    w.heap.games[GetGames(w.storage)[k]]
  }

  function ToPlayerDto(u: User): PlayerDto {
    PlayerDto(u.id, u.userName)
  }

  /** `toGameDto`: the id and both players; an absent first player is
      dereferenced and throws. */
  function ToGameDto(g: Game): (r: Result<GameDto, ServiceError>)
    ensures r.Err? <==> g.player1.None?
    ensures r.Err? ==> r.error == NullReference
    ensures r.Ok? ==> r.value.gameId == g.gameId && r.value.player1 == ToPlayerDto(g.player1.value)
    ensures r.Ok? ==> (r.value.player2.Some? <==> g.player2.Some?)
    ensures r.Ok? && g.player2.Some? ==> r.value.player2 == Some(ToPlayerDto(g.player2.value))
  {
    match g.player1
    case None => Err(NullReference)
    case Some(p1) =>
      Ok(GameDto(g.gameId, ToPlayerDto(p1), if g.player2.Some? then Some(ToPlayerDto(g.player2.value)) else None))
  }

  // ---------------------------------------------------------------------------
  // createGame

  /** `w'` is `w` with a new game at `r` stored under `uuid`: created by
      `player`, who moves first, NEW, no second player or winner, and both
      hands the one array `c3` holding `[1, 1]`. Every object of `w` is
      unchanged and only the entry for `uuid` of the storage is new or
      replaced. */
  predicate CreatedIn(w: World, w': World, player: User, uuid: string, r: GameRef, c3: ArrayRef)
    requires Closed(w')
  {
    && Some(uuid) in w'.storage.games && w'.storage.games[Some(uuid)] == r
    && w'.storage.games.Keys == w.storage.games.Keys + {Some(uuid)}
    && (forall k :: k in w.storage.games && k != Some(uuid) ==> w'.storage.games[k] == w.storage.games[k])
    && (var g := Stored(w', Some(uuid));
        && g.gameId == Some(uuid)
        && g.player1 == Some(player) && g.player2.None?
        && g.status == Some(NEW) && g.currentTurn == Some(player) && g.winner.None?
        && g.player1Cards == g.player2Cards == c3
        && Hand1(w'.heap, g) == [1, 1])
    && (forall q :: q in w.heap.games ==> q in w'.heap.games && w'.heap.games[q] == w.heap.games[q])
    && (forall a :: a in w.heap.arrays ==> a in w'.heap.arrays && w'.heap.arrays[a] == w.heap.arrays[a])
  }

  /** `createGame`: a fresh game whose two hands are one shared array `[1, 1]`,
      created by and with the first turn to `player`, stored under `uuid`.
      The allocation addresses `r`, `c1`, `c2`, `c3` and the id are chosen by
      the runtime; they are parameters here. */
  function CreateGame(w: World, player: User, uuid: string,
                      r: GameRef, c1: ArrayRef, c2: ArrayRef, c3: ArrayRef): (o: Outcome<GameDto>)
    requires Closed(w)
    requires r !in w.heap.games
    requires c1 !in w.heap.arrays && c2 !in w.heap.arrays && c3 !in w.heap.arrays
    requires c1 != c2 && c1 != c3 && c2 != c3
    ensures Closed(o.world)
    ensures o.result == Ok(GameDto(Some(uuid), ToPlayerDto(player), None))
    ensures CreatedIn(w, o.world, player, uuid, r, c3)
  {
    var h := NewArray(NewGame(w.heap, r, c1, c2), c3, [1, 1]);
    var h := InstallGame(h, r, SetUpNewGame(h.games[r], player, uuid, c3));
    Outcome(World(h, SetGame(w.storage, h, r)), ToGameDto(h.games[r]))
  }

  /** Replaces the object at `r` by `g`, whose hands are allocated. */
  function InstallGame(h: Heap, r: GameRef, g: Game): (h': Heap)
    requires r in h.games && g.player1Cards in h.arrays && g.player2Cards in h.arrays
    ensures h'.games.Keys == h.games.Keys && h'.games[r] == g && h'.arrays == h.arrays
    ensures forall q :: q in h.games && q != r ==> h'.games[q] == h.games[q]
    ensures HeapClosed(h) ==> HeapClosed(h')
  {
    h.(games := h.games[r := g])
  }

  /** The setter calls `createGame` makes on the new game: one array for both
      hands, the id, the creator as player 1 and as the player to move, NEW. */
  function SetUpNewGame(g: Game, player: User, uuid: string, cards: ArrayRef): (g': Game)
    ensures g'.player1Cards == g'.player2Cards == cards
    ensures g'.gameId == Some(uuid) && g'.player1 == Some(player) && g'.player2 == g.player2
    ensures g'.status == Some(NEW) && g'.currentTurn == Some(player) && g'.winner == g.winner
  {
    var g := Apply(g, SetPlayer1Cards(cards));
    var g := Apply(g, SetPlayer2Cards(cards));
    var g := Apply(g, SetGameId(Some(uuid)));
    var g := Apply(g, SetPlayer1(Some(player)));
    var g := Apply(g, SetStatus(Some(NEW)));
    Apply(g, SetCurrentTurn(Some(player)))
  }

  // ---------------------------------------------------------------------------
  // connectToGame and connectToRandomGame

  /** `g'` is `g` with `player2` joined: the second player and IN_PROGRESS are
      set and nothing else of the game differs. */
  predicate JoinedAs(g: Game, g': Game, player2: User) {
    && g'.player2 == Some(player2) && g'.status == Some(IN_PROGRESS)
    && g'.gameId == g.gameId && g'.player1 == g.player1
    && g'.player1Cards == g.player1Cards && g'.player2Cards == g.player2Cards
    && g'.currentTurn == g.currentTurn && g'.winner == g.winner
  }

  /** In `w'` the game stored under `k` in `w` has been joined by `player2`,
      and no other object has changed. */
  predicate JoinedAt(w: World, w': World, k: Option<string>, player2: User)
    requires Closed(w) && k in w.storage.games
  {
    var r := w.storage.games[k];
    && w'.heap.arrays == w.heap.arrays
    && w'.heap.games.Keys == w.heap.games.Keys
    && JoinedAs(w.heap.games[r], w'.heap.games[r], player2)
    && (forall q :: q in w.heap.games && q != r ==> w'.heap.games[q] == w.heap.games[q])
    && (w.heap.games[r].gameId == k ==> w'.storage == w.storage)
  }

  /** The common tail of both connect operations: set the second player and
      the status on the stored game, store it again, return its DTO. */
  function Join(w: World, k: Option<string>, player2: User): (o: Outcome<GameDto>)
    requires Closed(w) && k in w.storage.games
    ensures Closed(o.world)
    ensures JoinedAt(w, o.world, k, player2)
    ensures o.result.Ok? <==> Stored(w, k).player1.Some?
    ensures o.result.Err? ==> o.result.error == NullReference
  {
    var r := w.storage.games[k];
    var g := JoinGame(w.heap.games[r], player2);
    var h := w.heap.(games := w.heap.games[r := g]);
    assert HeapClosed(h);
    var st := SetGame(w.storage, h, r);
    assert w.heap.games[r].gameId == k ==> st == w.storage;
    Outcome(World(h, st), ToGameDto(g))
  }

  /** The setter calls both connect operations make on the joined game. */
  function JoinGame(g: Game, player2: User): (g': Game)
    ensures JoinedAs(g, g', player2)
  {
    var g := Apply(g, SetPlayer2(Some(player2)));
    Apply(g, SetStatus(Some(IN_PROGRESS)))
  }

  /** `connectToGame`: an unknown id is an invalid parameter, a game that
      already has a second player is invalid, otherwise the caller joins. */
  function ConnectToGame(w: World, player2: User, gameId: string): (o: Outcome<GameDto>)
    requires Closed(w)
    ensures Closed(o.world)
    ensures o.result == Err(InvalidParam) <==> Some(gameId) !in w.storage.games
    ensures o.result == Err(InvalidGame) <==>
              Some(gameId) in w.storage.games && Stored(w, Some(gameId)).player2.Some?
    ensures o.result == Err(InvalidParam) || o.result == Err(InvalidGame) ==> o.world == w
    ensures Some(gameId) in w.storage.games && Stored(w, Some(gameId)).player2.None? ==>
              JoinedAt(w, o.world, Some(gameId), player2)
              && (o.result.Ok? <==> Stored(w, Some(gameId)).player1.Some?)
  {
    var k := Some(gameId);
    if k !in w.storage.games then Outcome(w, Err(InvalidParam))
    else if Stored(w, k).player2.Some? then Outcome(w, Err(InvalidGame))
    else Join(w, k, player2)
  }

  /** The status of the game stored under `k`. */
  function StatusAt(w: World, k: Option<string>): Option<Status>
    requires Closed(w) && k in w.storage.games
  {
    Stored(w, k).status
  }

  /** The stream filter passes over the game under `k`: its status is set and
      is not NEW. */
  predicate PassedOver(w: World, k: Option<string>)
    requires Closed(w) && k in w.storage.games
  {
    StatusAt(w, k).Some? && StatusAt(w, k) != Some(NEW)
  }

  /** How the scan for a NEW game ends: at the index of the first NEW game, at
      the index of a game whose null status the filter dereferences, or with
      every game passed over. */
  datatype Scan = Found(index: nat) | StatusNull(index: nat) | Exhausted

  /** `values().stream().filter(status == NEW).findFirst()` over the storage
      listed in iteration order `order`. */
  function ScanForNew(w: World, order: seq<Option<string>>): (s: Scan)
    requires Closed(w)
    requires forall i :: 0 <= i < |order| ==> order[i] in w.storage.games
    ensures s.Found? ==> s.index < |order| && StatusAt(w, order[s.index]) == Some(NEW)
    ensures s.StatusNull? ==> s.index < |order| && StatusAt(w, order[s.index]).None?
    ensures s.Found? || s.StatusNull? ==> forall j :: 0 <= j < s.index ==> PassedOver(w, order[j])
    ensures s.Exhausted? <==> forall i :: 0 <= i < |order| ==> PassedOver(w, order[i])
    decreases |order|
  {
    if |order| == 0 then Exhausted
    else if StatusAt(w, order[0]).None? then StatusNull(0)
    else if StatusAt(w, order[0]) == Some(NEW) then Found(0)
    else
      match ScanForNew(w, order[1..])
      case Found(i) => Found(i + 1)
      case StatusNull(i) => StatusNull(i + 1)
      case Exhausted => Exhausted
  }

  /** `order` lists every stored id exactly once: a `HashMap` iteration order. */
  predicate IterationOrder(st: Storage, order: seq<Option<string>>) {
    && (forall i :: 0 <= i < |order| ==> order[i] in st.games)
    && (forall k :: k in st.games ==> k in order)
    && (forall i, j :: 0 <= i < j < |order| ==> order[i] != order[j])
  }

  /** `connectToRandomGame`: the caller joins the first NEW game in iteration
      order; with no NEW game it throws NotFound. */
  function ConnectToRandomGame(w: World, player2: User, order: seq<Option<string>>): (o: Outcome<GameDto>)
    requires Closed(w) && IterationOrder(w.storage, order)
    ensures Closed(o.world)
    ensures o.result == Err(NotFound) <==> forall k :: k in w.storage.games ==> PassedOver(w, k)
    ensures o.result == Err(NotFound) ==> o.world == w
    ensures o.result.Err? ==> o.result.error == NotFound || o.result.error == NullReference
    ensures (exists k :: k in w.storage.games && StatusAt(w, k) == Some(NEW))
            && (forall k :: k in w.storage.games ==> StatusAt(w, k).Some? && Stored(w, k).player1.Some?)
            ==> o.result.Ok?
    ensures o.result.Ok? ==>
              exists k :: k in w.storage.games && StatusAt(w, k) == Some(NEW) && JoinedAt(w, o.world, k, player2)
  {
    match ScanForNew(w, order)
    case Exhausted => Outcome(w, Err(NotFound))
    case StatusNull(_) => Outcome(w, Err(NullReference))
    case Found(i) =>
      var o := Join(w, order[i], player2);
      assert order[i] in w.storage.games && StatusAt(w, order[i]) == Some(NEW);
      o
  }

  // ---------------------------------------------------------------------------
  // getGameById and getGameDataById

  /** `getGameById`: the DTO of the stored game, or NotFound. */
  function GetGameById(w: World, gameId: string): (r: Result<GameDto, ServiceError>)
    requires Closed(w)
    ensures r == Err(NotFound) <==> Some(gameId) !in w.storage.games
    ensures Some(gameId) in w.storage.games ==> r == ToGameDto(Stored(w, Some(gameId)))
    ensures r.Ok? ==> r.value.gameId == Stored(w, Some(gameId)).gameId
  {
    if Some(gameId) !in w.storage.games then Err(NotFound)
    else ToGameDto(Stored(w, Some(gameId)))
  }

  /** `getGameDataById`: the stored game object itself (its reference, so the
      caller sees later moves), or NotFound. */
  function GetGameDataById(w: World, gameId: string): (r: Result<GameRef, ServiceError>)
    requires Closed(w)
    ensures r.Err? <==> Some(gameId) !in w.storage.games
    ensures r.Err? ==> r.error == NotFound
    ensures r.Ok? ==> r.value in w.heap.games && w.heap.games[r.value] == Stored(w, Some(gameId))
  {
    if Some(gameId) !in w.storage.games then Err(NotFound)
    else Ok(w.storage.games[Some(gameId)])
  }

  // ---------------------------------------------------------------------------
  // gamePlay

  /** The mover's opponent: player 2 when the mover is player 1, else player 1. */
  function Opponent(g: Game, mover: User): Option<User> {
    if Some(mover) == g.player1 then g.player2 else g.player1
  }

  /** The hand of a player: player 1's cards when the user is player 1, else
      player 2's. */
  function HandOf(g: Game, u: User): ArrayRef {
    if Some(u) == g.player1 then g.player1Cards else g.player2Cards
  }

  /** The request passes every check that precedes the index check: the game
      exists, is not finished, it is the mover's turn and there is an opponent. */
  predicate Admissible(w: World, m: GamePlay)
    requires Closed(w)
  {
    var k := Some(m.gameId);
    && k in w.storage.games
    && Stored(w, k).status.Some? && Stored(w, k).status != Some(FINISHED)
    && Stored(w, k).currentTurn == Some(m.player)
    && Opponent(Stored(w, k), m.player).Some?
  }

  /** Both indices of an admissible request address a card of their hand. */
  predicate IndicesInRange(w: World, m: GamePlay)
    requires Closed(w) && Admissible(w, m)
  {
    var g := Stored(w, Some(m.gameId));
    && 0 <= m.cardIndex < |w.heap.arrays[HandOf(g, m.player)]|
    && 0 <= m.targetIndex < |w.heap.arrays[HandOf(g, Opponent(g, m.player).value)]|
  }

  /** The value the target card takes in an admissible, in-range move. */
  function HitValue(w: World, m: GamePlay): Int32
    requires Closed(w) && Admissible(w, m) && IndicesInRange(w, m)
  {
    var g := Stored(w, Some(m.gameId));
    Attack(w.heap.arrays[HandOf(g, m.player)][m.cardIndex],
           w.heap.arrays[HandOf(g, Opponent(g, m.player).value)][m.targetIndex])
  }

  /** `w'` is `w` after the move `m`: only the target card changed among the
      arrays, only the moved game among the games; in it the turn passed to
      the opponent and the status became FINISHED exactly when a hand of the
      two is now all zeros. */
  predicate MoveApplied(w: World, m: GamePlay, w': World)
    requires Closed(w) && Admissible(w, m) && IndicesInRange(w, m)
  {
    var k := Some(m.gameId);
    var r := w.storage.games[k];
    var g := Stored(w, k);
    var opp := Opponent(g, m.player).value;
    var target := HandOf(g, opp);
    var mine := HandOf(g, m.player);
    var written: seq<Int32> := w.heap.arrays[target][m.targetIndex := HitValue(w, m)];
    && w'.heap.arrays == w.heap.arrays[target := written]
    && w'.heap.games.Keys == w.heap.games.Keys
    && (forall q :: q in w.heap.games && q != r ==> w'.heap.games[q] == w.heap.games[q])
    && var g' := w'.heap.games[r];
       && g'.gameId == g.gameId && g'.player1 == g.player1 && g'.player2 == g.player2
       && g'.winner == g.winner
       && g'.player1Cards == g.player1Cards && g'.player2Cards == g.player2Cards
       && g'.currentTurn == Some(opp)
       && (AllZero(w'.heap.arrays[mine]) || AllZero(w'.heap.arrays[target]) ==> g'.status == Some(FINISHED))
       && (!AllZero(w'.heap.arrays[mine]) && !AllZero(w'.heap.arrays[target]) ==> g'.status == g.status)
       && (g.gameId == k ==> w'.storage == w.storage)
  }

  /** The setter calls `gamePlay` makes on the moved game: FINISHED when a
      hand has run out, then the turn to the opponent. */
  function EndTurn(g: Game, opp: User, finished: bool): (g': Game)
    ensures g'.gameId == g.gameId && g'.player1 == g.player1 && g'.player2 == g.player2
    ensures g'.winner == g.winner
    ensures g'.player1Cards == g.player1Cards && g'.player2Cards == g.player2Cards
    ensures g'.currentTurn == Some(opp)
    ensures finished ==> g'.status == Some(FINISHED)
    ensures !finished ==> g'.status == g.status
  {
    var g := if finished then Apply(g, SetStatus(Some(FINISHED))) else g;
    Apply(g, SetCurrentTurn(Some(opp)))
  }

  /** The writing half of `gamePlay`, reached once every check has passed. */
  function ApplyMove(w: World, m: GamePlay): (o: Outcome<GameRef>)
    requires Closed(w) && Admissible(w, m) && IndicesInRange(w, m)
    ensures Closed(o.world)
    ensures o.result == Ok(w.storage.games[Some(m.gameId)])
    ensures MoveApplied(w, m, o.world)
  {
    var r := w.storage.games[Some(m.gameId)];
    var g := w.heap.games[r];
    var opp := Opponent(g, m.player).value;
    var mine := HandOf(g, m.player);
    var target := HandOf(g, opp);
    var written: seq<Int32> := w.heap.arrays[target][m.targetIndex := HitValue(w, m)];
    var arrays := w.heap.arrays[target := written];
    var g' := EndTurn(g, opp, AllZero(arrays[mine]) || AllZero(arrays[target]));
    var h := Heap(w.heap.games[r := g'], arrays);
    assert HeapClosed(h);
    var st := SetGame(w.storage, h, r);
    assert g.gameId == Some(m.gameId) ==> st == w.storage;
    Outcome(World(h, st), Ok(r))
  }

  /** `gamePlay`: validates the request in the source's order (unknown id,
      finished game, wrong turn, bad index), with every failure thrown before
      anything is written; then writes the target card, finishes the game if a
      hand is all zeros, and passes the turn. */
  function Play(w: World, m: GamePlay): (o: Outcome<GameRef>)
    requires Closed(w)
    ensures Closed(o.world)
    ensures o.result.Err? ==> o.world == w
    ensures o.result == Err(NotFound) <==> Some(m.gameId) !in w.storage.games
    ensures o.result == Err(InvalidGame) <==>
              && Some(m.gameId) in w.storage.games
              && (|| Stored(w, Some(m.gameId)).status == Some(FINISHED)
                  || (&& Stored(w, Some(m.gameId)).status.Some?
                      && Stored(w, Some(m.gameId)).currentTurn.Some?
                      && Stored(w, Some(m.gameId)).currentTurn != Some(m.player)))
    ensures o.result == Err(InvalidParam) <==> Admissible(w, m) && !IndicesInRange(w, m)
    ensures o.result.Ok? <==> Admissible(w, m) && IndicesInRange(w, m)
    ensures o.result.Ok? ==>
              o.result.value == w.storage.games[Some(m.gameId)] && MoveApplied(w, m, o.world)
  {
    var k := Some(m.gameId);
    if k !in w.storage.games then Outcome(w, Err(NotFound))
    else
      var g := Stored(w, k);
      if g.status.None? then Outcome(w, Err(NullReference))
      else if g.status == Some(FINISHED) then Outcome(w, Err(InvalidGame))
      else if Some(m.player) != g.currentTurn then
        // building the exception message dereferences the current turn
        Outcome(w, Err(if g.currentTurn.None? then NullReference else InvalidGame))
      else if Opponent(g, m.player).None? then Outcome(w, Err(NullReference))
      else if !IndicesInRange(w, m) then Outcome(w, Err(InvalidParam))
      else ApplyMove(w, m)
  }
}

# Mathic sessions in Dafny

Mathic is a two-player card game. Each player holds two cards. On a turn, the
mover adds the value of one of their own cards to one of the opponent's
cards. A sum above 5 is reduced modulo 5. A player whose cards are all 0 ends
the game. This project models two sequential parts of the game:

- **The server's session rules** (`GameService`, `GameStorage`, `Game`).
  These cover creating a game, joining one by id or at random, reading one
  back, and playing a move.
- **The client's game view** (`Game.js`), modelled as a pure reducer. It
  takes the initial fetch, pushed snapshots, card clicks, and the outcome of a
  move request.

## How the Java objects are represented

The server code depends on object identity, so the model keeps it explicit:

- `Heap` maps game addresses to `Game` records and array addresses to
  `int[]` contents. A `Game`'s two card fields hold array addresses.
  `createGame` creates one `{1, 1}` array and passes it to both card setters.
  Both hands are therefore the same address, and a move that writes the
  opponent's card also writes the mover's own card.
  `ServiceProperties.SharedHandsMirrorMove` proves this, and
  `Scenario.FirstMoveHitsBothHands` shows it on a concrete game.
- `Storage` maps ids to game addresses. It is the live map. An in-place edit
  of a stored game is seen by later lookups with no call to `setGame`.
- A Java reference that can be `null` is an `Option`. Where the code
  dereferences one, the operation fails with `NullReference`, in the same
  place the code would throw.
- Every operation returns the world after the call plus its value or error.
  The source's three exception classes become the errors `NotFound`,
  `InvalidGame` and `InvalidParam`.
- `int` is the subset type `Int32`, and `+` wraps explicitly. The `%` in
  `gamePlay` only ever gets a positive sum, where Java's truncating remainder
  and Dafny's agree.

Every world the operations can build satisfies `ServiceProperties.Inv`:

- every stored game carries its own id, a status, a first player and a turn
  holder;
- the turn belongs to one of the two players;
- status NEW holds exactly when there is no second player;
- the winner is unset;
- both hands are one array of two cards, each with a value in 0..5.

One consequence is in `ServiceProperties.MoveBeforeJoinDereferencesNull`.
`gamePlay` does not reject NEW games. So when a creator moves before anyone
has joined, the null opponent is dereferenced before the index check, and the
call fails with a `NullPointerException`. This is the only undeclared
exception a reachable world can raise.

Players are compared by equality on the server. The client compares them by
`id`.

## Model

| member | source | states |
|---|---|---|
| Cards.AddInt32 | backend/mathic/src/main/java/com/smurfs/mathic/service/GameService.java:129 | Java `int` addition: the exact sum when it fits, and always a value congruent to it modulo 2^32 |
| Cards.Attack | backend/mathic/src/main/java/com/smurfs/mathic/service/GameService.java:126-134 | for card values in 0..5: the new target value is in 0..5; it is the plain sum when that is at most 5 (so 5 stays 5); otherwise it is the sum minus 5, except that 10 becomes 0; and it is 0 exactly for sums 0 and 10 |
| Cards.AreAllCardsZero | backend/mathic/src/main/java/com/smurfs/mathic/service/GameService.java:154-161 | returns true exactly when every card of the hand is 0 (the `AllZero` predicate the move model uses), and otherwise some card is non-zero |
| Cards.WriteKeepsInPlay | backend/mathic/src/main/java/com/smurfs/mathic/service/GameService.java:137 | writing a value in 0..5 into a hand whose values are all in 0..5 keeps them all in 0..5 |
| GameModel.NewGame | backend/mathic/src/main/java/com/smurfs/mathic/model/Game.java:14-17 | the default constructor allocates two distinct two-card arrays of zeros and leaves every other field unset; no existing object changes |
| GameModel.NewArray | backend/mathic/src/main/java/com/smurfs/mathic/service/GameService.java:44 | allocating an array adds exactly one new array with the given contents and changes no existing object |
| GameModel.Apply | backend/mathic/src/main/java/com/smurfs/mathic/model/Game.java:19-82 | a setter makes its own getter return the argument (the card setters store the reference itself) and leaves every other getter's value alone |
| GameModel.GetterReturnsLastSet | backend/mathic/src/main/java/com/smurfs/mathic/model/Game.java:19-82 | after any sequence of setter calls, each getter returns the value of the last call that wrote its field, or the original value if none did |
| GameModel.WinnerAbsentUntilSet | backend/mathic/src/main/java/com/smurfs/mathic/model/Game.java:76-82 | the winner stays unset through any sequence of setter calls that does not include `setWinner` |
| GameModel.HandSettersAlias | backend/mathic/src/main/java/com/smurfs/mathic/model/Game.java:23-33 | after one array is passed to both card setters, a write through player 1's hand is read back through player 2's, and the two hands are equal |
| GameModel.Serialize | backend/mathic/src/main/java/com/smurfs/mathic/model/Game.java:19-78 | the JSON snapshot carries every getter's value, each hand read from the array its field points to, so a game whose two hand fields share one array serialises two identical hands |
| GameStorage.Empty | backend/mathic/src/main/java/com/smurfs/mathic/storage/GameStorage.java:13-15 | a new storage holds no games |
| GameStorage.SetGame | backend/mathic/src/main/java/com/smurfs/mathic/storage/GameStorage.java:28-30 | `setGame` stores the game under the id it carries; it adds that id or replaces its entry, and every other id keeps its entry |
| GameStorage.SetGameStoredIsNoOp | backend/mathic/src/main/java/com/smurfs/mathic/storage/GameStorage.java:28-30 | storing again a game already stored under its own id leaves the storage unchanged |
| GameStorage.InPlaceEditVisible | backend/mathic/src/main/java/com/smurfs/mathic/storage/GameStorage.java:24-26 | `getGames` returns the storage's own map, not a copy, so an in-place change to a stored game is what the next `getGames().get(id)` returns, without `setGame` |
| GameService.ToGameDto | backend/mathic/src/main/java/com/smurfs/mathic/service/GameService.java:34-40 | the DTO carries the game id, player 1's id and name, and player 2's id and name exactly when player 2 is set; it fails with a null dereference exactly when player 1 is unset |
| GameService.CreatedIn | backend/mathic/src/main/java/com/smurfs/mathic/service/GameService.java:42-55 | the state `createGame` produces: the new game is stored under the new id, has player 1 = creator, turn = creator, status NEW, no player 2 or winner, and both hands are the one array `[1, 1]`; every earlier object and every other id is unchanged |
| GameService.CreateGame | backend/mathic/src/main/java/com/smurfs/mathic/service/GameService.java:42-55 | `createGame` produces that state, keeps the heap closed, and returns the DTO (new id, creator, no second player) |
| GameService.SetUpNewGame | backend/mathic/src/main/java/com/smurfs/mathic/service/GameService.java:44-51 | the setter calls of `createGame` leave both card fields on one array and set id, player 1, status NEW and the turn, keeping player 2 and winner |
| GameService.JoinGame | backend/mathic/src/main/java/com/smurfs/mathic/service/GameService.java:67-68 | joining sets player 2 and IN_PROGRESS and leaves id, player 1, cards, turn and winner as they were |
| GameService.Join | backend/mathic/src/main/java/com/smurfs/mathic/service/GameService.java:67-71 | the shared tail of both connects: only the joined game changes and no array is touched; the storage is unchanged when the game carries the id it is stored under; the DTO fails exactly when player 1 is unset |
| GameService.ConnectToGame | backend/mathic/src/main/java/com/smurfs/mathic/service/GameService.java:57-72 | an unknown id fails with InvalidParam, and a game that already has player 2 fails with InvalidGame, both with nothing changed; otherwise the caller joins as player 2 and the game becomes IN_PROGRESS with cards, turn and player 1 unchanged |
| GameService.ScanForNew | backend/mathic/src/main/java/com/smurfs/mathic/service/GameService.java:75-77 | the stream finds the first NEW game in iteration order, and every game before it has a status that is not NEW; it stops at a game whose status is null; it finds nothing exactly when every game has a status that is not NEW |
| GameService.ConnectToRandomGame | backend/mathic/src/main/java/com/smurfs/mathic/service/GameService.java:74-84 | NotFound, with nothing changed, exactly when no stored game is NEW or status-less; the only other error is a null dereference; when some game is NEW and every game has a status and a player 1 the join succeeds; on success some game that was NEW has been joined by the caller |
| GameService.GetGameById | backend/mathic/src/main/java/com/smurfs/mathic/service/GameService.java:21-28 | NotFound exactly for an unknown id; otherwise the result is the stored game's DTO (including its null-player-1 failure) |
| GameService.GetGameDataById | backend/mathic/src/main/java/com/smurfs/mathic/service/GameService.java:86-92 | NotFound exactly for an unknown id; otherwise the stored game's own reference |
| GameService.EndTurn | backend/mathic/src/main/java/com/smurfs/mathic/service/GameService.java:139-146 | ending a turn passes it to the opponent and sets FINISHED when a hand has run out, otherwise keeping the status; players, id, winner and card fields are unchanged |
| GameService.ApplyMove | backend/mathic/src/main/java/com/smurfs/mathic/service/GameService.java:126-149 | once all checks pass: only the target card of the opponent's array is written; only the moved game changes; the turn goes to the opponent; FINISHED exactly when one of the two hands is all zeros after the write |
| GameService.Play | backend/mathic/src/main/java/com/smurfs/mathic/service/GameService.java:94-152 | `gamePlay` rejects, in this order and always before any write: an unknown id (NotFound); a FINISHED game, or a move out of turn (InvalidGame); an index out of range (InvalidParam). NEW games are not rejected. It succeeds exactly when all checks pass, and the move is then applied as in ApplyMove |
| ServiceProperties.EmptyWorldInv | backend/mathic/src/main/java/com/smurfs/mathic/storage/GameStorage.java:13-15 | the empty storage satisfies the invariant |
| ServiceProperties.CreatedKeepsInv | backend/mathic/src/main/java/com/smurfs/mathic/service/GameService.java:42-55 | any world in the state `createGame` describes keeps the invariant |
| ServiceProperties.CreateGameKeepsInv | backend/mathic/src/main/java/com/smurfs/mathic/service/GameService.java:42-55 | `createGame` keeps the invariant |
| ServiceProperties.JoinKeepsInv | backend/mathic/src/main/java/com/smurfs/mathic/service/GameService.java:67-69 | joining a NEW game keeps the invariant |
| ServiceProperties.ConnectToGameKeepsInv | backend/mathic/src/main/java/com/smurfs/mathic/service/GameService.java:57-72 | `connectToGame` keeps the invariant |
| ServiceProperties.ConnectToRandomGameKeepsInv | backend/mathic/src/main/java/com/smurfs/mathic/service/GameService.java:74-84 | `connectToRandomGame` keeps the invariant |
| ServiceProperties.RandomJoinUnderInv | backend/mathic/src/main/java/com/smurfs/mathic/service/GameService.java:74-77 | in reachable worlds the random join never dereferences null, fails with NotFound exactly when no game is NEW, and succeeds exactly when some game is NEW |
| ServiceProperties.GetGameByIdUnderInv | backend/mathic/src/main/java/com/smurfs/mathic/service/GameService.java:21-40 | in reachable worlds `getGameById` succeeds exactly for a stored id and returns the stored game's player 1 |
| ServiceProperties.ConnectToGameUnderInv | backend/mathic/src/main/java/com/smurfs/mathic/service/GameService.java:57-72 | in reachable worlds `connectToGame` never dereferences null and succeeds exactly on a stored game without a second player |
| ServiceProperties.PlayKeepsInv | backend/mathic/src/main/java/com/smurfs/mathic/service/GameService.java:94-152 | `gamePlay` keeps the invariant, including every card value staying in 0..5 |
| ServiceProperties.SharedHandsMirrorMove | backend/mathic/src/main/java/com/smurfs/mathic/service/GameService.java:115-143 | after a successful move in a reachable world, both hands read the same, the mover's own hand holds the new target value, and the game is FINISHED exactly when that shared hand is all zeros |
| ServiceProperties.MoveBeforeJoinDereferencesNull | backend/mathic/src/main/java/com/smurfs/mathic/service/GameService.java:112-116 | in reachable worlds a move raises a null dereference exactly when the mover holds the turn in a game without a second player, and that game is NEW |
| ServiceProperties.FinishedGameIsFinal | backend/mathic/src/main/java/com/smurfs/mathic/service/GameService.java:101-103 | a move on a FINISHED game is rejected with InvalidGame and changes nothing |
| Scenario.ClientSeesMirroredHands | frontend/src/components/Game.js:107-108 | a client showing any stored game shows the same values for its own hand and its opponent's |
| Scenario.CreateStep | backend/mathic/src/main/java/com/smurfs/mathic/service/GameService.java:42-55 | from empty storage, Alice's `createGame` stores one NEW game with the shared `[1, 1]` array |
| Scenario.JoinStep | backend/mathic/src/main/java/com/smurfs/mathic/service/GameService.java:57-72 | Bob's `connectToGame` on it makes it IN_PROGRESS with Alice to move |
| Scenario.MoveStep | backend/mathic/src/main/java/com/smurfs/mathic/service/GameService.java:94-152 | Alice playing card 0 at card 0 succeeds, leaves both hands `[2, 1]`, passes the turn to Bob and does not finish the game |
| Scenario.FirstMoveHitsBothHands | backend/mathic/src/main/java/com/smurfs/mathic/service/GameService.java:42-152 | the whole session create, join, move ends with both hands `[2, 1]`: the attack also hit the attacker |
| Client.Next | frontend/src/components/Game.js:29-103 | a fetched, pushed or move-response snapshot replaces the game whole; push and move response clear the selection and keep the role; a fetch keeps the selection and sets the role from player 1's id (kept if player 1 is null); failures change nothing; an own-card click selects that card when it is enabled and otherwise changes nothing; an opponent-card click sends move(selected, clicked) exactly when enabled and changes no state |
| Client.LastSnapshot | frontend/src/components/Game.js:30-99 | the last installed snapshot is absent exactly when no event installs one, and otherwise it is one of the events' snapshots |
| Client.GameIsLastServerSnapshot | frontend/src/components/Game.js:30-99 | after any events, the game shown is the last server snapshot received; cards are never edited locally |
| Client.LoadingUntilSnapshot | frontend/src/components/Game.js:68-70 | from mount, the view shows Loading exactly until some event installs a snapshot, and then shows one of the received snapshots |
| Client.RoleFixedByFetch | frontend/src/components/Game.js:29-50 | whether the user is player 1 is decided only by the last successful fetch that has player 1; pushes and move responses never recompute it |
| Client.SelectionStaysSound | frontend/src/components/Game.js:72-78 | a selection only ever exists on a loaded board and is a non-negative index, whatever events occur |
| Client.GuardsExclusive | frontend/src/components/Game.js:140-178 | own cards and opponent cards are never enabled at the same time |
| Client.ExhaustedCardSelectable | frontend/src/components/Game.js:72-74 | an enabled own card can be selected whatever its value, including 0 |
| Client.HandsByRole | frontend/src/components/Game.js:107-108 | the local hand is player 1's for player 1 and player 2's otherwise, the two hands shown are the snapshot's two hands, and swapping the role swaps which hand is own and which is the opponent's |

## Left out

- Transport: HTTP endpoints, STOMP broadcasts, SockJS, and the client's fetch,
  subscribe, activate and deactivate calls. Their outcomes are reducer events
  (`FetchSucceeded`, `Pushed`, `MoveSucceeded`, and so on).
- Concurrency: the synchronized singleton, unsynchronized `HashMap` access,
  and fetch/push interleaving. Calls and events form one sequential trace.
- Randomness and allocation: the UUID, the heap addresses and the `HashMap`
  iteration order are parameters. The order is any listing of the stored ids
  with each id exactly once.
- `GameStatus.java` is not part of this model. The model has the three values
  the code uses: NEW, IN_PROGRESS and FINISHED.
- `User` is not part of this model. It is a record of an integer id and a user
  name, compared by equality on the server and by id on the client.
- A `null` request id, a `null` moving player, a `null` user passed to
  `createGame`, and `null` passed to a card setter are not modelled. The code
  never produces them, and the types here exclude them.
- `toGameDto` calls a four-argument constructor with three arguments. The DTO
  is modelled as the projection (id, player 1, player 2), with no winner.
- Split, surrender, winner derivation and outcome display are not implemented
  in this code: no setter call sets a winner, and no operation splits or
  surrenders. They are not modelled. The same holds for the WAITING status,
  the explicit "start" transition, and the client-side checks on card values,
  at-most-one-request-in-flight and teardown.
- `GameController` list projections and the leave and surrender calls. The
  service does not define the operations they call.
- Rendering. A snapshot whose `currentTurn` is `null`, or that lacks the
  player whose name is displayed, makes the render throw. The model instead
  treats a `null` turn as "not the local turn".
- Button presence: a click fires only on a button that is on screen and
  enabled. The model takes "on screen" to mean the index lies inside the hand
  shown.

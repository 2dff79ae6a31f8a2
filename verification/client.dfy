/** The turn and selection logic of the client's game view, as a reducer over
    the events the view reacts to: the initial fetch, pushed snapshots, clicks
    on its own and on the opponent's cards, and the outcome of a move request.
    Transport and rendering are not modelled. */
module Client {
  import opened Wrappers
  import opened GameModel

  /** The view's state: the last game snapshot (none while loading), the
      selected own-card index, and whether the local user is player 1. */
  datatype State = State(game: Option<Snapshot>, selected: Option<int>, isPlayer1: bool)

  /** The view as first mounted. */
  const Init: State := State(None, None, false)

  datatype Event =
    | FetchSucceeded(data: Snapshot)
    | FetchFailed
    | Pushed(update: Snapshot)
    | ClickOwn(ownIndex: int)
    | ClickOpponent(opponentIndex: int)
    | MoveSucceeded(response: Snapshot)
    | MoveFailed
  {
    /** The server snapshot this event installs, if it installs one. */
    function Installs(): Option<Snapshot> {
      match this
      case FetchSucceeded(s) => Some(s)
      case Pushed(s) => Some(s)
      case MoveSucceeded(s) => Some(s)
      case _ => None
    }
  }

  /** The body of the move request the view posts. */
  datatype MoveRequest = MoveRequest(gameId: string, player: User, cardIndex: int, targetIndex: int)

  /** The state after an event, and the request the event sends, if any. */
  datatype Step = Step(state: State, request: Option<MoveRequest>)

  /** The view is showing "Loading..." rather than the board. */
  predicate Loading(s: State) {
    s.game.None?
  }

  /** It is the local user's turn: the snapshot's current turn has the user's
      id (players are compared by id here, not by the whole record). */
  predicate IsPlayerTurn(s: State, user: User) {
    s.game.Some? && s.game.value.currentTurn.Some? && s.game.value.currentTurn.value.id == user.id
  }

  /** The hand shown as the local user's. */
  function PlayerCards(s: State): seq<int>
    requires s.game.Some?
  {
    if s.isPlayer1 then s.game.value.player1Cards else s.game.value.player2Cards
  }

  /** The hand shown as the opponent's. */
  function OpponentCards(s: State): seq<int>
    requires s.game.Some?
  {
    if s.isPlayer1 then s.game.value.player2Cards else s.game.value.player1Cards
  }

  /** The own card at `i` is on screen and its button is enabled. */
  predicate OwnCardEnabled(s: State, user: User, i: int) {
    s.game.Some? && 0 <= i < |PlayerCards(s)| && IsPlayerTurn(s, user) && s.selected.None?
  }

  /** The opponent card at `j` is on screen and its button is enabled. */
  predicate OpponentCardEnabled(s: State, user: User, j: int) {
    s.game.Some? && 0 <= j < |OpponentCards(s)| && IsPlayerTurn(s, user) && s.selected.Some?
  }

  /** One event. A click on a disabled or absent button does nothing. */
  function Next(s: State, user: User, gameId: string, e: Event): (r: Step)
    // every installed snapshot replaces the game wholesale; only the fetch
    // decides the role, and only a fetch keeps the selection
    ensures e.Installs().Some? ==> r.state.game == e.Installs()
    ensures e.Pushed? || e.MoveSucceeded? ==> r.state.selected.None? && r.state.isPlayer1 == s.isPlayer1
    ensures e.FetchSucceeded? ==> r.state.selected == s.selected
    ensures e.FetchSucceeded? && e.data.player1.Some? ==> (r.state.isPlayer1 <==> e.data.player1.value.id == user.id)
    ensures e.FetchSucceeded? && e.data.player1.None? ==> r.state.isPlayer1 == s.isPlayer1
    // failures change nothing
    ensures e.FetchFailed? || e.MoveFailed? ==> r.state == s
    // clicks never touch the game
    ensures e.ClickOwn? || e.ClickOpponent? ==> r.state.game == s.game && r.state.isPlayer1 == s.isPlayer1
    ensures e.ClickOwn? ==> (r.state.selected == Some(e.ownIndex) <==> OwnCardEnabled(s, user, e.ownIndex) || s.selected == Some(e.ownIndex))
    ensures e.ClickOwn? && !OwnCardEnabled(s, user, e.ownIndex) ==> r.state == s
    ensures e.ClickOpponent? ==> r.state == s
    // only an enabled opponent card sends a move, from the selected card
    ensures r.request.Some? <==> e.ClickOpponent? && OpponentCardEnabled(s, user, e.opponentIndex)
    ensures r.request.Some? ==>
              r.request.value == MoveRequest(gameId, user, s.selected.value, e.opponentIndex)
  {
    match e
    case FetchSucceeded(data) =>
      // `data.player1.id` throws after the game is already set when player1 is null
      var isPlayer1 := if data.player1.Some? then data.player1.value.id == user.id else s.isPlayer1;
      Step(s.(game := Some(data), isPlayer1 := isPlayer1), None)
    case FetchFailed => Step(s, None)
    case Pushed(update) => Step(s.(game := Some(update), selected := None), None)
    case ClickOwn(i) =>
      if OwnCardEnabled(s, user, i) then Step(s.(selected := Some(i)), None) else Step(s, None)
    case ClickOpponent(j) =>
      if OpponentCardEnabled(s, user, j)
      then Step(s, Some(MoveRequest(gameId, user, s.selected.value, j)))
      else Step(s, None)
    case MoveSucceeded(response) => Step(s.(game := Some(response), selected := None), None)
    case MoveFailed => Step(s, None)
  }

  /** The state after a sequence of events, in order. */
  function Run(s: State, user: User, gameId: string, evs: seq<Event>): State
    decreases |evs|
  {
    if |evs| == 0 then s
    else Next(Run(s, user, gameId, evs[..|evs| - 1]), user, gameId, evs[|evs| - 1]).state
  }

  /** The snapshot installed by the last event of `evs` that installs one. */
  function LastSnapshot(evs: seq<Event>): (r: Option<Snapshot>)
    ensures r.None? <==> forall i :: 0 <= i < |evs| ==> evs[i].Installs().None?
    ensures r.Some? ==> exists i :: 0 <= i < |evs| && evs[i].Installs() == r
    decreases |evs|
  {
    if |evs| == 0 then None
    else if evs[|evs| - 1].Installs().Some? then evs[|evs| - 1].Installs()
    else LastSnapshot(evs[..|evs| - 1])
  }

  /** Card values are never edited locally: after any events, the game shown
      is the snapshot the server sent last, or the starting one if none came. */
  lemma {:induction false} GameIsLastServerSnapshot(s: State, user: User, gameId: string, evs: seq<Event>)
    ensures Run(s, user, gameId, evs).game == if LastSnapshot(evs).Some? then LastSnapshot(evs) else s.game
    decreases |evs|
  {
    if |evs| > 0 {
      GameIsLastServerSnapshot(s, user, gameId, evs[..|evs| - 1]);
    }
  }

  /** From the mounted view, the board stays on "Loading..." exactly until
      some event installs a server snapshot, and what it then shows is one of
      the snapshots received. */
  lemma LoadingUntilSnapshot(user: User, gameId: string, evs: seq<Event>)
    ensures Loading(Run(Init, user, gameId, evs)) <==> forall i :: 0 <= i < |evs| ==> evs[i].Installs().None?
    ensures !Loading(Run(Init, user, gameId, evs)) ==>
              exists i :: 0 <= i < |evs| && evs[i].Installs() == Run(Init, user, gameId, evs).game
  {
    GameIsLastServerSnapshot(Init, user, gameId, evs);
  }

  /** The role decided by the last successful fetch whose player 1 is present. */
  function LastRole(evs: seq<Event>, user: User): Option<bool>
    decreases |evs|
  {
    if |evs| == 0 then None
    else
      var e := evs[|evs| - 1];
      if e.FetchSucceeded? && e.data.player1.Some? then Some(e.data.player1.value.id == user.id)
      else LastRole(evs[..|evs| - 1], user)
  }

  /** Whether the user is player 1 is fixed by the fetch and never recomputed
      from pushed or move snapshots. */
  lemma {:induction false} RoleFixedByFetch(s: State, user: User, gameId: string, evs: seq<Event>)
    ensures Run(s, user, gameId, evs).isPlayer1 == LastRole(evs, user).GetOr(s.isPlayer1)
    decreases |evs|
  {
    if |evs| > 0 {
      RoleFixedByFetch(s, user, gameId, evs[..|evs| - 1]);
    }
  }

  /** A selection only exists on a loaded board and is a card index. */
  predicate SelectionSound(s: State) {
    s.selected.Some? ==> s.game.Some? && s.selected.value >= 0
  }

  /** Every event keeps the selection sound, so every move request the view
      sends names a non-negative own-card index. */
  lemma {:induction false} SelectionStaysSound(s: State, user: User, gameId: string, evs: seq<Event>)
    requires SelectionSound(s)
    ensures SelectionSound(Run(s, user, gameId, evs))
    decreases |evs|
  {
    if |evs| > 0 {
      SelectionStaysSound(s, user, gameId, evs[..|evs| - 1]);
    }
  }

  /** Own and opponent cards are never enabled at the same time: a move is
      always the selection of an own card followed by a click on a target. */
  lemma GuardsExclusive(s: State, user: User, i: int, j: int)
    ensures !(OwnCardEnabled(s, user, i) && OpponentCardEnabled(s, user, j))
  {
  }

  /** The card's value plays no part in selecting it: an exhausted card can be
      selected as well as any other. */
  lemma ExhaustedCardSelectable(s: State, user: User, gameId: string, i: int)
    requires OwnCardEnabled(s, user, i) && PlayerCards(s)[i] == 0
    ensures Next(s, user, gameId, ClickOwn(i)).state.selected == Some(i)
  {
  }

  /** The local hand is player 1's when the user is player 1 and player 2's
      otherwise; the two hands on screen are the snapshot's two hands, and
      the other role would see them the other way round. */
  lemma HandsByRole(s: State)
    requires s.game.Some?
    ensures s.isPlayer1 ==> PlayerCards(s) == s.game.value.player1Cards
    ensures !s.isPlayer1 ==> PlayerCards(s) == s.game.value.player2Cards
    ensures multiset{PlayerCards(s), OpponentCards(s)} ==
            multiset{s.game.value.player1Cards, s.game.value.player2Cards}
    ensures PlayerCards(s.(isPlayer1 := !s.isPlayer1)) == OpponentCards(s)
    ensures OpponentCards(s.(isPlayer1 := !s.isPlayer1)) == PlayerCards(s)
  {
  }
}

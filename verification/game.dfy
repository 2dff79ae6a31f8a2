/** The `Game` session record, its setters, and the part of the Java heap it
    lives in. Objects are addressed by references so that two fields holding
    the same array, or a map holding the same game, share every later write. */
module GameModel {
  import opened Wrappers
  import opened Cards

  /** A logged-in player; identity is compared by equality of the whole value. */
  datatype User = User(id: int, userName: string)

  /** The session states the service uses. */
  datatype Status = NEW | IN_PROGRESS | FINISHED

  /** Address of a `Game` object on the heap. */
  type GameRef = nat

  /** Address of an `int[]` object on the heap. */
  type ArrayRef = nat

  /** The fields of one `Game` object. Reference-typed fields that Java leaves
      `null` until set are options; the two card fields hold array addresses. */
  datatype Game = Game(
    gameId: Option<string>,
    player1: Option<User>,
    player2: Option<User>,
    status: Option<Status>,
    player1Cards: ArrayRef,
    player2Cards: ArrayRef,
    currentTurn: Option<User>,
    winner: Option<User>)

  /** The objects the session code can reach. */
  datatype Heap = Heap(games: map<GameRef, Game>, arrays: map<ArrayRef, seq<Int32>>)

  /** Both hands of the game at `r` point at allocated arrays. */
  predicate HandsAllocated(h: Heap, r: GameRef) {
    r in h.games && h.games[r].player1Cards in h.arrays && h.games[r].player2Cards in h.arrays
  }

  /** No game on the heap points at an unallocated array. */
  predicate HeapClosed(h: Heap) {
    forall r :: r in h.games ==> HandsAllocated(h, r)
  }

  /** The values of player 1's hand of game `g`. */
  function Hand1(h: Heap, g: Game): seq<Int32>
    requires g.player1Cards in h.arrays
  {
    h.arrays[g.player1Cards]
  }

  /** The values of player 2's hand of game `g`. */
  function Hand2(h: Heap, g: Game): seq<Int32>
    requires g.player2Cards in h.arrays
  {
    h.arrays[g.player2Cards]
  }

  /** `new Game()` at address `r`: two fresh two-card arrays of zeros, every
      other field `null`. */
  function NewGame(h: Heap, r: GameRef, c1: ArrayRef, c2: ArrayRef): (h': Heap)
    requires r !in h.games && c1 !in h.arrays && c2 !in h.arrays && c1 != c2
    ensures r in h'.games && HandsAllocated(h', r)
    ensures Hand1(h', h'.games[r]) == [0, 0] && Hand2(h', h'.games[r]) == [0, 0]
    ensures h'.games[r].player1Cards != h'.games[r].player2Cards
    ensures h'.games[r].gameId.None? && h'.games[r].player1.None? && h'.games[r].player2.None?
    ensures h'.games[r].status.None? && h'.games[r].currentTurn.None? && h'.games[r].winner.None?
    ensures h'.games.Keys == h.games.Keys + {r} && h'.arrays.Keys == h.arrays.Keys + {c1, c2}
    ensures forall q :: q in h.games ==> h'.games[q] == h.games[q]
    ensures forall a :: a in h.arrays ==> h'.arrays[a] == h.arrays[a]
    ensures HeapClosed(h) ==> HeapClosed(h')
  {
    var g := Game(None, None, None, None, c1, c2, None, None);
    Heap(h.games[r := g], h.arrays[c1 := [0, 0]][c2 := [0, 0]])
  }

  /** `new int[]{...}` at address `a`. */
  function NewArray(h: Heap, a: ArrayRef, values: seq<Int32>): (h': Heap)
    requires a !in h.arrays
    ensures a in h'.arrays && h'.arrays[a] == values
    ensures h'.games == h.games && h'.arrays.Keys == h.arrays.Keys + {a}
    ensures forall b :: b in h.arrays ==> h'.arrays[b] == h.arrays[b]
    ensures HeapClosed(h) ==> HeapClosed(h')
  {
    Heap(h.games, h.arrays[a := values])
  }

  // ---------------------------------------------------------------------------
  // Getters and setters

  /** The eight fields of `Game`. */
  datatype Field =
    | GameIdField | Player1Field | Player2Field | StatusField
    | Player1CardsField | Player2CardsField | CurrentTurnField | WinnerField

  /** The content of one field, as a getter returns it. */
  datatype Value =
    | IdValue(id: Option<string>)
    | UserValue(user: Option<User>)
    | StatusValue(status: Option<Status>)
    | CardsValue(cards: ArrayRef)

  /** One call of a `Game` setter with its argument. */
  datatype Setter =
    | SetGameId(newId: Option<string>)
    | SetPlayer1(newPlayer1: Option<User>)
    | SetPlayer2(newPlayer2: Option<User>)
    | SetStatus(newStatus: Option<Status>)
    | SetPlayer1Cards(newPlayer1Cards: ArrayRef)
    | SetPlayer2Cards(newPlayer2Cards: ArrayRef)
    | SetCurrentTurn(newTurn: Option<User>)
    | SetWinner(newWinner: Option<User>)
  {
    /** The field this setter writes. */
    function Target(): Field {
      match this
      case SetGameId(_) => GameIdField
      case SetPlayer1(_) => Player1Field
      case SetPlayer2(_) => Player2Field
      case SetStatus(_) => StatusField
      case SetPlayer1Cards(_) => Player1CardsField
      case SetPlayer2Cards(_) => Player2CardsField
      case SetCurrentTurn(_) => CurrentTurnField
      case SetWinner(_) => WinnerField
    }

    /** The value this setter stores. */
    function Written(): Value {
      match this
      case SetGameId(v) => IdValue(v)
      case SetPlayer1(v) => UserValue(v)
      case SetPlayer2(v) => UserValue(v)
      case SetStatus(v) => StatusValue(v)
      case SetPlayer1Cards(a) => CardsValue(a)
      case SetPlayer2Cards(a) => CardsValue(a)
      case SetCurrentTurn(v) => UserValue(v)
      case SetWinner(v) => UserValue(v)
    }
  }

  /** The getter of field `f`. */
  function Get(g: Game, f: Field): Value {
    match f
    case GameIdField => IdValue(g.gameId)
    case Player1Field => UserValue(g.player1)
    case Player2Field => UserValue(g.player2)
    case StatusField => StatusValue(g.status)
    case Player1CardsField => CardsValue(g.player1Cards)
    case Player2CardsField => CardsValue(g.player2Cards)
    case CurrentTurnField => UserValue(g.currentTurn)
    case WinnerField => UserValue(g.winner)
  }

  /** A setter call: its own field's getter now returns the argument (for the
      card setters, the very array reference passed in, not a copy) and every
      other getter returns what it returned before. */
  function Apply(g: Game, s: Setter): (r: Game)
    ensures Get(r, s.Target()) == s.Written()
    ensures forall f :: f != s.Target() ==> Get(r, f) == Get(g, f)
  {
    match s
    case SetGameId(v) => g.(gameId := v)
    case SetPlayer1(v) => g.(player1 := v)
    case SetPlayer2(v) => g.(player2 := v)
    case SetStatus(v) => g.(status := v)
    case SetPlayer1Cards(a) => g.(player1Cards := a)
    case SetPlayer2Cards(a) => g.(player2Cards := a)
    case SetCurrentTurn(v) => g.(currentTurn := v)
    case SetWinner(v) => g.(winner := v)
  }

  /** A sequence of setter calls, in order. */
  function ApplyAll(g: Game, ss: seq<Setter>): Game
    decreases |ss|
  {
    if |ss| == 0 then g else Apply(ApplyAll(g, ss[..|ss| - 1]), ss[|ss| - 1])
  }

  /** The value of the last call in `ss` that writes field `f`, if any. */
  function LastWrite(ss: seq<Setter>, f: Field): Option<Value>
    decreases |ss|
  {
    if |ss| == 0 then None
    else if ss[|ss| - 1].Target() == f then Some(ss[|ss| - 1].Written())
    else LastWrite(ss[..|ss| - 1], f)
  }

  /** A getter returns the value last set for its field, or the field's value
      before the calls when none of them wrote it. */
  lemma {:induction false} GetterReturnsLastSet(g: Game, ss: seq<Setter>, f: Field)
    ensures Get(ApplyAll(g, ss), f) == LastWrite(ss, f).GetOr(Get(g, f))
    decreases |ss|
  {
    if |ss| > 0 {
      GetterReturnsLastSet(g, ss[..|ss| - 1], f);
    }
  }

  /** No setter call ever writes the winner, so it stays absent. */
  lemma {:induction false} WinnerAbsentUntilSet(g: Game, ss: seq<Setter>)
    requires g.winner.None?
    requires forall i :: 0 <= i < |ss| ==> !ss[i].SetWinner?
    ensures ApplyAll(g, ss).winner.None?
    decreases |ss|
  {
    if |ss| > 0 {
      WinnerAbsentUntilSet(g, ss[..|ss| - 1]);
    }
  }

  /** Passing one array to both card setters makes the two hands the same
      array: a write through either is seen through the other. */
  lemma HandSettersAlias(h: Heap, g: Game, a: ArrayRef, i: int, v: Int32)
    requires a in h.arrays && 0 <= i < |h.arrays[a]|
    ensures var g' := ApplyAll(g, [SetPlayer1Cards(a), SetPlayer2Cards(a)]);
            var written: seq<Int32> := h.arrays[a][i := v];
            var h' := h.(arrays := h.arrays[g'.player1Cards := written]);
            Hand2(h', g')[i] == v && Hand1(h', g') == Hand2(h', g')
  {
    var ss := [SetPlayer1Cards(a), SetPlayer2Cards(a)];
    assert ss[..1] == [SetPlayer1Cards(a)];
    assert ss[..1][..0] == [];
  }

  // ---------------------------------------------------------------------------
  // The JSON view of a game

  /** A game as serialised to JSON: every getter, with the card arrays read
      out of the heap. The client receives exactly these values. */
  datatype Snapshot = Snapshot(
    gameId: Option<string>,
    player1: Option<User>,
    player2: Option<User>,
    status: Option<Status>,
    player1Cards: seq<int>,
    player2Cards: seq<int>,
    currentTurn: Option<User>,
    winner: Option<User>)

  /** The serialised form of the game at `r`. */
  function Serialize(h: Heap, r: GameRef): (s: Snapshot)
    requires HandsAllocated(h, r)
    ensures s.player1Cards == Hand1(h, h.games[r]) && s.player2Cards == Hand2(h, h.games[r])
    ensures s.gameId == h.games[r].gameId && s.status == h.games[r].status
    ensures s.player1 == h.games[r].player1 && s.player2 == h.games[r].player2
    ensures s.currentTurn == h.games[r].currentTurn && s.winner == h.games[r].winner
    ensures h.games[r].player1Cards == h.games[r].player2Cards ==> s.player1Cards == s.player2Cards
  {
    var g := h.games[r];
    Snapshot(g.gameId, g.player1, g.player2, g.status, h.arrays[g.player1Cards],
             h.arrays[g.player2Cards], g.currentTurn, g.winner)
  }
}

/** `GameStorage`: the process-wide map from game id to game object. Keys are
    nullable strings as in a Java `HashMap`; values are references, so the map
    sees every in-place change of a stored game. */
module GameStorage {
  import opened Wrappers
  import opened GameModel

  datatype Storage = Storage(games: map<Option<string>, GameRef>)

  /** The storage as first created: it holds no games. */
  function Empty(): (st: Storage)
    ensures forall k :: k !in st.games
  {
    Storage(map[])
  }

  /** `getGames`: the live map itself, not a copy. */
  function GetGames(st: Storage): (m: map<Option<string>, GameRef>)
    ensures forall k :: k in m <==> k in st.games
    ensures forall k :: k in m ==> m[k] == st.games[k]
  {
    st.games
  }

  /** `setGame`: stores the game at `r` under the id it carries now, replacing
      whatever was stored under that id and leaving every other id alone. */
  function SetGame(st: Storage, h: Heap, r: GameRef): (st': Storage)
    requires r in h.games
    ensures h.games[r].gameId in st'.games && st'.games[h.games[r].gameId] == r
    ensures st'.games.Keys == st.games.Keys + {h.games[r].gameId}
    ensures forall k :: k in st.games && k != h.games[r].gameId ==> st'.games[k] == st.games[k]
  {
    Storage(st.games[h.games[r].gameId := r])
  }

  /** Storing a game that is already stored under its own id changes nothing. */
  lemma SetGameStoredIsNoOp(st: Storage, h: Heap, r: GameRef)
    requires r in h.games && h.games[r].gameId in st.games && st.games[h.games[r].gameId] == r
    ensures SetGame(st, h, r) == st
  {
  }

  /** Because the map `getGames` returns holds references, an in-place change
      to a stored game is what a later `getGames().get(k)` returns, with no
      call of `setGame`. */
  lemma InPlaceEditVisible(st: Storage, h: Heap, k: Option<string>, g': Game)
    requires forall q :: q in st.games ==> st.games[q] in h.games
    requires k in GetGames(st)
    ensures var h' := h.(games := h.games[GetGames(st)[k] := g']);
            GetGames(st) == st.games && GetGames(st)[k] in h'.games && h'.games[GetGames(st)[k]] == g'
  {
  }
}

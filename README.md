# Toguz Kumalak front end: board, move history and controller

This project models the game-state logic of a small Toguz Kumalak GUI
(`main.py`) with its widgets removed, and proves properties of it in Dafny.

- **Board** (`board.dfy`): `ToguzBoard` is a value of 18 pit counts, the
  pair of kazans (stores) and the side to move. `LegalMoves` is the code's
  placeholder generator: the nonempty pits of the mover's row. `ApplyMove`
  is the code's placeholder rule: empty the chosen pit and flip the turn
  with `^= 1`, modelled by `Xor1`.
- **Notation** (`notation.dfy`): history labels `"P:<pit+1>"` and
  `"AI:<pit+1>"`. Python's `str()` of a non-negative int becomes `Decimal`.
  `ParseMove` is an independent inverse, proved to read every label back.
- **History** (`history.dfy`): `MoveRecord(ply, notation, snapshot)` and the
  `MoveHistory` class. Its `records` field is the list that `add` appends
  to in place. `Rewind` and `Table` are the pure reads behind `rewind_to`
  and `as_table`. The ledger invariant is `records[i].ply == i + 1`.
- **Replay** (`replay.dfy`): a history is a replayable log. Each record
  names a legal move of the board before it, and its snapshot is that move
  applied. Playing the notations from the starting position rebuilds the
  current board. After n plies side n % 2 is to move and 18 - n pits are
  nonempty, so no game lasts beyond 18 plies.
- **Controller** (`controller.dfy`): the pure step functions `Played`,
  `EngineReply`, `Click` and `Select` act on a `GameState(board, records)`.
  The `GameController` class holds `board` and `history` as fields. Its
  methods `ApplyMove`, `EngineMove`, `PlayerClick`, `SelectRow` and
  `TableEvent` mirror `_apply_move`, `_engine_move` and the two event
  handlers of `run`. Each is proved to perform exactly its step function and
  to keep the invariant `Consistent`: dense plies, 18 pits everywhere, and
  the current board equal to the board the history ends in. `PushHistory`
  mirrors `_push_history` without the table refresh: it only appends the
  current board under the given label. `ApplyMove` calls it right after
  changing the board, a point where `Consistent` does not hold, so it
  neither needs nor promises that invariant.
- `options.dfy`: the `Option` type for "no pit hit" and for parse failures.

Points where the code differs from its own documentation, or behaves in a way worth stating:

- `rewind_to(p)` returns the snapshot taken *after* ply p (the starting
  position for p = 0). Its docstring says "the board before the given ply".
  The model follows the code: `Rewind(rs, p)` is the board before ply p + 1.
- The table handler passes the 0-based row index as the ply. Selecting the
  row that shows ply k therefore restores the board before ply k and drops
  that record and every later one. The model does the same.
- After a rewind to an odd ply, side 1 (the top row) is to move, and the
  next accepted click plays a top-row pit; the engine then replies for the
  bottom row. `ReachableBounds` states the rule: the side to move is the
  ply count modulo 2.
- The placeholder rule discards seeds. No seed-conservation property holds,
  and none is claimed.

## Model

| member | source | states |
|---|---|---|
| Board.Default | main.py:50-52 | the default board has 18 pits, each holding 9, kazans (0, 0) and turn 0 |
| Board.Xor1 | main.py:66 | `turn ^= 1` keeps every bit but the lowest and changes the value; it maps 0 to 1 and 1 to 0 |
| Board.Xor1Involutive | main.py:66 | flipping the turn twice restores it |
| Board.NonEmptyIn | main.py:58-60 | the comprehension over range(lo, hi) yields exactly the indices in [lo, hi) with a positive count, strictly ascending |
| Board.LegalMoves | main.py:55-60 | an index is a legal move iff it lies in the mover's row (0..8 for turn 0, 9..17 otherwise) and its pit is positive; the list is strictly ascending |
| Board.DefaultLegalMoves | main.py:50-60 | on the starting position the legal moves are exactly [0, ..., 8] |
| Board.ApplyMove | main.py:62-69 | the new board has the same number of pits, pit p emptied, every other pit and both kazans unchanged, and the turn flipped (0 and 1 swap) |
| Board.EmptyingLowersCount | main.py:68 | emptying a nonempty pit lowers the number of nonempty pits by exactly one |
| Notation.Decimal | main.py:243 | the decimal spelling of a natural number is a nonempty digit string with no leading zero |
| Notation.DecimalRoundTrip | main.py:243 | reading the decimal spelling back gives the number |
| Notation.NotationRoundTrip | main.py:243 | the label "AI:k+1" or "P:k+1" parses back to (by_engine, k) |
| Notation.NotationInjective | main.py:243 | two different moves never get the same label |
| Notation.MoveNotation | main.py:243 | the label is "AI:" or "P:" followed by the decimal spelling of pit + 1; NotationRoundTrip and NotationInjective state that it identifies the move |
| Notation.ParseMove | main.py:243 | a label that parses starts with "AI:" for engine moves and "P:" for player moves |
| History.Appended | main.py:91-94 | add puts exactly one record at the end, with ply old length + 1, the given notation and snapshot, earlier records unchanged; it preserves the dense-ply invariant |
| History.MoveHistory.Add | main.py:91-94 | the records become the old records with that one record appended, and the ledger invariant is kept |
| History.MoveHistory.constructor | main.py:87-88 | a new history is empty |
| History.Rewind | main.py:96-100 | ply 0 gives the default board whatever the length; ply p in 1..len gives the snapshot of record p - 1, which holds ply p |
| History.MoveHistory.RewindTo | main.py:96-100 | ply 0 gives the default board; ply p in 1..len gives record p - 1's snapshot, which under the invariant holds ply p; a read that changes nothing |
| History.MoveHistory.AsTable | main.py:107-108 | one (ply, notation) row per record, in record order, showing ply i + 1 in row i under the invariant; a read that changes nothing |
| History.Table | main.py:107-108 | one (ply, notation) row per record, in record order; under the invariant row i shows ply i + 1 |
| History.TruncateKeepsLedger | main.py:271-272 | keeping the first k records keeps the dense-ply invariant, and the table shows exactly its first k rows |
| History.TruncateKeepsRewind | main.py:269-271 | after truncating to k records, rewinding to any ply up to k gives the same board as before |
| History.TruncateThenAppend | main.py:91-94 | after truncating to k records, the next added record gets ply k + 1 and the invariant holds |
| Replay.Step | main.py:62-69 | a step succeeds only when the label parses to a legal move of the board, and then yields that move applied |
| Replay.StepOfLegalMove | main.py:243-244 | conversely, the label of any legal move steps to exactly that move applied |
| Replay.Notations | main.py:107-108 | the notation column has one entry per record, in record order |
| Replay.ReplayablePrefix | main.py:271 | every prefix of a replayable history is replayable |
| Replay.AppendKeepsReplayable | main.py:244-245 | appending one legal step of the current board keeps the history replayable |
| Replay.PlayRebuilds | main.py:243-245 | playing a replayable history's notations from the starting position rebuilds its last board |
| Replay.PlayRebuildsRewind | main.py:96-100 | playing the first p notations rebuilds the board that rewind_to(p) returns |
| Replay.StepEffect | main.py:62-69 | a legal step keeps 18 pits, flips the turn and empties exactly one nonempty pit |
| Replay.ReplayableBounds | main.py:50-69 | after n replayable plies the board has 18 pits, side n % 2 to move, 18 - n nonempty pits, and n <= 18 |
| Controller.Played | main.py:242-245 | the new board is the old one with the move applied, and exactly one record (ply n + 1, its label, the new board) is appended; the controller invariant is kept |
| Controller.EngineReply | main.py:232-239 | with no legal move nothing changes (game over); otherwise the first legal move is played and recorded as an engine move |
| Controller.Click | main.py:260-264 | a click that is None or not a legal pit changes nothing; every click keeps the controller invariant |
| Controller.ClickRecords | main.py:242-250 | a legal click on pit k appends "P:k+1" with the board after it, then, if the engine has legal moves, "AI:j+1" for its first legal pit j: growth 2, otherwise growth 1 (game over) |
| Controller.Select | main.py:267-271 | selecting row r makes rewind_to(r) current and keeps the first r records in order; for r > 0 the board is record r - 1's snapshot; the invariant is kept |
| Controller.SelectIdempotent | main.py:267-271 | selecting the same row twice equals selecting it once |
| Controller.SelectThenClick | main.py:267-271 | after selecting row r, the next recorded move gets ply r + 1 and the first r records stay |
| Controller.GameOverIsFinal | main.py:263 | once the side to move has no legal move, every click is a no-op |
| Controller.InitialIsReplayable | main.py:129-130 | the starting state is consistent and its empty history is replayable |
| Controller.PlayedKeepsReplayable | main.py:242-245 | recording a legal move keeps the history a replayable log |
| Controller.ClickKeepsReplayable | main.py:260-264 | every board click keeps the history a replayable log |
| Controller.SelectKeepsReplayable | main.py:267-271 | every row selection keeps the history a replayable log |
| Controller.ReachableBounds | main.py:50-69 | in a reachable state the side to move is the ply count modulo 2, at most 18 plies are recorded, and replaying them rebuilds the board |
| Controller.GameController.constructor | main.py:129-130 | the controller starts from the default board and an empty history |
| Controller.GameController.PushHistory | main.py:227-228 | the current board is appended to the history under the given notation; the board itself is outside its frame |
| Controller.GameController.ApplyMove | main.py:242-250 | the board becomes the move applied and the move is recorded; after a player's move the engine replies; the new state is exactly Played or EngineReply of Played |
| Controller.GameController.EngineMove | main.py:232-239 | the new state is exactly EngineReply of the old one |
| Controller.GameController.PlayerClick | main.py:260-264 | the new state is exactly Click of the old one |
| Controller.GameController.SelectRow | main.py:267-273 | the new state is exactly Select of the old one: board rewound, history truncated to r records |
| Controller.GameController.TableEvent | main.py:267-268 | an empty selection changes nothing; otherwise the first selected row is selected |

## Left out

- All PySimpleGUI code: window, graph and table construction, `_draw_board`,
  `table.update`, the game-over popup, the `window.read` event loop and the
  close handling. They are display and foreign-library calls. Input arrives
  as the arguments of `PlayerClick` and `TableEvent`.
- `_screen_to_pit` hit-testing. It is floating-point geometry over a live
  widget size. Its result arrives as the `Option<int>` argument of
  `PlayerClick`.
- The import guard, the Python version check and `main`: start-up plumbing.
- `ToguzBoard.copy` and the `copy.deepcopy` calls. Boards are immutable
  values here, so a copy is the value itself, and no aliasing is modelled.
- `MoveHistory.headings`: a constant pair of column titles, used only for
  display.
- Real sowing, capture or seed conservation. The code's rule is a
  placeholder that discards seeds.
- Boards whose pit list does not have 18 entries. Nothing in the code builds
  one, so `LegalMoves` requires 18 pits. Python would also accept a longer
  list.
- Negative or too-large plies in `rewind_to` and the table handler. Python
  would wrap a negative index and raise an error past the end. `SelectRow`
  requires `r <= len`, and a table row index is always below it.
- Negative pit indices in `apply_move`, where Python would wrap. Callers
  only pass legal pits, so `ApplyMove` takes a `nat` below the pit count.

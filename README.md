# Transfer-window player claim, modelled in Dafny

This project models the shared player object of a small transfer-market
simulation. One player record (`Pemain`) is loaded from a database and
shared by several recruit tasks, one per button press, that run on a
thread pool; the same club may have several tasks in flight.
A reset button also acts on the same record. The player object's two
operations are `synchronized` on the same instance:

- `rekrutPemain` signs the player for a club. It succeeds only when the
  status is exactly `"Tersedia"`. A negotiation delay follows, which may be
  interrupted. Then the new pair (`"Dikontrak"`, club) is written to memory
  and sent to the database. If the database refuses the update, memory is
  rolled back to `"Tersedia"` / `"Barcelona"`.
- `resetStatus` sets `"Tersedia"` / `"Barcelona"` and sends that pair to the
  database. Memory stays reset whatever the database answers.

Because both operations hold the object's monitor for their whole body, every
concurrent history is a sequence of whole calls. The model is therefore
sequential:

- `transitions.dfy` (module `Transitions`) gives each operation as a pure
  function of the in-memory pair. The result includes the database update
  the operation sent and the notices it sent to the window.
- `pemain.dfy` (module `Players`) is the object itself. It is a class with
  the source's fields, and its methods update them step by step, as the
  source does. The database connection and the window are reduced to logs:
  `DatabaseManager.updates` and `Gui.notices`.
- `schedule.dfy` (module `Schedule`) runs sequences of operations in the
  order the lock admits them, and proves these properties:
  - between resets at most one recruit succeeds;
  - after a successful recruit the winner keeps the player, at every later
    point until the next reset;
  - from a canonical loaded pair ("Tersedia" only with holder "Barcelona")
    that matches the row, memory and the database row agree, except after a
    reset whose write failed.

The environment's choices are parameters. `interrupted` says whether
`Thread.sleep` was interrupted. `persistOk` is the answer of
`DatabaseManager.updateStatusPemain`, consulted only when the update is sent.

The model follows these details of the code:

- The holder of a free player is the literal club name `"Barcelona"`
  (src/Pemain.java:95).
- A failed recruit write rolls the holder back to `"Barcelona"` whatever the
  holder was before the call (src/Pemain.java:76-77). So memory and the
  database row agree after such a failure only when a free player was
  already held by `"Barcelona"`. `Schedule.MemoryMatchesDatabase` assumes
  that condition (`Canonical`), and `Schedule.RollbackNeedsCanonical` shows
  that without it a refused recruit write leaves memory and row disagreeing.
- Any status other than exactly `"Tersedia"` counts as taken, including
  strings that are neither `"Tersedia"` nor `"Dikontrak"`. The constructor
  accepts any strings.
- A recruit attempt returns only `true` or `false`. Losing, an interrupted
  delay and a refused write are told apart by the state, the notices and
  the absence or presence of a database update, not by separate result values.

## Model

| member | source | states |
|---|---|---|
| `Transitions.Recruit` | src/Pemain.java:38-86 | the recruit succeeds exactly when the status is "Tersedia", the delay is not interrupted and the database accepts; if the player is taken or the delay is interrupted, nothing changes and nothing is written; otherwise exactly one update (id, "Dikontrak", club) is sent; a win leaves ("Dikontrak", club); a refused write leaves ("Tersedia", "Barcelona") whatever the old holder; the status label is redrawn only on a win and then shows the new pair; a confirmed write always carries the pair now in memory; a canonical pair stays canonical |
| `Transitions.Reset` | src/Pemain.java:91-105 | from any pair the result is ("Tersedia", "Barcelona"), whether or not the database accepts; exactly one update (id, "Tersedia", "Barcelona") is sent; the label is redrawn exactly when the write is confirmed, and shows the reset pair |
| `Transitions.ResetIdempotent` | src/Pemain.java:94-95 | resetting twice gives the same pair as resetting once; resetting a free, home-held pair leaves it unchanged |
| `Players.DatabaseManager.UpdateStatusPemain` | latihan_barca_transfer/src/DatabaseManager.java:78-103 | returns the database's answer and logs exactly one request carrying the id, status and holder it was given |
| `Players.Gui.Log` | src/MainApp.java:133-141 | appends exactly one notice to the window's log |
| `Players.Gui.UpdateStatusLabel` | src/MainApp.java:147-151 | appends one status-label update showing the given pair |
| `Players.Pemain.constructor` | src/Pemain.java:17-23 | stores the given id, name, status, holder and database connection unchanged, with no consistency demanded between status and holder |
| `Players.Pemain.GetNamaPemain` | src/Pemain.java:26 | returns the player's name |
| `Players.Pemain.GetStatus` | src/Pemain.java:27 | returns the current status |
| `Players.Pemain.GetDikontrakOleh` | src/Pemain.java:28 | returns the current holder |
| `Players.Pemain.RekrutPemain` | src/Pemain.java:38-86 | the result, the new status and holder, the updates appended to the database's log and the notices appended to the window's log are exactly those of `Recruit` on the pair before the call; id and name are constants |
| `Players.Pemain.ResetStatus` | src/Pemain.java:91-105 | the new pair, the appended database update and the appended notices are exactly those of `Reset`; memory is reset even when the write fails |
| `Schedule.Run` | src/MainApp.java:114-127 | a serialized history of recruit tasks and resets yields one result per operation |
| `Schedule.TakenStaysTaken` | src/Pemain.java:46-85 | from any status other than exactly "Tersedia", every recruit in a reset-free sequence fails, the pair is unchanged and no database update is sent |
| `Schedule.WinnerKeepsPlayer` | src/Pemain.java:38-86 | in a reset-free sequence, if the k-th recruit succeeds then every other recruit fails, and afterwards the player is ("Dikontrak", the k-th club) |
| `Schedule.RunPrefixResults` | src/MainApp.java:114-127 | the results of a prefix of a serialized history are the first results of the whole history: later operations do not change earlier outcomes |
| `Schedule.WinnerHoldsAfter` | src/Pemain.java:38-86 | in a reset-free sequence whose k-th recruit succeeds, after every later prefix the player is ("Dikontrak", the k-th club) and no other recruit in that prefix has succeeded |
| `Schedule.AtMostOneWinner` | src/Pemain.java:38-86 | from any starting pair, a reset-free sequence of recruits has at most one success |
| `Schedule.FirstCleanClaimWins` | src/Pemain.java:46-71 | from "Tersedia", if no delay is interrupted and the database accepts every update, exactly one recruit succeeds and it is the first admitted; the player ends held by that club |
| `Schedule.MemoryMatchesDatabase` | src/Pemain.java:60-78 | from a canonical pair that matches the row, after any sequence whose reset writes all succeed, the pair in memory equals the row the confirmed updates produce, and stays canonical |
| `Schedule.ResetFailureLeavesRowStale` | src/Pemain.java:94-104 | a reset whose write fails, from any pair other than ("Tersedia", "Barcelona"), leaves memory different from the database row |
| `Schedule.RollbackNeedsCanonical` | src/Pemain.java:72-78 | from a free pair held by any club other than "Barcelona" that matches the row, a recruit whose write is refused leaves memory ("Tersedia", "Barcelona") while the row keeps the old holder, so the `Canonical` premise of `MemoryMatchesDatabase` cannot be dropped |
| `Schedule.Enter` | src/TugasTransfer.java:25-33 | one admitted call (a recruit task's single `rekrutPemain`, or a reset) extends the object's history by exactly that operation's outcome |
| `Schedule.Serve` | src/MainApp.java:114-127 | carrying out a sequence of operations on the player object yields the results, final pair, database updates and notices of `Run` |

## Left out

- The lock itself, thread interleaving, lock fairness and the thread pool: the model assumes the serialization that `synchronized` provides and takes the admission order as the order of the given sequence.
- The one-second sleep and its timing. Only whether it was interrupted is modelled. Re-setting the thread's interrupt flag is not modelled, because it is thread state and not state of the player.
- The log text and the thread names in log lines. Notices carry only their kind and, where the text shows them, the status and holder.
- JDBC, SQL, the driver and the connection (`DatabaseManager` constructor, `getPemain`, `closeConnection`). The database's answer is a parameter, and a confirmed update is taken to change the row it names. The load at start-up is the `Pemain` constructor with arbitrary strings, and the exit on a missing record is not modelled.
- Schedule.MemoryMatchesDatabase: assumes a refused update leaves the row unchanged, as `Stored` does. The source's update also answers false on any `SQLException` (latihan_barca_transfer/src/DatabaseManager.java:99-101), and then the server may already have applied it; memory and row can then disagree in ways the lemma does not cover.
- Null strings: a status loaded as SQL NULL would make `status.equals` throw in the source. The model's strings are never null.
- The Swing layout, the buttons and `SwingUtilities.invokeLater` marshaling (`MainApp` apart from the two reporting methods). `Gui` keeps only what the player object sends.
- Schedule.Run: its own contract only gives the length of the result list. The single-winner, holder and consistency properties are the separate lemmas above.

/**
 The shared player object and the two collaborators it talks to.

 `Pemain` holds the player's identity (fixed at construction) and the mutable
 pair status / holder. Its two operations are synchronized on the object, so
 every concurrent history is some sequential order of calls; the model is
 therefore sequential, and the lock itself is not represented.

 The database and the user interface appear only as logs of what the player
 object asked of them: `DatabaseManager` records each status update together
 with the answer the database gave (a parameter, since the database is
 outside the model), and `Gui` records each notice.
 */
module Players {
  import opened Transitions

  /** The database connection, reduced to the log of status updates sent to it. */
  class DatabaseManager {
    var updates: seq<Write>

    constructor ()
      ensures updates == []
    {
      updates := [];
    }

    /** Asks the database to store `statusBaru` / `dibeliOleh` for the row
        `idPemain`; `answer` is whether the database reports the row written. */
    method UpdateStatusPemain(idPemain: string, statusBaru: string, dibeliOleh: string, answer: bool)
      returns (ok: bool)
      modifies this
      ensures ok == answer
      ensures updates == old(updates) + [Write(idPemain, statusBaru, dibeliOleh, ok)]
    {
      ok := answer;
      updates := updates + [Write(idPemain, statusBaru, dibeliOleh, ok)];
    }
  }

  /** The window, reduced to the sequence of notices it was sent. */
  class Gui {
    var notices: seq<Notice>

    constructor ()
      ensures notices == []
    {
      notices := [];
    }

    method Log(n: Notice)
      modifies this
      ensures notices == old(notices) + [n]
    {
      notices := notices + [n];
    }

    method UpdateStatusLabel(status: string, holder: string)
      modifies this
      ensures notices == old(notices) + [Label(status, holder)]
    {
      notices := notices + [Label(status, holder)];
    }
  }

  /** The contended player. */
  class Pemain {
    const idPemain: string
    const namaPemain: string
    var status: string
    var dikontrakOleh: string
    const dbManager: DatabaseManager

    /** The mutable pair as a value. */
    function Current(): State
      reads this
    {
      State(status, dikontrakOleh)
    }

    /** Any strings are accepted: nothing ties the loaded status to the holder. */
    constructor (idPemain: string, namaPemain: string, status: string, dikontrakOleh: string,
                 dbManager: DatabaseManager)
      ensures this.idPemain == idPemain && this.namaPemain == namaPemain
      ensures this.status == status && this.dikontrakOleh == dikontrakOleh
      ensures this.dbManager == dbManager
    {
      this.idPemain := idPemain;
      this.namaPemain := namaPemain;
      this.status := status;
      this.dikontrakOleh := dikontrakOleh;
      this.dbManager := dbManager;
    }

    method GetNamaPemain() returns (n: string)
      ensures n == namaPemain
    {
      n := namaPemain;
    }

    method GetStatus() returns (s: string)
      ensures s == status
    {
      s := status;
    }

    method GetDikontrakOleh() returns (h: string)
      ensures h == dikontrakOleh
    {
      h := dikontrakOleh;
    }

    /** Tries to sign the player for `namaKlub`. `interrupted` says whether the
        negotiation delay was interrupted; `persistOk` is the database's answer
        to the update, consulted only if the update is sent. */
    method RekrutPemain(namaKlub: string, gui: Gui, interrupted: bool, persistOk: bool)
      returns (ok: bool)
      modifies this, dbManager, gui
      ensures ok == Recruit(old(Current()), idPemain, namaKlub, interrupted, persistOk).recruited
      ensures Current() == Recruit(old(Current()), idPemain, namaKlub, interrupted, persistOk).effect.after
      ensures dbManager.updates ==
              old(dbManager.updates) + Recruit(old(Current()), idPemain, namaKlub, interrupted, persistOk).effect.writes
      ensures gui.notices ==
              old(gui.notices) + Recruit(old(Current()), idPemain, namaKlub, interrupted, persistOk).effect.notices
    {
      gui.Log(Trying);
      gui.Log(Seen(status));
      if status == Available {
        gui.Log(Negotiating);
        if interrupted {
          gui.Log(NegotiationInterrupted);
          return false;
        }
        // tentative update in memory, then persist
        status := Contracted;
        dikontrakOleh := namaKlub;
        var updateBerhasil := dbManager.UpdateStatusPemain(idPemain, status, dikontrakOleh, persistOk);
        if updateBerhasil {
          gui.Log(Recruited);
          gui.UpdateStatusLabel(status, dikontrakOleh);
          return true;
        } else {
          gui.Log(WriteFailed);
          // roll back in memory
          status := Available;
          dikontrakOleh := HomeClub;
          return false;
        }
      } else {
        gui.Log(TooLate(status, dikontrakOleh));
        return false;
      }
    }

    /** Makes the player available again; the in-memory pair is reset before
        the update and kept whatever the database answers. */
    method ResetStatus(gui: Gui, persistOk: bool)
      modifies this, dbManager, gui
      ensures Current() == Reset(old(Current()), idPemain, persistOk).after
      ensures dbManager.updates == old(dbManager.updates) + Reset(old(Current()), idPemain, persistOk).writes
      ensures gui.notices == old(gui.notices) + Reset(old(Current()), idPemain, persistOk).notices
    {
      gui.Log(Resetting);
      status := Available;
      dikontrakOleh := HomeClub;
      var updateBerhasil := dbManager.UpdateStatusPemain(idPemain, status, dikontrakOleh, persistOk);
      if updateBerhasil {
        gui.Log(ResetDone);
        gui.UpdateStatusLabel(status, dikontrakOleh);
      } else {
        gui.Log(ResetFailed);
      }
    }
  }
}

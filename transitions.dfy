/**
 The state transitions of one contended player record, as pure functions.

 A player is either free ("Tersedia", held by the home club "Barcelona") or
 under contract ("Dikontrak", held by the recruiting club). The two
 synchronized operations of the shared player object, recruiting and
 resetting, are given here as functions from the in-memory pair to its new
 value, the database update they request and the notices they send to the
 user interface. The environment's choices are parameters: whether the
 negotiation delay was interrupted, and what the database answered.
 */
module Transitions {

  /** Status value of a player nobody has signed. */
  const Available: string := "Tersedia"
  /** Status value of a player under contract. */
  const Contracted: string := "Dikontrak"
  /** Holder written whenever the player is made available again. */
  const HomeClub: string := "Barcelona"

  /** The two mutable fields of the player: status and the club holding it. */
  datatype State = State(status: string, holder: string)

  /** One call of the database update: the row id, the pair sent, and whether
      the database reported the row as written. */
  datatype Write = Write(id: string, status: string, holder: string, ok: bool)

  /** What the player object reports to the user interface, in order: the
      log lines (without their wording) and the status-label updates. */
  datatype Notice =
    | Trying                          // start of a recruit attempt
    | Seen(status: string)            // the status found on entry
    | Negotiating                     // the negotiation delay begins
    | NegotiationInterrupted          // the delay was interrupted
    | Recruited                       // the recruit was persisted
    | WriteFailed                     // the database refused the recruit
    | TooLate(status: string, holder: string) // the player was already taken
    | Resetting                       // start of a reset
    | ResetDone                       // the reset was persisted
    | ResetFailed                     // the database refused the reset
    | Label(status: string, holder: string)   // the status label is redrawn

  /** What one operation does: the new in-memory pair, the database updates it
      asked for and the notices it sent. */
  datatype Effect = Effect(after: State, writes: seq<Write>, notices: seq<Notice>)

  /** The result of a recruit attempt together with its effect. */
  datatype Outcome = Outcome(recruited: bool, effect: Effect)

  /** A state is canonical when "available" comes with the home club as holder,
      which is the only way recruiting and resetting ever make it available. */
  predicate Canonical(s: State) {
    s.status == Available ==> s.holder == HomeClub
  }

  /** The status label is redrawn in `ns` exactly when `shown`, and then only
      with the pair `s`. */
  predicate LabelsShow(ns: seq<Notice>, shown: bool, s: State) {
    (shown ==> Label(s.status, s.holder) in ns) &&
    forall n :: n in ns && n.Label? ==> shown && n == Label(s.status, s.holder)
  }

  /** Recruiting the player for `club`. Only the exact status "Tersedia" counts
      as free; the delay may be interrupted; otherwise the new pair is written
      to memory, sent to the database, and rolled back if the database refuses. */
  function Recruit(s: State, id: string, club: string, interrupted: bool, persistOk: bool): (o: Outcome)
    // a win needs a free player, an uninterrupted delay and a confirmed write
    ensures o.recruited <==> s.status == Available && !interrupted && persistOk
    // a taken player, or an interrupted delay: nothing changes, nothing is written
    ensures s.status != Available || interrupted ==> o.effect.after == s && o.effect.writes == []
    // otherwise exactly one write, of the tentative pair for this id
    ensures s.status == Available && !interrupted ==>
              o.effect.writes == [Write(id, Contracted, club, persistOk)]
    // on a win the player is held by the recruiting club
    ensures o.recruited ==> o.effect.after == State(Contracted, club)
    // on a refused write the pair is reset to the home club, whatever the old holder
    ensures s.status == Available && !interrupted && !persistOk ==>
              o.effect.after == State(Available, HomeClub)
    // the only status-label update is the one on a win, and it shows the new pair
    ensures LabelsShow(o.effect.notices, o.recruited, o.effect.after)
    // when a write was made, the database got exactly the pair now in memory
    ensures forall k :: 0 <= k < |o.effect.writes| && o.effect.writes[k].ok ==>
              State(o.effect.writes[k].status, o.effect.writes[k].holder) == o.effect.after
    ensures Canonical(s) ==> Canonical(o.effect.after)
  {
    if s.status == Available then
      if interrupted then
        Outcome(false, Effect(s, [], [Trying, Seen(s.status), Negotiating, NegotiationInterrupted]))
      else
        var w := Write(id, Contracted, club, persistOk);
        if persistOk then
          Outcome(true, Effect(State(Contracted, club), [w],
                               [Trying, Seen(s.status), Negotiating, Recruited, Label(Contracted, club)]))
        else
          Outcome(false, Effect(State(Available, HomeClub), [w],
                                [Trying, Seen(s.status), Negotiating, WriteFailed]))
    else
      Outcome(false, Effect(s, [], [Trying, Seen(s.status), TooLate(s.status, s.holder)]))
  }

  /** Resetting the player: the pair becomes free and home-held in memory
      before the write, and stays so whatever the database answers. */
  function Reset(s: State, id: string, persistOk: bool): (e: Effect)
    ensures e.after == State(Available, HomeClub) && Canonical(e.after)
    ensures e.writes == [Write(id, Available, HomeClub, persistOk)]
    // the status label is redrawn exactly when the write was confirmed
    ensures LabelsShow(e.notices, persistOk, e.after)
  {
    var after := State(Available, HomeClub);
    var w := Write(id, after.status, after.holder, persistOk);
    if persistOk then
      Effect(after, [w], [Resetting, ResetDone, Label(after.status, after.holder)])
    else
      Effect(after, [w], [Resetting, ResetFailed])
  }

  /** Resetting twice leaves the same pair as resetting once, and a reset of a
      pair that is already free and home-held does not change it. */
  lemma ResetIdempotent(s: State, id: string, ok1: bool, ok2: bool)
    ensures Reset(Reset(s, id, ok1).after, id, ok2).after == Reset(s, id, ok1).after
    ensures s == State(Available, HomeClub) ==> Reset(s, id, ok1).after == s
  {
  }
}

/**
 Serialized histories of the shared player.

 Recruit tasks run on a thread pool and the reset button runs on the event
 thread, but every one of them enters the same synchronized player object,
 so any history is a sequence of operations applied one after another. This
 module runs such sequences and proves what the locking is for: between two
 resets at most one recruit succeeds, and the winner keeps the player.
 */
module Schedule {
  import opened Transitions
  import opened Players

  /** One recruit task: the club it recruits for, and the environment's
      choices for its run (interrupted delay, database answer). */
  datatype Request = Request(club: string, interrupted: bool, persistOk: bool)

  /** One entry into the player object: a recruit task or a reset. */
  datatype Op = Claim(req: Request) | ResetOp(persistOk: bool)

  /** What a sequence of operations did: the result of each (false for a
      reset), the final pair, and all database updates and notices in order. */
  datatype Trace = Trace(results: seq<bool>, final: State, writes: seq<Write>, notices: seq<Notice>)

  function Apply(s: State, id: string, op: Op): Outcome {
    match op
    case Claim(r) => Recruit(s, id, r.club, r.interrupted, r.persistOk)
    case ResetOp(ok) => Outcome(false, Reset(s, id, ok))
  }

  /** Runs `ops` in order from the pair `s` of player `id`. */
  function Run(s: State, id: string, ops: seq<Op>): (t: Trace)
    ensures |t.results| == |ops|
    decreases |ops|
  {
    if ops == [] then Trace([], s, [], [])
    else
      var o := Apply(s, id, ops[0]);
      Prepend(o, Run(o.effect.after, id, ops[1..]))
  }

  predicate NoResets(ops: seq<Op>) {
    forall i :: 0 <= i < |ops| ==> ops[i].Claim?
  }

  /** The number of successful recruits among `results`. */
  function Wins(results: seq<bool>): nat {
    if results == [] then 0 else (if results[0] then 1 else 0) + Wins(results[1..])
  }

  lemma {:induction false} NoWins(results: seq<bool>)
    requires forall i :: 0 <= i < |results| ==> !results[i]
    ensures Wins(results) == 0
    decreases |results|
  {
    if results != [] {
      NoWins(results[1..]);
    }
  }

  lemma {:induction false} OneWin(results: seq<bool>, k: nat)
    requires k < |results| && results[k]
    requires forall j :: 0 <= j < |results| && j != k ==> !results[j]
    ensures Wins(results) == 1
    decreases |results|
  {
    if k == 0 {
      NoWins(results[1..]);
    } else {
      OneWin(results[1..], k - 1);
    }
  }

  /** The trace `t` followed by one more operation's outcome `o`. */
  function Extend(t: Trace, o: Outcome): Trace {
    Trace(t.results + [o.recruited], o.effect.after, t.writes + o.effect.writes, t.notices + o.effect.notices)
  }

  /** The outcome `o` followed by the trace `t`. */
  function Prepend(o: Outcome, t: Trace): Trace {
    Trace([o.recruited] + t.results, t.final, o.effect.writes + t.writes, o.effect.notices + t.notices)
  }

  lemma PrependExtend(o: Outcome, t: Trace, o': Outcome)
    ensures Prepend(o, Extend(t, o')) == Extend(Prepend(o, t), o')
  {
  }

  /** Running a sequence and then one more operation is running the longer sequence. */
  lemma {:induction false} RunStep(s: State, id: string, a: seq<Op>, op: Op)
    ensures Run(s, id, a + [op]) == Extend(Run(s, id, a), Apply(Run(s, id, a).final, id, op))
    decreases |a|
  {
    if a == [] {
      assert a + [op] == [op];
      assert [op][1..] == [];
    } else {
      var o := Apply(s, id, a[0]);
      assert (a + [op])[0] == a[0];
      assert (a + [op])[1..] == a[1..] + [op];
      var t := Run(o.effect.after, id, a[1..]);
      var o' := Apply(t.final, id, op);
      calc {
        Run(s, id, a + [op]);
        Prepend(o, Run(o.effect.after, id, a[1..] + [op]));
        { RunStep(o.effect.after, id, a[1..], op); }
        Prepend(o, Extend(t, o'));
        { PrependExtend(o, t, o'); }
        Extend(Prepend(o, t), o');
        Extend(Run(s, id, a), o');
      }
    }
  }

  /** The trace of a prefix one operation longer. */
  lemma RunPrefix(s: State, id: string, ops: seq<Op>, i: nat)
    requires i < |ops|
    ensures Run(s, id, ops[..i + 1]) == Extend(Run(s, id, ops[..i]), Apply(Run(s, id, ops[..i]).final, id, ops[i]))
  {
    assert ops[..i + 1] == ops[..i] + [ops[i]];
    RunStep(s, id, ops[..i], ops[i]);
  }

  /** Once the player is taken (any status other than exactly "Tersedia"),
      every further recruit fails and nothing changes or is written. */
  lemma {:induction false} TakenStaysTaken(s: State, id: string, ops: seq<Op>)
    requires s.status != Available && NoResets(ops)
    ensures forall i :: 0 <= i < |ops| ==> !Run(s, id, ops).results[i]
    ensures Run(s, id, ops).final == s
    ensures Run(s, id, ops).writes == []
    decreases |ops|
  {
    if ops != [] {
      TakenStaysTaken(s, id, ops[1..]);
    }
  }

  /** A recruit that succeeds is the only one until the next reset, and
      afterwards the player is held by the winning club. */
  lemma {:induction false} WinnerKeepsPlayer(s: State, id: string, ops: seq<Op>, k: nat)
    requires NoResets(ops) && k < |ops| && Run(s, id, ops).results[k]
    ensures forall j :: 0 <= j < |ops| && j != k ==> !Run(s, id, ops).results[j]
    ensures Run(s, id, ops).final == State(Contracted, ops[k].req.club)
    decreases |ops|
  {
    var o := Apply(s, id, ops[0]);
    if o.recruited {
      TakenStaysTaken(o.effect.after, id, ops[1..]);
      assert k == 0;
    } else {
      WinnerKeepsPlayer(o.effect.after, id, ops[1..], k - 1);
    }
  }

  /** Later operations do not change the outcomes of earlier ones. */
  lemma {:induction false} RunPrefixResults(s: State, id: string, ops: seq<Op>, j: nat)
    requires j <= |ops|
    ensures Run(s, id, ops[..j]).results == Run(s, id, ops).results[..j]
    decreases j
  {
    if j == 0 {
      assert ops[..0] == [];
    } else {
      var o := Apply(s, id, ops[0]);
      assert ops[..j][0] == ops[0];
      assert ops[..j][1..] == ops[1..][..j - 1];
      RunPrefixResults(o.effect.after, id, ops[1..], j - 1);
      var rest := Run(o.effect.after, id, ops[1..]).results;
      assert ([o.recruited] + rest)[..j] == [o.recruited] + rest[..j - 1];
    }
  }

  /** After a successful recruit the winner holds the player at every later
      point of a reset-free sequence, and nobody else has won so far. */
  lemma WinnerHoldsAfter(s: State, id: string, ops: seq<Op>, k: nat, j: nat)
    requires NoResets(ops) && k < j <= |ops| && Run(s, id, ops).results[k]
    ensures Run(s, id, ops[..j]).final == State(Contracted, ops[k].req.club)
    ensures forall i :: 0 <= i < j && i != k ==> !Run(s, id, ops[..j]).results[i]
  {
    RunPrefixResults(s, id, ops, j);
    assert ops[..j][k] == ops[k];
    WinnerKeepsPlayer(s, id, ops[..j], k);
  }

  /** At most one recruit succeeds in any run without resets, from any state. */
  lemma {:induction false} AtMostOneWinner(s: State, id: string, ops: seq<Op>)
    requires NoResets(ops)
    ensures Wins(Run(s, id, ops).results) <= 1
  {
    var t := Run(s, id, ops);
    if k :| 0 <= k < |ops| && t.results[k] {
      WinnerKeepsPlayer(s, id, ops, k);
      OneWin(t.results, k);
    } else {
      NoWins(t.results);
    }
  }

  /** When every task racing for a free player negotiates undisturbed and the
      database accepts, exactly one wins: the first admitted. */
  lemma {:induction false} FirstCleanClaimWins(s: State, id: string, ops: seq<Op>)
    requires s.status == Available && |ops| > 0
    requires forall i :: 0 <= i < |ops| ==>
               ops[i].Claim? && !ops[i].req.interrupted && ops[i].req.persistOk
    ensures Run(s, id, ops).results[0]
    ensures Wins(Run(s, id, ops).results) == 1
    ensures Run(s, id, ops).final == State(Contracted, ops[0].req.club)
  {
    WinnerKeepsPlayer(s, id, ops, 0);
    OneWin(Run(s, id, ops).results, 0);
  }

  /** The row of player `id` in the database, from `row`, after the updates
      it confirmed. */
  function Stored(row: State, id: string, writes: seq<Write>): State
    decreases |writes|
  {
    if writes == [] then row
    else
      var w := writes[0];
      Stored(if w.ok && w.id == id then State(w.status, w.holder) else row, id, writes[1..])
  }

  lemma {:induction false} StoredAppend(row: State, id: string, a: seq<Write>, b: seq<Write>)
    ensures Stored(row, id, a + b) == Stored(Stored(row, id, a), id, b)
    decreases |a|
  {
    if a == [] {
      assert a + b == b;
    } else {
      assert (a + b)[0] == a[0];
      assert (a + b)[1..] == a[1..] + b;
      var w := a[0];
      StoredAppend(if w.ok && w.id == id then State(w.status, w.holder) else row, id, a[1..], b);
    }
  }

  /** Memory and database agree after any run that starts from a loaded,
      canonical pair and in which no reset write fails. A failed recruit write
      rolls memory back to the home club, which is what the row still holds
      only because a free pair is always home-held. */
  lemma {:induction false} MemoryMatchesDatabase(s: State, id: string, ops: seq<Op>)
    requires Canonical(s)
    requires forall i :: 0 <= i < |ops| && ops[i].ResetOp? ==> ops[i].persistOk
    ensures Run(s, id, ops).final == Stored(s, id, Run(s, id, ops).writes)
    ensures Canonical(Run(s, id, ops).final)
    decreases |ops|
  {
    if ops != [] {
      var o := Apply(s, id, ops[0]);
      assert Stored(s, id, o.effect.writes) == o.effect.after;
      MemoryMatchesDatabase(o.effect.after, id, ops[1..]);
      StoredAppend(s, id, o.effect.writes, Run(o.effect.after, id, ops[1..]).writes);
    }
  }

  /** A reset whose write fails leaves memory free while the row keeps the
      old pair: the source only logs the failure and keeps memory reset. */
  lemma ResetFailureLeavesRowStale(s: State, id: string)
    requires s != State(Available, HomeClub)
    ensures Reset(s, id, false).after != Stored(s, id, Reset(s, id, false).writes)
  {
  }

  /** The rollback writes the home club whatever the old holder was, so from a
      free pair held by another club a refused recruit write leaves memory
      and row apart: the `Canonical` premise above is needed. */
  lemma RollbackNeedsCanonical(holder: string, id: string, club: string)
    requires holder != HomeClub
    ensures !Canonical(State(Available, holder))
    ensures Recruit(State(Available, holder), id, club, false, false).effect.after == State(Available, HomeClub)
    ensures Stored(State(Available, holder), id, Recruit(State(Available, holder), id, club, false, false).effect.writes)
            == State(Available, holder)
  {
  }

  /** One entry into the player object: the single call a recruit task makes,
      or a reset. On return, the observable history `t` of the object has been
      extended by that operation's outcome. */
  method Enter(p: Pemain, gui: Gui, op: Op, ghost t: Trace, ghost u0: seq<Write>, ghost n0: seq<Notice>)
    returns (ok: bool, ghost t': Trace)
    requires p.Current() == t.final
    requires p.dbManager.updates == u0 + t.writes && gui.notices == n0 + t.notices
    modifies p, p.dbManager, gui
    ensures t' == Extend(t, Apply(t.final, p.idPemain, op))
    ensures ok == Apply(t.final, p.idPemain, op).recruited
    ensures p.Current() == t'.final
    ensures p.dbManager.updates == u0 + t'.writes && gui.notices == n0 + t'.notices
  {
    ghost var o := Apply(t.final, p.idPemain, op);
    match op {
      case Claim(r) =>
        ok := p.RekrutPemain(r.club, gui, r.interrupted, r.persistOk);
      case ResetOp(k) =>
        p.ResetStatus(gui, k);
        ok := false;
    }
    t' := Extend(t, o);
    assert u0 + t.writes + o.effect.writes == u0 + (t.writes + o.effect.writes);
    assert n0 + t.notices + o.effect.notices == n0 + (t.notices + o.effect.notices);
  }

  /** Carries out `ops` on the player object in the given order: each recruit
      task's single call, or a reset, as the lock admits them. */
  method Serve(p: Pemain, gui: Gui, ops: seq<Op>) returns (results: seq<bool>)
    modifies p, p.dbManager, gui
    ensures results == Run(old(p.Current()), p.idPemain, ops).results
    ensures p.Current() == Run(old(p.Current()), p.idPemain, ops).final
    ensures p.dbManager.updates == old(p.dbManager.updates) + Run(old(p.Current()), p.idPemain, ops).writes
    ensures gui.notices == old(gui.notices) + Run(old(p.Current()), p.idPemain, ops).notices
  {
    ghost var s0 := p.Current();
    ghost var u0 := p.dbManager.updates;
    ghost var n0 := gui.notices;
    ghost var t := Run(s0, p.idPemain, []);
    results := [];
    var i := 0;
    while i < |ops|
      invariant 0 <= i <= |ops|
      invariant t == Run(s0, p.idPemain, ops[..i])
      invariant results == t.results && p.Current() == t.final
      invariant p.dbManager.updates == u0 + t.writes && gui.notices == n0 + t.notices
    {
      RunPrefix(s0, p.idPemain, ops, i);
      var ok;
      ok, t := Enter(p, gui, ops[i], t, u0, n0);
      results := results + [ok];
      i := i + 1;
    }
    assert ops[..|ops|] == ops;
  }
}

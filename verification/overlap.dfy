/** Why the results about outcomes assume that writers of one step never overlap: the code lets two
    deliveries of one step both pass its unguarded check, and then a finished step is undone. */
module Overlaps {
  import opened Model
  import opened Dag
  import opened Rules
  import opened Protocol
  import opened Claims
  import opened Outcomes
  import opened Stores
  import opened Handlers
  import opened Finality
  import opened Walks

  // ---- two messages for one step ----

  /** Messages `p` and `q` for step `n` stand at `sp` and `sq`, and the rows are `rows`. */
  ghost predicate Pair(r: Run, n: StepName, p: nat, q: nat, sp: Stage, sq: Stage, rows: Rows) {
    && r.states != [] && p != q
    && StandsAt(Last(r), p, n, sp) && StandsAt(Last(r), q, n, sq)
    && Last(r).rows == rows && Last(r).doc == Processing
  }

  /** Some run ends so. */
  ghost predicate CanPair(c: Config, n: StepName, p: nat, q: nat, sp: Stage, sq: Stage, rows: Rows) {
    exists r :: OnRun(c, r) && Pair(r, n, p, q, sp, sq, rows)
  }

  lemma SwapPair(c: Config, n: StepName, p: nat, q: nat, sp: Stage, sq: Stage, rows: Rows)
    requires CanPair(c, n, p, q, sp, sq, rows)
    ensures CanPair(c, n, q, p, sq, sp, rows)
  {
    hide OnRun;
    var r :| OnRun(c, r) && Pair(r, n, p, q, sp, sq, rows);
    assert Pair(r, n, q, p, sq, sp, rows);
  }

  /** The handler of `p` takes one action; `q` stays where it is. */
  lemma Move(c: Config, r: Run, a: Action, e: Effect, n: StepName, p: nat, q: nat, sp: Stage, sq: Stage, rows: Rows,
             sp': Stage)
    requires Pair(r, n, p, q, sp, sq, rows) && OnRun(c, r) && Leads(c, Last(r), a, p, e, n, sp')
    ensures CanPair(c, n, p, q, sp', sq, Rewrite(rows, e.write))
  {
    hide OnRun, IsEffect, Longer;
    var r' := TakeStep(c, r, a, p, e);
    assert Pair(r', n, p, q, sp', sq, Rewrite(rows, e.write));
  }

  lemma Loads(c: Config, p: nat, q: nat, sq: Stage, rows: Rows)
    requires CanPair(c, Ocr, p, q, Waiting, sq, rows) && Ocr in rows && rows[Ocr].status == Queued
    ensures CanPair(c, Ocr, p, q, Loaded(rows), sq, rows)
  {
    hide OnRun, IsEffect, Leads;
    var r :| OnRun(c, r) && Pair(r, Ocr, p, q, Waiting, sq, rows);
    DeliverLeads(c, Last(r), p, Ocr);
    Move(c, r, Deliver(p), DeliverEffect(rows, Last(r).procs[p]), Ocr, p, q, Waiting, sq, rows, Loaded(rows));
  }

  lemma Checks(c: Config, p: nat, q: nat, sq: Stage, rows: Rows)
    requires CanPair(c, Ocr, p, q, Loaded(rows), sq, rows) && Ocr in rows
    ensures CanPair(c, Ocr, p, q, Checked(rows, Processing), sq, rows)
  {
    hide OnRun, IsEffect, Leads;
    var r :| OnRun(c, r) && Pair(r, Ocr, p, q, Loaded(rows), sq, rows);
    LoadDocumentLeads(c, Last(r), p, Ocr, rows);
    Move(c, r, Action.LoadDocument(p), LoadDocumentEffect(Processing, Last(r).procs[p]), Ocr, p, q, Loaded(rows), sq,
         rows, Checked(rows, Processing));
  }

  /** Both handlers read the step as QUEUED before either of them marks it. */
  lemma BothPassTheCheck(c: Config, p: nat, q: nat, rows: Rows)
    requires CanPair(c, Ocr, p, q, Waiting, Waiting, rows) && Ocr in rows && rows[Ocr].status == Queued
    ensures CanPair(c, Ocr, q, p, Checked(rows, Processing), Checked(rows, Processing), rows)
  {
    hide CanPair;
    Loads(c, p, q, Waiting, rows);
    Checks(c, p, q, Waiting, rows);
    SwapPair(c, Ocr, p, q, Checked(rows, Processing), Waiting, rows);
    Loads(c, q, p, Checked(rows, Processing), rows);
    Checks(c, q, p, Checked(rows, Processing), rows);
  }

  function Marked(rows: Rows): Rows
    requires Ocr in rows
  {
    rows[Ocr := rows[Ocr].(status := Running)]
  }

  lemma Marks(c: Config, p: nat, q: nat, sq: Stage, rows: Rows, stored: Rows)
    requires CanPair(c, Ocr, p, q, Checked(rows, Processing), sq, stored) && Ocr in rows
    requires stored == rows || stored == Marked(rows)
    ensures CanPair(c, Ocr, p, q, Executing(Marked(rows), Processing), sq, Marked(rows))
  {
    hide OnRun, IsEffect, Leads;
    var r :| OnRun(c, r) && Pair(r, Ocr, p, q, Checked(rows, Processing), sq, stored);
    MarkRunningLeads(c, Last(r), p, Ocr, rows, Processing);
    var e := MarkRunningEffect(stored[Ocr], Last(r).procs[p]);
    assert Rewrite(stored, e.write) == Marked(rows);
    Move(c, r, Action.MarkRunning(p), e, Ocr, p, q, Checked(rows, Processing), sq, stored,
         Executing(Marked(rows), Processing));
  }

  lemma BothMarkRunning(c: Config, p: nat, q: nat, rows: Rows)
    requires CanPair(c, Ocr, q, p, Checked(rows, Processing), Checked(rows, Processing), rows) && Ocr in rows
    ensures CanPair(c, Ocr, p, q, Executing(Marked(rows), Processing), Executing(Marked(rows), Processing),
                    Marked(rows))
  {
    hide CanPair;
    Marks(c, q, p, Checked(rows, Processing), rows, rows);
    SwapPair(c, Ocr, q, p, Executing(Marked(rows), Processing), Checked(rows, Processing), Marked(rows));
    Marks(c, p, q, Executing(Marked(rows), Processing), rows, Marked(rows));
  }

  lemma Succeeds(c: Config, p: nat, q: nat, sq: Stage, rows: Rows)
    requires CanPair(c, Ocr, p, q, Executing(rows, Processing), sq, rows) && Ocr in rows
    ensures CanPair(c, Ocr, p, q, Saving(rows, Processing, Text("")), sq, rows)
  {
    hide OnRun, IsEffect, Leads;
    var r :| OnRun(c, r) && Pair(r, Ocr, p, q, Executing(rows, Processing), sq, rows);
    ExecuteOkLeads(c, Last(r), p, Ocr, rows, Processing, Text(""));
    Move(c, r, ExecuteOk(p, Text("")), ExecuteOkEffect(Last(r).procs[p], Text("")), Ocr, p, q,
         Executing(rows, Processing), sq, rows, Saving(rows, Processing, Text("")));
  }

  lemma Saves(c: Config, p: nat, q: nat, sq: Stage, rows: Rows)
    requires CanPair(c, Ocr, p, q, Saving(rows, Processing, Text("")), sq, rows) && Ocr in rows
    ensures CanPair(c, Ocr, p, q, Triggering(Processing), sq, rows[Ocr := Saved(rows[Ocr], Text(""))])
  {
    hide OnRun, IsEffect, Leads;
    var r :| OnRun(c, r) && Pair(r, Ocr, p, q, Saving(rows, Processing, Text("")), sq, rows);
    SaveLeads(c, Last(r), p, Ocr, rows, Processing, Text(""));
    var e := SaveEffect(rows[Ocr], Last(r).procs[p]);
    assert Rewrite(rows, e.write) == rows[Ocr := Saved(rows[Ocr], Text(""))];
    Move(c, r, Save(p), e, Ocr, p, q, Saving(rows, Processing, Text("")), sq, rows, Triggering(Processing));
  }

  /** One of them finishes the step, and then the other one's failed attempt puts it back to QUEUED. */
  lemma FinishThenFail(c: Config, p: nat, q: nat, rows: Rows) returns (done: Run, r: Run)
    requires CanPair(c, Ocr, p, q, Executing(rows, Processing), Executing(rows, Processing), rows)
    requires Ocr in rows && rows[Ocr].status == Running && rows[Ocr].attempts + 1 < c.maxAttempts
    ensures OnRun(c, r) && Longer(done, r) && done.states != []
    ensures HasStatus(Last(done), Ocr, Done) && Undoable(c, Last(done), Ocr, Done)
    ensures r.states != [] && HasStatus(Last(r), Ocr, Queued)
  {
    hide OnRun;
    var executing, saved := Executing(rows, Processing), rows[Ocr := Saved(rows[Ocr], Text(""))];
    Succeeds(c, p, q, executing, rows);
    Saves(c, p, q, executing, rows);
    done :| OnRun(c, done) && Pair(done, Ocr, p, q, Triggering(Processing), executing, saved);
    assert Undoes(c, Last(done).procs[q], Ocr, Done);
    ExecutingMayFail(c, done, q, Ocr, rows, Processing);
    r :| OnRun(c, r) && Longer(done, r) && HasStatus(Last(r), Ocr, Queued);
    LongerKeeps(done, r);
  }

  // ---- how two messages come about ----

  lemma ScanIs(c: Config, s: State)
    requires Ocr in s.rows && s.rows[Ocr].status == Queued && s.nextId !in s.procs
    ensures var e := VANISH.(spawn := Some(Reaper(InFlight, Selection(s.rows, [Ocr]), None)));
      IsEffect(c, s, ScanInFlight([Ocr]), s.nextId, e)
  {}

  lemma ReapIs(c: Config, s: State, p: nat, row: Row)
    requires ActsAs(s, p, Reaper(InFlight, [Selected(Ocr, row)], None)) && Ocr in s.rows
    ensures IsEffect(c, s, ReapNext(p), p, ReapNextEffect(s.rows, s.procs[p], c.maxAttempts))
  {}

  lemma Scanned(c: Config, r: Run) returns (r': Run)
    requires r.states != [] && OnRun(c, r) && Last(r).nextId == 2 && 2 !in Last(r).procs
    requires Ocr in Last(r).rows && Last(r).rows[Ocr].status == Queued
    ensures r'.states != [] && OnRun(c, r')
    ensures var s, s' := Last(r), Last(r');
      && s'.rows == s.rows && s'.doc == s.doc && s'.nextId == 3
      && s'.procs == s.procs[2 := Reaper(InFlight, [Selected(Ocr, s.rows[Ocr])], None)]
  {
    hide OnRun, IsEffect;
    var s := Last(r);
    ScanIs(c, s);
    var scan := VANISH.(spawn := Some(Reaper(InFlight, Selection(s.rows, [Ocr]), None)));
    r' := TakeStep(c, r, ScanInFlight([Ocr]), 2, scan);
    assert Selection(s.rows, [Ocr]) == [Selected(Ocr, s.rows[Ocr])];
    assert s.procs - {2} == s.procs;
  }

  /** The creator publishes the first message; a reaper that finds the row stale publishes another. */
  lemma TwoMessages(c: Config)
    requires Shipped(c)
    ensures CanPair(c, Ocr, 1, 3, Waiting, Waiting, OCR_SCENE.rows)
  {
    hide OnRun, IsEffect, Calm;
    Created(c);
    var r0 :| Built(c, r0, true) && Staged(r0, OCR_SCENE, 0, Waiting);
    var r1 := Scanned(c, r0);
    SecondMessage(c, r1, OCR_SCENE.rows);
  }

  lemma SecondMessage(c: Config, r: Run, rows: Rows)
    requires r.states != [] && OnRun(c, r) && Last(r).nextId == 3 && Last(r).rows == rows && Last(r).doc == Processing
    requires Ocr in rows && rows[Ocr].status == Queued && rows[Ocr].attempts < c.maxAttempts
    requires ActsAs(Last(r), 2, Reaper(InFlight, [Selected(Ocr, rows[Ocr])], None))
    requires ActsAs(Last(r), 1, NewMessage(Ocr))
    ensures CanPair(c, Ocr, 1, 3, Waiting, Waiting, rows)
  {
    hide OnRun, IsEffect;
    ReapIs(c, Last(r), 2, rows[Ocr]);
    var r' := TakeStep(c, r, ReapNext(2), 2, ReapNextEffect(rows, Last(r).procs[2], c.maxAttempts));
    assert Pair(r', Ocr, 1, 3, Waiting, Waiting, rows);
  }

  /** The code does not enforce the assumption, and finality needs it: some run of the real pipeline takes
      a step from DONE back to QUEUED. */
  lemma FinishedStepCanBeUndone(maxAttempts: nat) returns (r: Run, i: nat)
    requires maxAttempts >= 2
    ensures var c := Config(PIPELINE, maxAttempts);
      && IsRun(c, r) && !NoOverlapEver(r)
      && i < |r.states| - 1
      && HasStatus(r.states[i], Ocr, Done) && Undoable(c, r.states[i], Ocr, Done)
      && HasStatus(Last(r), Ocr, Queued)
  {
    var c, rows := Config(PIPELINE, maxAttempts), OCR_SCENE.rows;
    hide OnRun, CanPair, Longer, NoOverlapEver, IsRun;
    TwoMessages(c);
    BothPassTheCheck(c, 1, 3, rows);
    BothMarkRunning(c, 1, 3, rows);
    var done;
    done, r := FinishThenFail(c, 1, 3, Marked(rows));
    i := |done.states| - 1;
    LongerKeeps(done, r);
    Undone(c, r, i);
  }

  lemma LongerKeeps(r: Run, r': Run)
    requires Longer(r, r') && r.states != []
    ensures |r.states| < |r'.states| && r'.states[|r.states|-1] == Last(r)
  {}

  lemma Undone(c: Config, r: Run, i: nat)
    requires OnRun(c, r) && i < |r.states| && HasStatus(r.states[i], Ocr, Done)
    requires r.states != [] && HasStatus(Last(r), Ocr, Queued)
    ensures IsRun(c, r) && !NoOverlapEver(r)
  {
    if NoOverlapEver(r) {
      RowsOnlyAdvance(c, r, i, |r.states| - 1, Ocr);
    }
  }
}

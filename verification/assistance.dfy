/** The work outside the handlers is bounded too: a document is created once, and one webhook at most recomputes
    its status. */
module Assistance {
  import opened Model
  import opened Dag
  import opened Rules
  import opened Protocol
  import opened Claims
  import opened NoOverlaps
  import opened Outcomes

  // ---- the creation ----

  function CreationLimit(c: Config): nat { |c.graph.nodes| + 1 }

  /** `w` actions of the creation were taken, and those that are left are within the limit. */
  ghost predicate CreationPaid(c: Config, s: State, w: nat) {
    && w <= CreationLimit(c)
    && forall p :: p in s.procs && s.procs[p].Creator? ==>
         && w + |s.procs[p].entries| + 1 <= CreationLimit(c)
         && forall q :: q in s.procs && s.procs[q].Creator? ==> q == p
  }

  predicate CreatorActs(s: State, a: Action) {
    Subject(s, a) in s.procs && s.procs[Subject(s, a)].Creator?
  }

  lemma NobodyCreates(c: Config, s: State, a: Action)
    requires Enabled(c, s, a) && !a.PublishEntry? && !a.EndCreate?
    ensures var e := Act(c, s, a);
      (e.self.Some? ==> !e.self.value.Creator?) && (e.spawn.Some? ==> !e.spawn.value.Creator?)
  {}

  lemma CreatorsShrink(c: Config, s: State, a: Action)
    requires Enabled(c, s, a) && (a.PublishEntry? || a.EndCreate?)
    ensures CreatorActs(s, a)
    ensures var e := Act(c, s, a);
      && (e.self.Some? ==> e.self.value.Creator? && |e.self.value.entries| + 1 == |s.procs[a.p].entries|)
      && (e.spawn.Some? ==> e.spawn.value.Delivery?)
  {}

  lemma NextKeepsCreationPaid(c: Config, s: State, a: Action, s': State, w: nat)
    requires Next(c, s, a, s') && CreationPaid(c, s, w)
    ensures CreationPaid(c, s', if CreatorActs(s, a) then w + 1 else w)
  {
    if a.PublishEntry? || a.EndCreate? {
      CreatorsShrink(c, s, a);
    } else {
      NobodyCreates(c, s, a);
    }
    hide Enabled, Act;
    CreationStaysPaid(c, s, Subject(s, a), Act(c, s, a), w);
  }

  lemma CreationStaysPaid(c: Config, s: State, p: nat, e: Effect, w: nat)
    requires CreationPaid(c, s, w)
    requires e.spawn.Some? ==> !e.spawn.value.Creator?
    requires e.self.Some? && e.self.value.Creator? ==>
      p in s.procs && s.procs[p].Creator? && |e.self.value.entries| + 1 == |s.procs[p].entries|
    ensures CreationPaid(c, Apply(s, p, e), if p in s.procs && s.procs[p].Creator? then w + 1 else w)
  {}

  // ---- the webhook that decides ----

  predicate HookRecomputes(x: Proc) {
    x.Webhook? && x.hookStage.HookRecomputing?
  }

  function HookLeft(at: Recompute): nat {
    match at
    case ReadStatuses => 3
    case ReadDocument(_) => 2
    case WriteDocument(_, _) => 1
  }

  /** `w` actions of recomputations by webhooks were taken: none before external_call is decided. */
  ghost predicate HooksPaid(s: State, w: nat) {
    && w <= 3 && (!CallDecided(s) ==> w == 0)
    && forall p :: p in s.procs && HookRecomputes(s.procs[p]) ==>
         && CallDecided(s) && w + HookLeft(s.procs[p].hookStage.hookAt) <= 3
         && forall q :: q in s.procs && HookRecomputes(s.procs[q]) ==> q == p
  }

  predicate HookActs(s: State, a: Action) {
    Subject(s, a) in s.procs && HookRecomputes(s.procs[Subject(s, a)])
  }

  lemma NoHookRecomputes(c: Config, s: State, a: Action)
    requires Enabled(c, s, a) && !a.SettleCallback? && !a.RecomputeStep?
    ensures var e := Act(c, s, a);
      (e.self.Some? ==> !HookRecomputes(e.self.value)) && (e.spawn.Some? ==> !HookRecomputes(e.spawn.value))
  {}

  lemma RecomputesOn(s: State, x: Proc)
    requires RecomputeOf(x).Some?
    ensures var e := RecomputeEffect(s.rows, s.doc, x);
      && e.spawn == None
      && (e.self.Some? && HookRecomputes(e.self.value) ==>
            HookRecomputes(x) && HookLeft(e.self.value.hookStage.hookAt) + 1 == HookLeft(x.hookStage.hookAt))
  {
    hide DeriveDocumentStatus;
  }

  lemma HooksStayPaid(s: State, p: nat, e: Effect, w: nat)
    requires HooksPaid(s, w) && (CallDecided(s) ==> CallDecided(Apply(s, p, e)))
    requires e.spawn.Some? ==> !HookRecomputes(e.spawn.value)
    requires e.self.Some? && HookRecomputes(e.self.value) ==>
      && p in s.procs && HookRecomputes(s.procs[p])
      && HookLeft(e.self.value.hookStage.hookAt) + 1 == HookLeft(s.procs[p].hookStage.hookAt)
    ensures HooksPaid(Apply(s, p, e), if p in s.procs && HookRecomputes(s.procs[p]) then w + 1 else w)
  {}

  /** Only a waiting external_call is settled, so nobody recomputed before. */
  lemma SettlingIsPaid(c: Config, s: State, a: Action, s': State, w: nat)
    requires Known(c, s) && Next(c, s, a, s') && a.SettleCallback? && HooksPaid(s, w)
    ensures w == 0 && HooksPaid(s', 0) && !HookActs(s, a)
  {
    SettleCallbackSettled(c, s, a);
    WebhookSettlesCall(c, s, a, s');
    assert !CallDecided(s) && CallDecided(s');
    SettlerRecomputes(c, s, a);
    hide Known, Inv, Fresh, RowsSettled, Enabled, Act;
    FirstRecompute(s, a.p, Act(c, s, a));
  }

  lemma SettlerRecomputes(c: Config, s: State, a: Action)
    requires Enabled(c, s, a) && a.SettleCallback?
    ensures var e := Act(c, s, a);
      && e.self.Some? && HookRecomputes(e.self.value) && e.self.value.hookStage.hookAt == ReadStatuses
      && e.spawn == None
  {}

  lemma FirstRecompute(s: State, p: nat, e: Effect)
    requires HooksPaid(s, 0) && !CallDecided(s) && CallDecided(Apply(s, p, e)) && e.spawn == None
    requires e.self.Some? && HookRecomputes(e.self.value) && e.self.value.hookStage.hookAt == ReadStatuses
    ensures HooksPaid(Apply(s, p, e), 0)
  {}

  lemma OthersKeepHooksPaid(c: Config, s: State, a: Action, s': State, w: nat)
    requires Next(c, s, a, s') && HooksPaid(s, w) && RowsAdvance(s.rows, s'.rows) && !a.SettleCallback?
    ensures HooksPaid(s', if HookActs(s, a) then w + 1 else w)
  {
    var p, e := Subject(s, a), Act(c, s, a);
    assert s' == Apply(s, p, e);
    assert CallDecided(s) ==> CallDecided(s');
    if a.RecomputeStep? {
      RecomputesOn(s, s.procs[a.p]);
    } else {
      NoHookRecomputes(c, s, a);
    }
    hide Enabled, Act, Apply, HooksPaid, RowsAdvance, CallDecided;
    HooksStayPaid(s, p, e, w);
  }

  lemma NextKeepsHooksPaid(c: Config, s: State, a: Action, s': State, w: nat)
    requires Known(c, s) && Next(c, s, a, s') && HooksPaid(s, w) && RowsAdvance(s.rows, s'.rows)
    ensures HooksPaid(s', if HookActs(s, a) then w + 1 else w)
  {
    hide Known, Next, HooksPaid, HookActs;
    if a.SettleCallback? {
      SettlingIsPaid(c, s, a, s', w);
    } else {
      OthersKeepHooksPaid(c, s, a, s', w);
    }
  }

  // ---- whole runs ----

  /** The action is taken by the creation, or by a webhook's recomputation. */
  predicate Helps(s: State, a: Action) {
    CreatorActs(s, a) || HookActs(s, a)
  }

  /** For each action of a run, whether it is one of these. */
  ghost function Helpers(r: Run): seq<bool>
    requires |r.states| == |r.actions| + 1
  {
    seq(|r.actions|, i requires 0 <= i < |r.actions| => Helps(r.states[i], r.actions[i]))
  }

  function CountTrue(flags: seq<bool>): nat {
    if flags == [] then 0
    else CountTrue(flags[..|flags|-1]) + (if flags[|flags|-1] then 1 else 0)
  }

  ghost predicate HelpPaid(c: Config, s: State, w: nat) {
    exists k: nat :: k <= w && CreationPaid(c, s, k) && HooksPaid(s, w - k)
  }

  ghost predicate HelpPaidAt(c: Config, r: Run, i: nat)
    requires |r.states| == |r.actions| + 1
  {
    i <= |r.actions| ==> HelpPaid(c, r.states[i], CountTrue(Helpers(r)[..i]))
  }

  lemma NextKeepsHelpPaid(c: Config, s: State, a: Action, s': State, w: nat)
    requires Known(c, s) && Next(c, s, a, s') && HelpPaid(c, s, w) && RowsAdvance(s.rows, s'.rows)
    ensures HelpPaid(c, s', if Helps(s, a) then w + 1 else w)
  {
    hide Known, Next, CreationPaid, HooksPaid;
    var k: nat :| k <= w && CreationPaid(c, s, k) && HooksPaid(s, w - k);
    NextKeepsCreationPaid(c, s, a, s', k);
    NextKeepsHooksPaid(c, s, a, s', w - k);
    var k' := if CreatorActs(s, a) then k + 1 else k;
    assert CreationPaid(c, s', k');
  }

  lemma HelpPaidStep(c: Config, r: Run, i: nat)
    requires ValidConfig(c) && IsRun(c, r) && NoOverlapEver(r) && HelpPaidAt(c, r, i)
    ensures HelpPaidAt(c, r, i + 1)
  {
    if i < |r.actions| {
      RunSettling(c, r, i);
      StepKeepsSettling(c, r, i);
      StepOf(c, r, i);
      NextFlag(r, i);
      hide ValidConfig, IsRun, NoOverlapEver, Known, Next, HelpPaid;
      NextKeepsHelpPaid(c, r.states[i], r.actions[i], r.states[i+1], CountTrue(Helpers(r)[..i]));
    }
  }

  lemma NextFlag(r: Run, i: nat)
    requires |r.states| == |r.actions| + 1 && i < |r.actions|
    ensures CountTrue(Helpers(r)[..i+1])
         == CountTrue(Helpers(r)[..i]) + (if Helps(r.states[i], r.actions[i]) then 1 else 0)
  {
    var flags := Helpers(r)[..i+1];
    assert flags[..|flags|-1] == Helpers(r)[..i];
  }

  lemma HelpPaidFirst(c: Config, r: Run)
    requires IsRun(c, r)
    ensures HelpPaidAt(c, r, 0)
  {
    var s := r.states[0];
    assert |EntryNodes(c.graph)| <= |c.graph.nodes|;
    assert CreationPaid(c, s, 0) && HooksPaid(s, 0 - 0);
  }

  /** Without overlap the creation and the webhooks' recomputations take a bounded number of actions, whatever
      crashes and however many webhooks arrive. */
  lemma HelpersTerminate(c: Config, r: Run)
    requires ValidConfig(c) && IsRun(c, r) && NoOverlapEver(r)
    ensures CountTrue(Helpers(r)) <= |c.graph.nodes| + 4
  {
    var P := (k: nat) => HelpPaidAt(c, r, k);
    var i := |r.actions|;
    HelpPaidFirst(c, r);
    forall k {:trigger Climbs(P, k)} | 0 <= k < i ensures Climbs(P, k) {
      if P(k) {
        HelpPaidStep(c, r, k);
      }
    }
    InductUp(P, i);
    assert Helpers(r)[..i] == Helpers(r);
  }
}

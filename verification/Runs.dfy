/** Runs put together from shorter ones. */
module Runs {
  import opened Framing
  import opened Sums
  import opened Commands
  import opened Policy
  import opened Engine
  import opened Events
  import opened SlotSafety

  lemma {:induction false} AfterConcat(cfg: Config, w: World, s: seq<Step>, t: seq<Step>)
    ensures After(cfg, w, s + t) == After(cfg, After(cfg, w, s), t)
    decreases |t|
  {
    if t == [] {
      assert s + t == s;
    } else {
      var n := |t| - 1;
      assert (s + t)[..|s + t| - 1] == s + t[..n];
      AfterConcat(cfg, w, s, t[..n]);
    }
  }

  lemma PossibleConcat(cfg: Config, w: World, s: seq<Step>, t: seq<Step>)
    requires Possible(cfg, w, s) && Possible(cfg, After(cfg, w, s), t)
    ensures Possible(cfg, w, s + t)
  {
    forall i | 0 <= i < |s + t| ensures Enabled(After(cfg, w, (s + t)[..i]), (s + t)[i]) {
      if i < |s| {
        assert (s + t)[..i] == s[..i];
      } else {
        assert (s + t)[..i] == s + t[..i - |s|];
        AfterConcat(cfg, w, s, t[..i - |s|]);
      }
    }
  }

  /** Some run leads from w to w'. */
  ghost predicate Reaches(cfg: Config, w: World, w': World) {
    exists steps :: Possible(cfg, w, steps) && After(cfg, w, steps) == w'
  }

  lemma ReachesTrans(cfg: Config, w: World, v: World, w': World)
    requires Reaches(cfg, w, v) && Reaches(cfg, v, w')
    ensures Reaches(cfg, w, w')
  {
    var s :| Possible(cfg, w, s) && After(cfg, w, s) == v;
    var t :| Possible(cfg, v, t) && After(cfg, v, t) == w';
    AfterConcat(cfg, w, s, t);
    PossibleConcat(cfg, w, s, t);
  }

  lemma ReachesStep(cfg: Config, w: World, step: Step)
    requires Enabled(w, step)
    ensures Reaches(cfg, w, Apply(cfg, w, step))
  {
    var steps := [step];
    assert steps[..0] == [];
    assert After(cfg, w, steps) == Apply(cfg, After(cfg, w, steps[..0]), step);
    assert Possible(cfg, w, steps);
  }

  lemma ReachesOn(cfg: Config, w: World, v: World, step: Step)
    requires Reaches(cfg, w, v) && Enabled(v, step)
    ensures Reaches(cfg, w, Apply(cfg, v, step))
  {
    ReachesStep(cfg, v, step);
    ReachesTrans(cfg, w, v, Apply(cfg, v, step));
  }

  /** Runs only add to the log. */
  lemma {:induction false} LogOnlyGrows(cfg: Config, w: World, steps: seq<Step>)
    ensures |w.log| <= |After(cfg, w, steps).log| && After(cfg, w, steps).log[..|w.log|] == w.log
    decreases |steps|
  {
    if steps != [] {
      var init := steps[..|steps| - 1];
      LogOnlyGrows(cfg, w, init);
      var added := NewEvents(cfg, After(cfg, w, init), steps[|steps| - 1]);
    }
  }

  predicate NoFlush(steps: seq<Step>) {
    forall i :: 0 <= i < |steps| ==> !steps[i].Flush?
  }

  /** Frames written so far. */
  function Writes(log: seq<Event>): int {
    Sum(log, IsWritten())
  }

  function IsWritten(): Event -> int {
    (e: Event) => if e.Wrote? then 1 else 0
  }

  /** Ticks of a flush with writes that succeed, and new commands without payload. */
  predicate Gentle(step: Step) {
    || (step.Run? && step.writeOk)
    || (step.Enqueue? && step.cmd == Core(step.cmd) && step.cmd.payload == [])
  }

  predicate AllGentle(steps: seq<Step>) {
    forall i :: 0 <= i < |steps| ==> Gentle(steps[i])
  }

  /** Some run of such steps leads from w to w'. */
  ghost predicate Leads(cfg: Config, w: World, w': World) {
    exists steps :: AllGentle(steps) && After(cfg, w, steps) == w'
  }

  lemma GentleIsHarmless(cfg: Config, w: World, steps: seq<Step>, mode: FrameMode)
    requires AllGentle(steps)
    ensures Possible(cfg, w, steps) && AllHarmless(cfg, steps, mode, 0) && NoFlush(steps)
  {
  }

  lemma LeadsReaches(cfg: Config, w: World, w': World)
    requires Leads(cfg, w, w')
    ensures Reaches(cfg, w, w')
  {
    var steps :| AllGentle(steps) && After(cfg, w, steps) == w';
    GentleIsHarmless(cfg, w, steps, Sequenced);
  }

  lemma LeadsNowhere(cfg: Config, w: World)
    ensures Leads(cfg, w, w)
  {
    assert AllGentle([]) && After(cfg, w, []) == w;
  }

  lemma LeadsTrans(cfg: Config, w: World, v: World, w': World)
    requires Leads(cfg, w, v) && Leads(cfg, v, w')
    ensures Leads(cfg, w, w')
  {
    var s :| AllGentle(s) && After(cfg, w, s) == v;
    var t :| AllGentle(t) && After(cfg, v, t) == w';
    AfterConcat(cfg, w, s, t);
    assert AllGentle(s + t);
  }

  lemma LeadsGrow(cfg: Config, w: World, w': World)
    requires Leads(cfg, w, w')
    ensures |w.log| <= |w'.log| && Writes(w.log) <= Writes(w'.log)
  {
    var steps :| AllGentle(steps) && After(cfg, w, steps) == w';
    LogOnlyGrows(cfg, w, steps);
    var added := w'.log[|w.log|..];
    assert w'.log == w.log + added;
    SumConcat(w.log, added, IsWritten());
    SumAtLeast(added, IsWritten(), 0);
  }

  lemma LeadsStep(cfg: Config, w: World, step: Step)
    requires Gentle(step)
    ensures Leads(cfg, w, Apply(cfg, w, step))
  {
    var steps := [step];
    assert steps[..0] == [];
    assert After(cfg, w, steps) == Apply(cfg, After(cfg, w, steps[..0]), step);
    assert AllGentle(steps);
  }

  /** One tick further. */
  lemma LeadsOn(cfg: Config, w: World, v: World, now: Time)
    requires Leads(cfg, w, v)
    ensures Leads(cfg, w, Tick(v, now, true))
  {
    LeadsStep(cfg, v, Run(now, true));
    LeadsTrans(cfg, w, v, Tick(v, now, true));
  }

  // ---- Runs of ticks and new commands of any kind ----

  predicate Calm(step: Step) {
    (step.Run? && step.writeOk) || (step.Enqueue? && step.cmd == Core(step.cmd))
  }

  predicate AllCalm(steps: seq<Step>) {
    forall i :: 0 <= i < |steps| ==> Calm(steps[i])
  }

  /** Some run of such steps leads from w to w'. */
  ghost predicate Continues(cfg: Config, w: World, w': World) {
    exists steps :: AllCalm(steps) && After(cfg, w, steps) == w'
  }

  lemma CalmIsPossible(cfg: Config, w: World, steps: seq<Step>)
    requires AllCalm(steps)
    ensures Possible(cfg, w, steps) && NoFlush(steps)
  {
  }

  lemma LeadsContinues(cfg: Config, w: World, w': World)
    requires Leads(cfg, w, w')
    ensures Continues(cfg, w, w')
  {
    var steps :| AllGentle(steps) && After(cfg, w, steps) == w';
    assert AllCalm(steps);
  }

  lemma ContinuesReaches(cfg: Config, w: World, w': World)
    requires Continues(cfg, w, w')
    ensures Reaches(cfg, w, w')
  {
    var steps :| AllCalm(steps) && After(cfg, w, steps) == w';
    CalmIsPossible(cfg, w, steps);
  }

  lemma ContinuesNowhere(cfg: Config, w: World)
    ensures Continues(cfg, w, w)
  {
    assert AllCalm([]) && After(cfg, w, []) == w;
  }

  lemma ContinuesTrans(cfg: Config, w: World, v: World, w': World)
    requires Continues(cfg, w, v) && Continues(cfg, v, w')
    ensures Continues(cfg, w, w')
  {
    var s :| AllCalm(s) && After(cfg, w, s) == v;
    var t :| AllCalm(t) && After(cfg, v, t) == w';
    AfterConcat(cfg, w, s, t);
    assert AllCalm(s + t);
  }

  lemma ContinuesStep(cfg: Config, w: World, step: Step)
    requires Calm(step)
    ensures Continues(cfg, w, Apply(cfg, w, step))
  {
    var steps := [step];
    assert steps[..0] == [];
    assert After(cfg, w, steps) == Apply(cfg, After(cfg, w, steps[..0]), step);
    assert AllCalm(steps);
  }

  /** One tick further. */
  lemma ContinuesOn(cfg: Config, w: World, v: World, now: Time)
    requires Continues(cfg, w, v)
    ensures Continues(cfg, w, Tick(v, now, true))
  {
    ContinuesStep(cfg, v, Run(now, true));
    ContinuesTrans(cfg, w, v, Tick(v, now, true));
  }

  lemma ContinuesGrow(cfg: Config, w: World, w': World)
    requires Continues(cfg, w, w')
    ensures |w.log| <= |w'.log|
  {
    var steps :| AllCalm(steps) && After(cfg, w, steps) == w';
    LogOnlyGrows(cfg, w, steps);
  }
}

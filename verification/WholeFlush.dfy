/** internal/server/server.go, flushQueue, as one uninterrupted run of its ticks. */
module WholeFlush {
  import opened Commands
  import opened Policy
  import opened Engine
  import opened FlushSafety

  /** What the outside contributes to a tick: the clock, and whether a write succeeds. */
  datatype Input = Input(now: Time, writeOk: bool)

  type Inputs = nat -> Input

  /** Ticks, from input t on, until the flush is over. */
  function Finish(w: World, env: Inputs, t: nat): World
    decreases Remaining(w.pc), Stage(w.pc), Left(w.pc)
  {
    if w.pc == Idle then w
    else
      TickDescends(w, env(t).now, env(t).writeOk);
      Finish(Tick(w, env(t).now, env(t).writeOk), env, t + 1)
  }

  /** One tick on the way to the end. */
  lemma OneTick(w: World, env: Inputs, t: nat, w': World)
    requires w.pc != Idle && w' == Tick(w, env(t).now, env(t).writeOk)
    ensures Finish(w, env, t) == Finish(w', env, t + 1)
  {
  }

  /** Ticks, with the inputs from t on. */
  predicate TicksOf(steps: seq<Step>, env: Inputs, t: nat) {
    forall i :: 0 <= i < |steps| ==> steps[i] == Run(env(t + i).now, env(t + i).writeOk)
  }

  /** A whole flush is a run of the engine made of ticks only, and it ends idle. */
  lemma {:induction false} FlushIsRun(cfg: Config, w: World, env: Inputs, t: nat) returns (steps: seq<Step>)
    ensures After(cfg, w, steps) == Finish(w, env, t)
    ensures Finish(w, env, t).pc == Idle
    ensures TicksOf(steps, env, t)
    decreases Remaining(w.pc), Stage(w.pc), Left(w.pc)
  {
    if w.pc == Idle {
      steps := [];
    } else {
      TickDescends(w, env(t).now, env(t).writeOk);
      var first := Run(env(t).now, env(t).writeOk);
      var w' := Apply(cfg, w, first);
      var rest := FlushIsRun(cfg, w', env, t + 1);
      steps := [first] + rest;
      AfterCons(cfg, w, first, rest);
      TicksCons(rest, env, t);
      OneTick(w, env, t, w');
    }
  }

  lemma TicksCons(rest: seq<Step>, env: Inputs, t: nat)
    requires TicksOf(rest, env, t + 1)
    ensures TicksOf([Run(env(t).now, env(t).writeOk)] + rest, env, t)
  {
  }

  lemma TicksPossible(cfg: Config, w: World, steps: seq<Step>, env: Inputs, t: nat)
    requires TicksOf(steps, env, t)
    ensures Possible(cfg, w, steps)
  {
  }

  lemma {:induction false} AfterCons(cfg: Config, w: World, first: Step, rest: seq<Step>)
    ensures After(cfg, w, [first] + rest) == After(cfg, Apply(cfg, w, first), rest)
    decreases |rest|
  {
    var steps := [first] + rest;
    if rest == [] {
      assert steps[..0] == [];
      assert After(cfg, w, steps) == Apply(cfg, After(cfg, w, steps[..0]), first);
    } else {
      var n := |rest| - 1;
      assert steps[..|steps| - 1] == [first] + rest[..n];
      AfterCons(cfg, w, first, rest[..n]);
    }
  }
}

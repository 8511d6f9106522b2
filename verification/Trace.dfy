/**
 * What the classes are proved against: a call that runs to its end is a run of
 * the machine, and every durable state it leaves on the way is one of the run's.
 */
module Trace {
  import opened Text
  import opened Options
  import opened Receipts
  import opened Server
  import opened Protocol
  import opened Invariant
  import opened Reds
  import opened Runs
  import Theorems

  /** What a killed process leaves behind. */
  datatype Durable = Durable(srv: Fdms, disk: Disk, journal: Journal)

  function DurableOf(w: World): Durable { Durable(w.srv, w.disk, w.journal) }

  function Moved(a: Durable, b: Durable): seq<Durable> { if a == b then [] else [b] }

  /** What the network and the server may do; everything else that is `Permitted` is up to the caller. */
  predicate Surroundings(rules: Rules, env: Env, w: World, step: Step) {
    match step
    case AskStatus(_) => Permitted(rules, env, w, step)
    case Send(_) => Permitted(rules, env, w, step)
    case CloseFiscalDay(_, fate) => !fate.reached ==> fate.failure.Some?
    case OpenFiscalDay(_, _, reported, _) => Reports(AllReceipts(w.srv.days), reported)
    case _ => true
  }

  predicate Surrounded(rules: Rules, env: Env, w: World, steps: seq<Step>)
    requires Possible(env, rules.Dedup?, w, steps)
    decreases steps
  {
    steps == [] ||
    (Surroundings(rules, env, w, steps[0]) && Surrounded(rules, env, Next(env, rules.Dedup?, w, steps[0]), steps[1..]))
  }

  /** Steps the code takes, whether or not the caller keeps to a setting. */
  predicate Plays(rules: Rules, env: Env, w: World, steps: seq<Step>) {
    Possible(env, rules.Dedup?, w, steps) && Surrounded(rules, env, w, steps)
  }

  /** The durable states the steps pass through. */
  function Trail(rules: Rules, env: Env, w: World, steps: seq<Step>): seq<Durable>
    requires Possible(env, rules.Dedup?, w, steps)
    decreases steps
  {
    if steps == [] then []
    else
      var v := Next(env, rules.Dedup?, w, steps[0]);
      Moved(DurableOf(w), DurableOf(v)) + Trail(rules, env, v, steps[1..])
  }

  /** A call that runs to its end has no crash in it, and none but openDay() opens a day. */
  predicate Alive(steps: seq<Step>) {
    forall i :: 0 <= i < |steps| ==> !steps[i].Crash? && !steps[i].OpenFiscalDay?
  }

  /**
   * Takes world `w` to `v` and a recorded trail to a longer one; if the caller
   * keeps to the setting, by a permitted run.
   */
  predicate Does(rules: Rules, env: Env, ok: bool, w: World, before: seq<Durable>, steps: seq<Step>, v: World,
                 after: seq<Durable>) {
    && Alive(steps) && Plays(rules, env, w, steps) && End(env, rules.Dedup?, w, steps) == v
    && after == before + Trail(rules, env, w, steps)
    && (ok ==> Run(rules, env, w, steps))
  }

  lemma {:induction false} RunPlays(rules: Rules, env: Env, w: World, steps: seq<Step>)
    requires Run(rules, env, w, steps)
    ensures Plays(rules, env, w, steps)
    decreases steps
  {
    hide Next, Enabled;
    if steps != [] {
      PermittedIsPossible(rules, env, w, steps[0]);
      hide Permitted, Surroundings;
      RunPlays(rules, env, Next(env, rules.Dedup?, w, steps[0]), steps[1..]);
    }
  }

  lemma PermittedIsPossible(rules: Rules, env: Env, w: World, step: Step)
    requires Permitted(rules, env, w, step)
    ensures Surroundings(rules, env, w, step)
  {
    hide MaySign, Tail, HeadLost, MarkerIsHead, Reports, FateOk, AllReceipts;
  }

  lemma NoSteps(rules: Rules, env: Env, w: World)
    ensures Plays(rules, env, w, []) && Run(rules, env, w, []) && End(env, rules.Dedup?, w, []) == w
  {
  }

  lemma DoesNothing(rules: Rules, env: Env, ok: bool, w: World, trail: seq<Durable>)
    ensures Does(rules, env, ok, w, trail, [], w, trail)
  {
  }

  lemma {:induction false} TrailsJoin(rules: Rules, env: Env, w: World, one: seq<Step>, v: World, two: seq<Step>)
    requires Possible(env, rules.Dedup?, w, one) && End(env, rules.Dedup?, w, one) == v
    requires Possible(env, rules.Dedup?, v, two) && Possible(env, rules.Dedup?, w, one + two)
    ensures Trail(rules, env, w, one + two) == Trail(rules, env, w, one) + Trail(rules, env, v, two)
    decreases one
  {
    hide Surrounded, Enabled, Next, DurableOf, Moved;
    if one == [] {
      assert one + two == two;
    } else {
      assert (one + two)[1..] == one[1..] + two;
      TrailsJoin(rules, env, Next(env, rules.Dedup?, w, one[0]), one[1..], v, two);
    }
  }

  lemma {:induction false} PlaysJoin(rules: Rules, env: Env, w: World, one: seq<Step>, two: seq<Step>)
    requires Plays(rules, env, w, one) && Plays(rules, env, End(env, rules.Dedup?, w, one), two)
    ensures Plays(rules, env, w, one + two)
    decreases one
  {
    hide Surroundings, Enabled, Next, Trail;
    Theorems.StepsJoin(env, rules.Dedup?, w, one, two);
    if one == [] {
      assert one + two == two;
    } else {
      PlaysJoin(rules, env, Next(env, rules.Dedup?, w, one[0]), one[1..], two);
      assert (one + two)[1..] == one[1..] + two;
    }
  }

  lemma DoesBoth(rules: Rules, env: Env, ok: bool, w: World, t: seq<Durable>, one: seq<Step>, v: World, s: seq<Durable>,
                 two: seq<Step>, u: World, r: seq<Durable>)
    requires Does(rules, env, ok, w, t, one, v, s)
    requires Does(rules, env, ok, v, s, two, u, r) || Does(rules, env, true, v, s, two, u, r)
    ensures Does(rules, env, ok, w, t, one + two, u, r)
  {
    hide Run, End, Possible, Surrounded, Trail;
    PlaysJoin(rules, env, w, one, two);
    Theorems.StepsJoin(env, rules.Dedup?, w, one, two);
    TrailsJoin(rules, env, w, one, v, two);
    if ok {
      Theorems.RunsJoin(env, rules, w, one, two);
    }
  }

  lemma DoesStep(rules: Rules, env: Env, ok: bool, w: World, step: Step, v: World, t: seq<Durable>, s: seq<Durable>)
    requires Enabled(env, w, step) && Surroundings(rules, env, w, step) && (ok ==> Permitted(rules, env, w, step))
    requires v == Next(env, rules.Dedup?, w, step) && s == t + Moved(DurableOf(w), DurableOf(v))
    requires !step.Crash? && !step.OpenFiscalDay?
    ensures Does(rules, env, ok, w, t, [step], v, s)
  {
    hide Permitted, Surroundings, Enabled, Next, DurableOf, Moved;
    OneStepPlays(rules, env, w, step);
    if ok {
      OneStepRun(rules, env, w, step);
    }
  }

  lemma DoesMore(rules: Rules, env: Env, ok: bool, w: World, t: seq<Durable>, steps: seq<Step>, v: World,
                 s: seq<Durable>, step: Step, u: World, r: seq<Durable>)
    requires Does(rules, env, ok, w, t, steps, v, s)
    requires Enabled(env, v, step) && Surroundings(rules, env, v, step) && (ok ==> Permitted(rules, env, v, step))
    requires u == Next(env, rules.Dedup?, v, step) && r == s + Moved(DurableOf(v), DurableOf(u))
    requires !step.Crash? && !step.OpenFiscalDay?
    ensures Does(rules, env, ok, w, t, steps + [step], u, r)
  {
    hide *;
    DoesStep(rules, env, ok, v, step, u, s, r);
    DoesBoth(rules, env, ok, w, t, steps, v, s, [step], u, r);
  }

  /** A step that writes nothing and sends nothing leaves no trace. */
  lemma DoesUnseen(rules: Rules, env: Env, ok: bool, w: World, t: seq<Durable>, steps: seq<Step>, v: World,
                   s: seq<Durable>, step: Step, u: World)
    requires Does(rules, env, ok, w, t, steps, v, s)
    requires Enabled(env, v, step) && Surroundings(rules, env, v, step) && (ok ==> Permitted(rules, env, v, step))
    requires u == Next(env, rules.Dedup?, v, step) && DurableOf(u) == DurableOf(v)
    requires !step.Crash? && !step.OpenFiscalDay?
    ensures Does(rules, env, ok, w, t, steps + [step], u, s)
  {
    hide Does, Permitted, Surroundings, Enabled, Next, DurableOf;
    DoesMore(rules, env, ok, w, t, steps, v, s, step, u, s);
  }

  lemma DoesUnder(rules: Rules, env: Env, wider: bool, ok: bool, w: World, t: seq<Durable>, steps: seq<Step>,
                  v: World, s: seq<Durable>)
    requires Does(rules, env, wider, w, t, steps, v, s) && (ok ==> wider)
    ensures Does(rules, env, ok, w, t, steps, v, s)
  {
  }

  lemma OneStepPlays(rules: Rules, env: Env, w: World, step: Step)
    requires Enabled(env, w, step) && Surroundings(rules, env, w, step)
    ensures Plays(rules, env, w, [step]) && End(env, rules.Dedup?, w, [step]) == Next(env, rules.Dedup?, w, step)
    ensures Trail(rules, env, w, [step]) == Moved(DurableOf(w), DurableOf(Next(env, rules.Dedup?, w, step)))
  {
    hide Surroundings, Enabled, Next, DurableOf, Moved;
    var v := Next(env, rules.Dedup?, w, step);
    assert [step][1..] == [];
    assert Plays(rules, env, v, []) && End(env, rules.Dedup?, v, []) == v && Trail(rules, env, v, []) == [];
    assert Possible(env, rules.Dedup?, w, [step]);
    assert Trail(rules, env, w, [step]) == Moved(DurableOf(w), DurableOf(v)) + [];
  }

  lemma OneStepRun(rules: Rules, env: Env, w: World, step: Step)
    requires May(rules, env, w, step)
    ensures Run(rules, env, w, [step]) && End(env, rules.Dedup?, w, [step]) == Next(env, rules.Dedup?, w, step)
  {
    hide Permitted, Enabled, Next;
    var v := Next(env, rules.Dedup?, w, step);
    assert [step][1..] == [];
    assert Run(rules, env, v, []) && End(env, rules.Dedup?, v, []) == v;
    assert Possible(env, rules.Dedup?, w, [step]);
  }

  /** A world that is reached leads to another. */
  lemma StillReached(rules: Rules, env: Env, w: World, t: seq<Durable>, steps: seq<Step>, v: World, s: seq<Durable>)
    requires Reached(rules, env, w) && Does(rules, env, true, w, t, steps, v, s)
    ensures Reached(rules, env, v)
  {
    hide Permitted, Surroundings, Enabled, Next, Trail;
    var past :| Run(rules, env, START, past) && End(env, rules.Dedup?, START, past) == w;
    Theorems.RunsJoin(env, rules, START, past, steps);
    Theorems.ReachedByRun(env, rules, past + steps);
  }

  /**
   * After any permitted call that leaves nothing pending and nothing waiting, the
   * device's state is the server's but for recorded red errors.
   */
  lemma CallEndsInSync(rules: Rules, env: Env, w: World, t: seq<Durable>, steps: seq<Step>, v: World, s: seq<Durable>)
    requires KeyPair(env) && Reached(rules, env, w) && Does(rules, env, true, w, t, steps, v, s) && Theorems.Quiet(v)
    ensures LastGlobal(v.disk) == |AllReceipts(v.srv.days)|
    ensures v.disk.dayState.Some? ==> Plain(v.disk.dayState.value) == Theorems.ServerState(env, v.srv)
    ensures v.mem.Some? ==> Plain(v.mem.value) == Theorems.ServerState(env, v.srv)
  {
    hide Does, Reached, KeyPair, AllReceipts, Theorems.ServerState, LastGlobal, Theorems.Quiet;
    StillReached(rules, env, w, t, steps, v, s);
    Theorems.QuietDeviceEqualsServer(env, rules, v);
  }

  /** The next start after the process was killed, seen through what it left. */
  function Restarted(d: Durable): World { World(d.srv, d.disk, d.journal, None, Queue([], false), Idle) }

  /** Where the setting lets a process die, what a call has left by then is what the machine reaches by a crash. */
  lemma {:induction false} EveryCutIsReached(rules: Rules, env: Env, w: World, steps: seq<Step>, d: Durable)
    requires Reached(rules, env, w) && Run(rules, env, w, steps)
    requires d in Trail(rules, env, w, steps)
    requires Permitted(rules, env, Restarted(d), Crash)
    ensures Reached(rules, env, Restarted(d))
    decreases steps
  {
    hide Reached, Permitted, Surroundings, Enabled, Next;
    if steps != [] {
      var v := Next(env, rules.Dedup?, w, steps[0]);
      OneMoreStep(rules, env, w, steps[0]);
      if DurableOf(v) == d {
        CrashLeaves(rules, env, v);
        OneMoreStep(rules, env, v, Crash);
      } else {
        EveryCutIsReached(rules, env, v, steps[1..], d);
      }
    }
  }

  /** The trail misses nothing: wherever a run is cut, it has left what it began with or something on its trail. */
  lemma {:induction false} TrailIsComplete(rules: Rules, env: Env, w: World, steps: seq<Step>, k: nat)
    requires Possible(env, rules.Dedup?, w, steps) && k <= |steps|
    ensures Possible(env, rules.Dedup?, w, steps[..k])
    ensures
      var d := DurableOf(End(env, rules.Dedup?, w, steps[..k]));
      d == DurableOf(w) || d in Trail(rules, env, w, steps)
    decreases steps
  {
    hide Enabled, Next, DurableOf;
    if k > 0 {
      TrailIsComplete(rules, env, Next(env, rules.Dedup?, w, steps[0]), steps[1..], k - 1);
      assert steps[..k][1..] == steps[1..][..k - 1];
    }
  }

  /** A crash depends on, and leaves, nothing but what is durable. */
  lemma CrashLeaves(rules: Rules, env: Env, v: World)
    ensures Enabled(env, v, Crash) && Next(env, rules.Dedup?, v, Crash) == Restarted(DurableOf(v))
    ensures Permitted(rules, env, Restarted(DurableOf(v)), Crash) ==> Permitted(rules, env, v, Crash)
  {
    hide AllReceipts, Tail;
  }

  lemma OneMoreStep(rules: Rules, env: Env, w: World, step: Step)
    requires Reached(rules, env, w) && May(rules, env, w, step)
    ensures Reached(rules, env, Next(env, rules.Dedup?, w, step))
  {
    hide Permitted, Enabled, Next;
    var past :| Run(rules, env, START, past) && End(env, rules.Dedup?, START, past) == w;
    OneStepRun(rules, env, w, step);
    Theorems.RunsJoin(env, rules, START, past, [step]);
    Theorems.ReachedByRun(env, rules, past + [step]);
  }

  /** A day state that covers the journal goes on to do so until the process dies. */
  lemma {:induction false} StaysCovered(rules: Rules, env: Env, w: World, steps: seq<Step>)
    requires KeyPair(env) && Reached(rules, env, w) && Covers(w) && Run(rules, env, w, steps) && Alive(steps)
    ensures Covers(End(env, rules.Dedup?, w, steps))
    decreases steps
  {
    hide KeyPair, Reached, Covers, Permitted, Enabled, Next, Inv, RedsOk;
    if steps != [] {
      var log := ReachedHasInv(env, rules, w);
      StepKeepsCovers(env, rules, w, steps[0], log);
      OneMoreStep(rules, env, w, steps[0]);
      StaysCovered(rules, env, Next(env, rules.Dedup?, w, steps[0]), steps[1..]);
    }
  }

  /** Earlier days are never touched again. */
  lemma {:induction false} EarlierStays(rules: Rules, env: Env, w: World, steps: seq<Step>)
    requires Plays(rules, env, w, steps) && Alive(steps)
    ensures Earlier(End(env, rules.Dedup?, w, steps).srv) == Earlier(w.srv)
    decreases steps
  {
    hide Surroundings, Enabled, Next;
    if steps != [] {
      EarlierStaysOnce(env, rules.Dedup?, w, steps[0]);
      EarlierStays(rules, env, Next(env, rules.Dedup?, w, steps[0]), steps[1..]);
    }
  }

  lemma EarlierStaysOnce(env: Env, dedup: bool, w: World, step: Step)
    requires Enabled(env, w, step) && !step.OpenFiscalDay?
    ensures Earlier(Next(env, dedup, w, step).srv) == Earlier(w.srv)
  {
    hide SignReceipt, Committed, CloseRequestOf, Tail, Indexed, CloseVerdict, Duplicate, Errors, AllReceipts, Highest,
      OutcomeOf, LastGlobal;
  }
}

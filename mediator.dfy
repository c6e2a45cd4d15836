/** The simulation orchestrator (include/MCMediator.hpp, src/MCMediator.cpp),
    in its sequential reading. It fills one path buffer per simulation from
    the initial condition by repeated steps of the discretiser, hands each
    finished buffer to the path callback, and finally calls the finish
    callback with the stopwatch reading.

    The callbacks are modelled by what they receive: `Start` appends one
    event per callback invocation that has an effect to `log`. Variates are
    an input: `variates[i - 1]` holds the draws the generator yields while
    path i is built, two per step. */
module Mediator {
  import opened SdeBase
  import opened Fdm
  import opened Timing

  /** What the callbacks receive: a progress count that is shown, a finished
      path, or the final duration. */
  datatype Event = Progress(count: nat) | PathDelivered(path: seq<real>) | Finished(duration: real)

  /** How often the progress callback shows the count. */
  const ProgressEvery: nat := 10000

  /** The progress callback: it shows count i only when i is a multiple of
      10000, and shows nothing otherwise. */
  function ProgressOutput(i: nat): (out: seq<Event>)
    ensures i % ProgressEvery == 0 ==> out == [Progress(i)]
    ensures i % ProgressEvery != 0 ==> out == []
  {
    if i % ProgressEvery == 0 then [Progress(i)] else []
  }

  /** The first n + 1 levels of a path from x0, one step per mesh interval
      (see SimulateStep). */
  function Simulate(f: Fdm, x0: real, mesh: seq<real>, zs: seq<real>, n: nat): (p: seq<real>)
    requires n < |mesh| && 2 * n <= |zs|
    ensures |p| == n + 1 && p[0] == x0
  {
    if n == 0 then [x0]
    else
      var prev := Simulate(f, x0, mesh, zs, n - 1);
      prev + [f.Advance(prev[n - 1], mesh[n - 1], f.meshSize, zs[2 * (n - 1)], zs[2 * (n - 1) + 1])]
  }

  /** A longer simulation extends a shorter one with the same draws. */
  lemma {:induction false} SimulatePrefix(f: Fdm, x0: real, mesh: seq<real>, zs: seq<real>, m: nat, n: nat)
    requires m <= n < |mesh| && 2 * n <= |zs|
    ensures Simulate(f, x0, mesh, zs, n)[..m + 1] == Simulate(f, x0, mesh, zs, m)
    decreases n
  {
    if m < n {
      SimulatePrefix(f, x0, mesh, zs, m, n - 1);
      assert Simulate(f, x0, mesh, zs, n)[..n] == Simulate(f, x0, mesh, zs, n - 1);
    }
  }

  /** Level j + 1 of a simulated path is the step from level j at mesh time
      j over one mesh size, with draws zs[2j] and zs[2j + 1]. */
  lemma SimulateStep(f: Fdm, x0: real, mesh: seq<real>, zs: seq<real>, n: nat, j: nat)
    requires j < n < |mesh| && 2 * n <= |zs|
    ensures Simulate(f, x0, mesh, zs, n)[j + 1]
         == f.Advance(Simulate(f, x0, mesh, zs, n)[j], mesh[j], f.meshSize, zs[2 * j], zs[2 * j + 1])
  {
    SimulatePrefix(f, x0, mesh, zs, j + 1, n);
    assert Simulate(f, x0, mesh, zs, j + 1)[..j + 1] == Simulate(f, x0, mesh, zs, j);
  }

  /** Enough draws for every path: two per step. */
  predicate EnoughVariates(variates: seq<seq<real>>, nSim: nat, nt: nat) {
    |variates| >= nSim && forall i :: 0 <= i < |variates| ==> |variates[i]| >= 2 * nt
  }

  /** The callback invocations for path i: its progress output, then the
      delivery of its finished buffer. */
  function PathEvents(i: nat, path: seq<real>): seq<Event> {
    ProgressOutput(i) + [PathDelivered(path)]
  }

  /** The callback invocations of paths 1 to k, in order: for each path its
      progress output, then the delivery of its finished buffer. */
  function RunEvents(f: Fdm, x0: real, mesh: seq<real>, variates: seq<seq<real>>, nt: nat, k: nat): seq<Event>
    requires nt < |mesh| && EnoughVariates(variates, k, nt)
  {
    if k == 0 then []
    else
      RunEvents(f, x0, mesh, variates, nt, k - 1) + PathEvents(k, Simulate(f, x0, mesh, variates[k - 1], nt))
  }

  /** The paths delivered among some events, in order. */
  function Deliveries(events: seq<Event>): seq<seq<real>> {
    if events == [] then []
    else
      var e := events[|events| - 1];
      Deliveries(events[..|events| - 1]) + if e.PathDelivered? then [e.path] else []
  }

  /** Deliveries of a concatenation are the concatenated deliveries. */
  lemma {:induction false} DeliveriesAppend(a: seq<Event>, b: seq<Event>)
    ensures Deliveries(a + b) == Deliveries(a) + Deliveries(b)
    decreases |b|
  {
    if b == [] {
      assert a + b == a;
    } else {
      var b', e := b[..|b| - 1], b[|b| - 1];
      assert (a + b)[..|a + b| - 1] == a + b';
      DeliveriesAppend(a, b');
    }
  }

  /** One more iteration delivers exactly one more path, its own. */
  lemma DeliveriesStep(f: Fdm, x0: real, mesh: seq<real>, variates: seq<seq<real>>, nt: nat, k: nat)
    requires k > 0 && nt < |mesh| && EnoughVariates(variates, k, nt)
    ensures Deliveries(RunEvents(f, x0, mesh, variates, nt, k))
         == Deliveries(RunEvents(f, x0, mesh, variates, nt, k - 1)) + [Simulate(f, x0, mesh, variates[k - 1], nt)]
  {
    var prev := RunEvents(f, x0, mesh, variates, nt, k - 1);
    var p := Simulate(f, x0, mesh, variates[k - 1], nt);
    DeliveriesAppend(prev, PathEvents(k, p));
    DeliveriesAppend(ProgressOutput(k), [PathDelivered(p)]);
    assert Deliveries([PathDelivered(p)]) == [p] by {
      assert [PathDelivered(p)][..0] == [];
    }
    assert Deliveries(ProgressOutput(k)) == [] by {
      if k % ProgressEvery == 0 {
        assert [Progress(k)][..0] == [];
      }
    }
  }

  /** The paths built from the first k blocks of draws, in order. */
  function Paths(f: Fdm, x0: real, mesh: seq<real>, variates: seq<seq<real>>, nt: nat, k: nat): (ps: seq<seq<real>>)
    requires nt < |mesh| && EnoughVariates(variates, k, nt)
    ensures |ps| == k
    ensures forall i :: 0 <= i < k ==> ps[i] == Simulate(f, x0, mesh, variates[i], nt)
  {
    seq(k, i requires 0 <= i < k => Simulate(f, x0, mesh, variates[i], nt))
  }

  /** One more block of draws adds its own path at the end. */
  lemma PathsStep(f: Fdm, x0: real, mesh: seq<real>, variates: seq<seq<real>>, nt: nat, k: nat)
    requires k > 0 && nt < |mesh| && EnoughVariates(variates, k, nt)
    ensures Paths(f, x0, mesh, variates, nt, k)
         == Paths(f, x0, mesh, variates, nt, k - 1) + [Simulate(f, x0, mesh, variates[k - 1], nt)]
  {
  }

  /** After k iterations exactly k paths were delivered, the i-th one built
      from the i-th block of draws. */
  lemma {:induction false} PathsDelivered(f: Fdm, x0: real, mesh: seq<real>, variates: seq<seq<real>>, nt: nat, k: nat)
    requires nt < |mesh| && EnoughVariates(variates, k, nt)
    ensures Deliveries(RunEvents(f, x0, mesh, variates, nt, k)) == Paths(f, x0, mesh, variates, nt, k)
  {
    if k > 0 {
      PathsDelivered(f, x0, mesh, variates, nt, k - 1);
      DeliveriesStep(f, x0, mesh, variates, nt, k);
      PathsStep(f, x0, mesh, variates, nt, k);
    }
  }

  /** Every delivered path has NT + 1 levels and starts at the initial
      condition. */
  lemma DeliveredPathShape(f: Fdm, x0: real, mesh: seq<real>, variates: seq<seq<real>>, nt: nat, k: nat)
    requires nt < |mesh| && EnoughVariates(variates, k, nt)
    ensures forall p :: p in Deliveries(RunEvents(f, x0, mesh, variates, nt, k)) ==> |p| == nt + 1 && p[0] == x0
  {
    PathsDelivered(f, x0, mesh, variates, nt, k);
    forall p | p in Paths(f, x0, mesh, variates, nt, k)
      ensures |p| == nt + 1 && p[0] == x0
    {
      var i :| 0 <= i < k && Paths(f, x0, mesh, variates, nt, k)[i] == p;
    }
  }

  /** Progress is shown exactly for the multiples of 10000 among 1..k, and
      no finish event occurs before the run is over. */
  lemma {:induction false} ProgressAndFinish(f: Fdm, x0: real, mesh: seq<real>, variates: seq<seq<real>>, nt: nat, k: nat)
    requires nt < |mesh| && EnoughVariates(variates, k, nt)
    ensures forall n: nat :: Progress(n) in RunEvents(f, x0, mesh, variates, nt, k) <==>
      1 <= n <= k && n % ProgressEvery == 0
    ensures forall e :: e in RunEvents(f, x0, mesh, variates, nt, k) ==> !e.Finished?
  {
    if k > 0 {
      ProgressAndFinish(f, x0, mesh, variates, nt, k - 1);
    }
  }

  /** `MCMediator`: owns the process, the discretiser and the path buffer. */
  class MCMediator {
    const sde: SdeBase
    const fdm: Fdm
    const nSim: nat
    /** The path buffer `m_res`. */
    const res: array<real>
    /** The callback invocations so far. */
    var log: seq<Event>

    ghost predicate Valid()
      reads fdm.mesh
    {
      fdm.Valid() && res.Length == fdm.nt + 1 && res != fdm.mesh
    }

    /** Stores the parts and the simulation count as given and sizes the
        buffer to NT + 1 zeros. */
    constructor (sde: SdeBase, fdm: Fdm, nSim: nat)
      requires fdm.Valid()
      ensures Valid() && fresh(res)
      ensures this.sde == sde && this.fdm == fdm && this.nSim == nSim
      ensures res[..] == seq(fdm.nt + 1, _ => 0.0) && log == []
    {
      this.sde, this.fdm, this.nSim := sde, fdm, nSim;
      res := new real[fdm.GetNT() + 1](_ => 0.0);
      log := [];
    }

    /** The inner step loop: with index 0 already holding x0, fills indices
        1 to NT in increasing order, each from the one before at the
        previous mesh time, two draws per step. */
    method FillPath(x0: real, zs: seq<real>)
      requires Valid() && res[0] == x0 && |zs| >= 2 * fdm.nt
      modifies res
      ensures res[..] == Simulate(fdm, x0, fdm.GetMesh(), zs, fdm.nt)
    {
      var mesh, dt := fdm.GetMesh(), fdm.GetMeshSize();
      var j := 1;
      while j < res.Length
        invariant 1 <= j <= res.Length
        invariant res[..j] == Simulate(fdm, x0, mesh, zs, j - 1)
      {
        ghost var prev := res[..j];
        var next := fdm.Advance(res[j - 1], mesh[j - 1], dt, zs[2 * (j - 1)], zs[2 * (j - 1) + 1]);
        assert Simulate(fdm, x0, mesh, zs, j) == prev + [next];
        res[j] := next;
        assert res[..j + 1] == prev + [next];
        j := j + 1;
      }
      assert res[..] == res[..j];
    }

    /** The task for path i: the progress callback sees i, the steps fill
        the buffer from x0 with the block of draws zs, and the finished
        buffer is delivered. */
    method PathTask(i: nat, x0: real, zs: seq<real>)
      requires Valid() && res[0] == x0 && |zs| >= 2 * fdm.nt
      modifies this`log, res
      ensures Valid() && res[0] == x0
      ensures log == old(log) + PathEvents(i, Simulate(fdm, x0, fdm.GetMesh(), zs, fdm.nt))
    {
      log := log + ProgressOutput(i);
      FillPath(x0, zs);
      log := log + [PathDelivered(res[..])];
    }

    /** The simulation loop: index 0 of the buffer is set to x0 once, then
        the tasks for paths 1 to nSim run in order, path i with the i-th
        block of draws. */
    method RunPaths(x0: real, variates: seq<seq<real>>)
      requires Valid() && EnoughVariates(variates, nSim, fdm.nt)
      modifies this`log, res
      ensures Valid() && res[0] == x0
      ensures log == old(log) + RunEvents(fdm, x0, fdm.GetMesh(), variates, fdm.nt, nSim)
    {
      ghost var mesh := fdm.GetMesh();
      res[0] := x0;
      var i := 1;
      while i <= nSim
        invariant 1 <= i <= nSim + 1
        invariant res[0] == x0 && fdm.GetMesh() == mesh
        invariant log == old(log) + RunEvents(fdm, x0, mesh, variates, fdm.nt, i - 1)
      {
        PathTask(i, x0, variates[i - 1]);
        assert log == old(log) + (RunEvents(fdm, x0, mesh, variates, fdm.nt, i - 1)
          + PathEvents(i, Simulate(fdm, x0, mesh, variates[i - 1], fdm.nt)));
        i := i + 1;
      }
    }

    /** Runs the nSim simulations (see RunPaths) between two clock readings
        of a stopwatch, then calls the finish callback once with the time
        between them. */
    method Start(variates: seq<seq<real>>, startTime: real, stopTime: real)
      requires Valid() && EnoughVariates(variates, nSim, fdm.nt)
      modifies this`log, res
      ensures Valid() && res[0] == sde.InitialCondition()
      ensures log == old(log)
        + RunEvents(fdm, sde.InitialCondition(), fdm.GetMesh(), variates, fdm.nt, nSim)
        + [Finished(stopTime - startTime)]
    {
      var sw := new StopWatch(startTime);
      sw.Start(startTime);
      RunPaths(sde.InitialCondition(), variates);
      sw.Stop(stopTime);
      var duration := sw.GetTime(stopTime);
      log := log + [Finished(duration)];
    }
  }
}

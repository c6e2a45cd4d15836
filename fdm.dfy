/** Time discretisation (src/FDMAbstract.cpp, src/FDMDerived.cpp): a uniform
    time mesh built once at construction, and a one-step advance rule. */
module Fdm {
  import opened Numerics
  import opened SdeBase

  /** The two schemes. `Exact` carries the S0, vol and r its constructor
      stores. */
  datatype Scheme = Euler | Exact(S0: real, vol: real, r: real)

  /** Point k + 1 of a uniform mesh is point k plus the spacing. */
  lemma NextPoint(k: nat, size: real)
    ensures (k + 1) as real * size == k as real * size + size
  {
  }

  /** NT spacings of expiry / NT make up the expiry. */
  lemma LastPoint(nt: nat, expiry: real, size: real)
    requires nt >= 1 && size == expiry / nt as real
    ensures nt as real * size == expiry
  {
  }

  /** The mesh loop of the constructor: a zero-filled array of n + 1 points
      whose entries from index 1 on are each the previous one plus size. */
  method UniformMesh(n: nat, size: real) returns (points: array<real>)
    ensures fresh(points) && points.Length == n + 1
    ensures forall k :: 0 <= k < points.Length ==> points[k] == k as real * size
  {
    points := new real[n + 1](_ => 0.0);
    var i := 1;
    assert points[0] == 0 as real * size;
    while i < points.Length
      invariant 1 <= i <= points.Length
      invariant forall k :: 0 <= k < i ==> points[k] == k as real * size
    {
      points[i] := points[i - 1] + size;
      NextPoint(i - 1, size);
      i := i + 1;
    }
  }

  /** `EulerFDM` / `ExactFDM` over the state of `FDMAbstract`. */
  class Fdm {
    const sde: SdeBase
    const scheme: Scheme
    const math: Libm
    const nt: nat
    const mesh: array<real>
    const meshSize: real

    /** The mesh invariant: NT + 1 points spaced meshSize = expiry / NT apart
        from 0, so that the last point is the expiry. */
    ghost predicate Valid()
      reads mesh
    {
      && nt >= 1
      && meshSize == sde.Expiry() / nt as real
      && mesh.Length == nt + 1
      && forall i :: 0 <= i < mesh.Length ==> mesh[i] == i as real * meshSize
    }

    /** Builds the mesh: a zero-filled array of NT + 1 points whose entries
        from index 1 on are each the previous one plus the mesh size. The
        source does not guard NT = 0 (it would divide by zero), so NT >= 1 is
        demanded of the caller. */
    constructor (sde: SdeBase, scheme: Scheme, nt: nat, math: Libm)
      requires nt >= 1
      ensures this.sde == sde && this.scheme == scheme && this.math == math && this.nt == nt
      ensures Valid() && fresh(mesh)
    {
      var size := sde.Expiry() / nt as real;
      var points := UniformMesh(nt, size);
      this.sde, this.scheme, this.math, this.nt := sde, scheme, math, nt;
      mesh, meshSize := points, size;
    }

    function GetNT(): (n: nat)
      reads mesh
      requires Valid()
      ensures n >= 1 && n + 1 == mesh.Length
    {
      nt
    }

    /** A copy of the mesh: NT + 1 uniformly spaced points from 0 to expiry. */
    function GetMesh(): (s: seq<real>)
      reads mesh
      requires Valid()
      ensures |s| == nt + 1 && s[0] == 0.0 && s[nt] == sde.Expiry()
      ensures forall i :: 0 <= i < |s| ==> s[i] == i as real * meshSize
    {
      LastPoint(nt, sde.Expiry(), meshSize);
      mesh[..]
    }

    /** The mesh size: NT of them make up the expiry. */
    function GetMeshSize(): (dt: real)
      reads mesh
      requires Valid()
      ensures dt * nt as real == sde.Expiry()
    {
      meshSize
    }

    /** One step from level xn at time tn over dt, given two variates. Euler
        takes a conditional step from xn; Exact samples the lognormal level at
        the absolute time tn + dt from the stored S0 and ignores xn. Neither
        uses the second variate. */
    function Advance(xn: real, tn: real, dt: real, z: real, z2: real): real {
      match scheme
      case Euler =>
        xn + sde.Drift(xn, tn) * dt + sde.Diffusion(xn, tn) * math.sqrt(dt) * z
      case Exact(S0, vol, r) => LognormalLevel(math, S0, vol, r, tn + dt, z)
    }
  }

  /** The mesh as the constructor's loop leaves it: from index 1 on, each
      point is the previous one plus the mesh size. */
  lemma {:induction false} MeshSteps(f: Fdm)
    requires f.Valid()
    ensures f.mesh[0] == 0.0
    ensures forall i :: 1 <= i < f.mesh.Length ==> f.mesh[i] == f.mesh[i - 1] + f.meshSize
  {
    forall i | 1 <= i < f.mesh.Length
      ensures f.mesh[i] == f.mesh[i - 1] + f.meshSize
    {
      NextPoint(i - 1, f.meshSize);
    }
  }

  /** The exact lognormal level at absolute time T reached from S0 with
      standard normal draw z. */
  function LognormalLevel(math: Libm, S0: real, vol: real, r: real, T: real, z: real): real {
    var alpha := 0.5 * vol * vol;
    S0 * math.exp((r - alpha) * T + vol * math.sqrt(T) * z)
  }

  /** Euler is linear in its first variate and blind to its second: the
      increment over the deterministic part is diffusion * sqrt(dt) * z. */
  lemma EulerStep(f: Fdm, xn: real, tn: real, dt: real, z: real, z2: real, z2': real)
    requires f.scheme == Euler
    ensures f.Advance(xn, tn, dt, z, z2) - xn - f.sde.Drift(xn, tn) * dt
         == f.sde.Diffusion(xn, tn) * f.math.sqrt(dt) * z
    ensures f.Advance(xn, tn, dt, z, z2) == f.Advance(xn, tn, dt, z, z2')
    ensures f.Advance(xn, tn, dt, 0.0, z2) == xn + f.sde.Drift(xn, tn) * dt
  {
  }

  /** Exact depends only on tn + dt, z and the stored S0, vol and r: neither
      the carried level xn nor the second variate enters, and with z = 0 the
      step is the deterministic S0 exp((r - vol^2/2)(tn + dt)). */
  lemma ExactStep(f: Fdm, xn: real, xn': real, tn: real, dt: real, z: real, z2: real, z2': real)
    requires f.scheme.Exact?
    ensures f.Advance(xn, tn, dt, z, z2) == f.Advance(xn', tn, dt, z, z2')
    ensures f.Advance(xn, tn, dt, 0.0, z2)
         == f.scheme.S0 * f.math.exp((f.scheme.r - f.scheme.vol * f.scheme.vol / 2.0) * (tn + dt))
  {
    var vol, r, T := f.scheme.vol, f.scheme.r, tn + dt;
    assert (r - 0.5 * vol * vol) * T + vol * f.math.sqrt(T) * 0.0 == (r - vol * vol / 2.0) * T;
  }

  /** The step depends on tn and dt only through tn + dt. */
  lemma ExactAbsoluteTime(f: Fdm, xn: real, tn: real, dt: real, tn': real, dt': real, z: real, z2: real)
    requires f.scheme.Exact? && tn + dt == tn' + dt'
    ensures f.Advance(xn, tn, dt, z, z2) == f.Advance(xn, tn', dt', z, z2)
  {
  }
}

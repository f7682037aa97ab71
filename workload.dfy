/**
 * Reversible workload generators (`ispd::workload`). A workload counts the
 * tasks still to be generated and, per task, produces a processing size and
 * a communication size. Under Time Warp every generation may be rolled back,
 * so each policy has a reverse operation that must restore the counter and
 * rewind the random stream by exactly the draws the forward call consumed.
 *
 * The C++ class hierarchy (`Workload` with the subclasses `ConstantWorkload`
 * and `UniformWorkload`) becomes one class whose immutable `policy` is a
 * tagged union of the two variants; `Generate` and `ReverseGenerate`
 * dispatch on the tag.
 */
module Workloads {
  import opened Unsigned
  import opened Rng

  /** The generation policy and its configured constants or bounds. */
  datatype Policy =
    | Constant(procSize: real, commSize: real)
    | Uniform(minProcSize: real, maxProcSize: real, minCommSize: real, maxCommSize: real)

  /** The configuration errors the constructors abort with; each carries the offending value. */
  datatype ConfigError =
    | NonPositiveConstantProcSize(value: real)
    | NonPositiveConstantCommSize(value: real)
    | NonPositiveMinProcSize(value: real)
    | NonPositiveMaxProcSize(value: real)
    | NonPositiveMinCommSize(value: real)
    | NonPositiveMaxCommSize(value: real)

  datatype Option<T> = None | Some(value: T)

  datatype Result<T> = Ok(value: T) | Err(error: ConfigError)

  /** The constructors accept a policy exactly when every configured size or bound is positive. */
  ghost predicate AllPositive(p: Policy)
  {
    match p
    case Constant(ps, cs) => ps > 0.0 && cs > 0.0
    case Uniform(minP, maxP, minC, maxC) => minP > 0.0 && maxP > 0.0 && minC > 0.0 && maxC > 0.0
  }

  /**
   * The constructors' sanity checks, in source order; the first failing
   * check is the one reported (the process aborts on it). Nothing compares
   * a maximum with its minimum.
   */
  function Validate(p: Policy): (e: Option<ConfigError>)
    ensures e.None? <==> AllPositive(p)
    ensures e.Some? ==> e.value.value <= 0.0
    ensures p.Constant? && p.procSize <= 0.0 ==> e == Some(NonPositiveConstantProcSize(p.procSize))
    ensures p.Constant? && p.procSize > 0.0 && p.commSize <= 0.0 ==> e == Some(NonPositiveConstantCommSize(p.commSize))
    ensures p.Uniform? && p.minProcSize <= 0.0 ==> e == Some(NonPositiveMinProcSize(p.minProcSize))
    ensures p.Uniform? && p.minProcSize > 0.0 && p.maxProcSize <= 0.0 ==>
              e == Some(NonPositiveMaxProcSize(p.maxProcSize))
    ensures p.Uniform? && p.minProcSize > 0.0 && p.maxProcSize > 0.0 && p.minCommSize <= 0.0 ==>
              e == Some(NonPositiveMinCommSize(p.minCommSize))
    ensures p.Uniform? && p.minProcSize > 0.0 && p.maxProcSize > 0.0 && p.minCommSize > 0.0 && p.maxCommSize <= 0.0 ==>
              e == Some(NonPositiveMaxCommSize(p.maxCommSize))
  {
    match p
    case Constant(ps, cs) =>
      if ps <= 0.0 then Some(NonPositiveConstantProcSize(ps))
      else if cs <= 0.0 then Some(NonPositiveConstantCommSize(cs))
      else None
    case Uniform(minP, maxP, minC, maxC) =>
      if minP <= 0.0 then Some(NonPositiveMinProcSize(minP))
      else if maxP <= 0.0 then Some(NonPositiveMaxProcSize(maxP))
      else if minC <= 0.0 then Some(NonPositiveMinCommSize(minC))
      else if maxC <= 0.0 then Some(NonPositiveMaxCommSize(maxC))
      else None
  }

  /** How many uniform draws one generation consumes. */
  function Draws(p: Policy): nat
  {
    match p
    case Constant(_, _) => 0
    case Uniform(_, _, _, _) => 2
  }

  /**
   * The (processing size, communication size) pair a generation produces
   * when the stream stands at `position`: the constants, or the first draw
   * scaled into the processing range and the second into the communication
   * range.
   */
  function Sizes(p: Policy, sample: int -> real, position: int): (real, real)
  {
    match p
    case Constant(ps, cs) => (ps, cs)
    case Uniform(minP, maxP, minC, maxC) =>
      (Scale(minP, maxP, sample(position)), Scale(minC, maxC, sample(position + 1)))
  }

  /** `lo + u * (hi - lo)`: a draw `u` scaled into the range from `lo` to `hi`. */
  function Scale(lo: real, hi: real, u: real): real
  {
    lo + u * (hi - lo)
  }

  /** The state a generation changes: the remaining-task counter and the stream position. */
  datatype GenState = GenState(remainingTasks: u32, position: int)

  function GenerateStep(p: Policy, s: GenState): GenState
  {
    GenState(Dec32(s.remainingTasks), s.position + Draws(p))
  }

  function ReverseStep(p: Policy, s: GenState): GenState
  {
    GenState(Inc32(s.remainingTasks), s.position - Draws(p))
  }

  /** `k` generations in a row. */
  function GenerateSteps(p: Policy, s: GenState, k: nat): GenState
  {
    if k == 0 then s else GenerateStep(p, GenerateSteps(p, s, k - 1))
  }

  /** `k` reversals in a row, as a rollback over `k` generate events issues them. */
  function ReverseSteps(p: Policy, s: GenState, k: nat): GenState
    decreases k
  {
    if k == 0 then s else ReverseSteps(p, ReverseStep(p, s), k - 1)
  }

  /** Reverse after generate is the identity on the generator state. */
  lemma ReverseUndoesGenerate(p: Policy, s: GenState)
    ensures ReverseStep(p, GenerateStep(p, s)) == s
  {
    IncDecInverse(s.remainingTasks);
  }

  /** Generate after reverse is the identity too, so re-execution after a rollback retraces the same states. */
  lemma GenerateRedoesReverse(p: Policy, s: GenState)
    ensures GenerateStep(p, ReverseStep(p, s)) == s
  {
    IncDecInverse(s.remainingTasks);
  }

  /** Rolling back `k` generations with `k` reversals, latest first, restores the state before them. */
  lemma {:induction false} RollbackRestores(p: Policy, s: GenState, k: nat)
    ensures ReverseSteps(p, GenerateSteps(p, s, k), k) == s
  {
    if k > 0 {
      var before := GenerateSteps(p, s, k - 1);
      ReverseUndoesGenerate(p, before);
      RollbackRestores(p, s, k - 1);
    }
  }

  /**
   * While tasks remain, `k` generations take exactly `k` off the counter
   * and move the stream forward by `k` times the draws per task.
   */
  lemma {:induction false} GenerateStepsEffect(p: Policy, s: GenState, k: nat)
    requires k <= s.remainingTasks
    ensures GenerateSteps(p, s, k) == GenState(s.remainingTasks - k, s.position + k * Draws(p))
  {
    if k > 0 {
      GenerateStepsEffect(p, s, k - 1);
    }
  }

  /** `x` lies between `lo` and `hi`, whichever of the two is larger. */
  ghost predicate Between(lo: real, hi: real, x: real)
  {
    (lo <= hi ==> lo <= x <= hi) && (hi <= lo ==> hi <= x <= lo)
  }

  lemma NonNegativeProduct(a: real, b: real)
    requires 0.0 <= a && 0.0 <= b
    ensures 0.0 <= a * b
  {
  }

  lemma ScaledInRange(lo: real, hi: real, u: real)
    requires 0.0 <= u <= 1.0
    ensures Between(lo, hi, Scale(lo, hi, u))
  {
    var d := hi - lo;
    assert u * d + (1.0 - u) * d == d;
    if lo <= hi {
      NonNegativeProduct(u, d);
      NonNegativeProduct(1.0 - u, d);
    } else {
      NonNegativeProduct(u, -d);
      NonNegativeProduct(1.0 - u, -d);
    }
  }

  /**
   * A uniform size lies between its two bounds; with the minimum not above
   * the maximum that is the range [min, max]. The bounds need not be
   * ordered: the constructor does not check it.
   */
  lemma UniformSizesInRange(p: Policy, sample: int -> real, position: int)
    requires p.Uniform?
    requires InUnitInterval(sample)
    ensures Between(p.minProcSize, p.maxProcSize, Sizes(p, sample, position).0)
    ensures Between(p.minCommSize, p.maxCommSize, Sizes(p, sample, position).1)
  {
    ScaledInRange(p.minProcSize, p.maxProcSize, sample(position));
    ScaledInRange(p.minCommSize, p.maxCommSize, sample(position + 1));
  }

  /** Every size a validated policy generates is positive. */
  lemma ValidatedSizesPositive(p: Policy, sample: int -> real, position: int)
    requires Validate(p).None?
    requires InUnitInterval(sample)
    ensures Sizes(p, sample, position).0 > 0.0 && Sizes(p, sample, position).1 > 0.0
  {
    if p.Uniform? {
      UniformSizesInRange(p, sample, position);
    }
  }

  class Workload {
    /** `m_RemainingTasks`: the tasks this workload has yet to generate. */
    var remainingTasks: u32
    /** The variant and its constants or bounds; no operation changes them. */
    const policy: Policy

    ghost predicate Valid()
    {
      Validate(policy).None?
    }

    /** The shared part of the constructors, once their checks have passed. */
    constructor (remainingTasks: u32, policy: Policy)
      requires Validate(policy).None?
      ensures Valid()
      ensures this.remainingTasks == remainingTasks && this.policy == policy
    {
      this.remainingTasks := remainingTasks;
      this.policy := policy;
    }

    function State(rng: Stream): GenState
      reads this, rng
    {
      GenState(remainingTasks, rng.position)
    }

    /** `getRemainingTasks`: the current counter, unchanged. */
    method GetRemainingTasks() returns (n: u32)
      ensures n == remainingTasks
    {
      n := remainingTasks;
    }

    /**
     * `generateWorkload`: writes the sizes for one task, takes the draws
     * the policy needs from `rng` (none for Constant; processing then
     * communication for Uniform) and decrements the counter.
     */
    method Generate(rng: Stream) returns (procSize: real, commSize: real)
      requires rng.Valid()
      modifies this, rng
      ensures (procSize, commSize) == Sizes(policy, rng.sample, old(rng.position))
      ensures State(rng) == GenerateStep(policy, old(State(rng)))
      ensures old(remainingTasks) > 0 ==> remainingTasks == old(remainingTasks) - 1
      ensures policy.Constant? ==> procSize == policy.procSize && commSize == policy.commSize
      ensures policy.Constant? ==> rng.position == old(rng.position)
      ensures Valid() ==> procSize > 0.0 && commSize > 0.0
      ensures policy.Uniform? ==>
                (Between(policy.minProcSize, policy.maxProcSize, procSize)
                 && Between(policy.minCommSize, policy.maxCommSize, commSize))
    {
      ghost var start := rng.position;
      match policy {
        case Constant(ps, cs) =>
          procSize := ps;
          commSize := cs;
        case Uniform(minP, maxP, minC, maxC) =>
          var u1 := rng.Unif();
          procSize := Scale(minP, maxP, u1);
          var u2 := rng.Unif();
          commSize := Scale(minC, maxC, u2);
          UniformSizesInRange(policy, rng.sample, start);
      }
      if Valid() {
        ValidatedSizesPositive(policy, rng.sample, start);
      }
      remainingTasks := Dec32(remainingTasks);
    }

    /**
     * `reverseGenerateWorkload`: rewinds the stream by the draws a
     * generation takes (two for Uniform, none for Constant) and increments
     * the counter.
     */
    method ReverseGenerate(rng: Stream)
      modifies this, rng
      ensures State(rng) == ReverseStep(policy, old(State(rng)))
      ensures policy.Constant? ==> rng.position == old(rng.position)
    {
      match policy {
        case Constant(_, _) =>
        case Uniform(_, _, _, _) =>
          rng.ReverseUnif();
          rng.ReverseUnif();
      }
      remainingTasks := Inc32(remainingTasks);
    }
  }

  /** `constant`: a Constant workload, or the configuration error its constructor aborts with. */
  method NewConstant(remainingTasks: u32, procSize: real, commSize: real) returns (r: Result<Workload>)
    ensures r.Err? <==> !(procSize > 0.0 && commSize > 0.0)
    ensures r.Err? ==> Validate(Constant(procSize, commSize)) == Some(r.error)
    ensures r.Ok? ==>
              (fresh(r.value) && r.value.Valid()
               && r.value.remainingTasks == remainingTasks
               && r.value.policy == Constant(procSize, commSize))
  {
    var p := Constant(procSize, commSize);
    match Validate(p)
    case Some(e) =>
      r := Err(e);
    case None =>
      var w := new Workload(remainingTasks, p);
      r := Ok(w);
  }

  /** `uniform`: a Uniform workload, or the configuration error its constructor aborts with. */
  method NewUniform(remainingTasks: u32, minProcSize: real, maxProcSize: real,
                    minCommSize: real, maxCommSize: real) returns (r: Result<Workload>)
    ensures r.Err? <==> !(minProcSize > 0.0 && maxProcSize > 0.0 && minCommSize > 0.0 && maxCommSize > 0.0)
    ensures r.Err? ==> Validate(Uniform(minProcSize, maxProcSize, minCommSize, maxCommSize)) == Some(r.error)
    ensures r.Ok? ==>
              (fresh(r.value) && r.value.Valid()
               && r.value.remainingTasks == remainingTasks
               && r.value.policy == Uniform(minProcSize, maxProcSize, minCommSize, maxCommSize))
  {
    var p := Uniform(minProcSize, maxProcSize, minCommSize, maxCommSize);
    match Validate(p)
    case Some(e) =>
      r := Err(e);
    case None =>
      var w := new Workload(remainingTasks, p);
      r := Ok(w);
  }

  /**
   * A rollback in miniature: generate, reverse, generate again. The replay
   * yields the very sizes of the first generation and leaves the state one
   * generation on, as the first call alone would have.
   */
  method GenerateRollbackReplay(w: Workload, rng: Stream) returns (first: (real, real), replay: (real, real))
    requires rng.Valid()
    modifies w, rng
    ensures first == replay
    ensures first == Sizes(w.policy, rng.sample, old(rng.position))
    ensures w.State(rng) == GenerateStep(w.policy, old(w.State(rng)))
  {
    ghost var s := w.State(rng);
    var p1, c1 := w.Generate(rng);
    w.ReverseGenerate(rng);
    ReverseUndoesGenerate(w.policy, s);
    assert w.State(rng) == s;
    var p2, c2 := w.Generate(rng);
    first, replay := (p1, c1), (p2, c2);
  }
}

/**
 * Objective and gradient evaluation of the Tao optimisation solver
 * (src/tao/interface/taosolver_fg.c): the user installs routines for the
 * objective, the gradient, both at once, or a separable (least-squares)
 * objective; the evaluation entry points pick a routine, call it with the
 * input vector locked, and count the evaluation.
 *
 * The user routines are opaque. A routine, a context, a vector the solver
 * only stores are handles; whether a routine fails on a given call is the
 * parameter `failing`, the set of slots whose routine returns an error.
 */
module TaoEvaluation {
  import opened Optional

  /** An opaque object the solver only stores: a routine, a user context or a vector. */
  type Handle = nat

  /** The installed gradient routine: a user routine, or the library's finite-difference one. */
  datatype GradientRoutine = UserGradient(h: Handle) | DefaultGradient

  /** The four routine slots of the solver. */
  datatype Slot = ObjectiveSlot | GradientSlot | CombinedSlot | SeparableSlot

  /** The installed routines, as far as dispatch depends on them. */
  datatype Routines = Routines(
    objective: Option<Handle>,
    gradient: Option<GradientRoutine>,
    combined: Option<Handle>,
    separable: Option<Handle>)

  /** The evaluation counters. */
  datatype Counters = Counters(nfuncs: nat, ngrads: nat, nfuncgrads: nat)

  datatype Counter = NFuncs | NGrads | NFuncGrads

  datatype TaoError =
    | WrongState          // the needed routine has not been installed
    | UserRoutineFailed   // a user routine returned an error, which is passed on

  /**
   * One routine call: the slot called, the counter bumped when it returns
   * successfully, and how many extra locks on the input vector are held
   * while it runs (1 for a call made from a nested evaluation).
   */
  datatype Step = Step(slot: Slot, bump: Counter, depth: nat)

  /** What an evaluation does: a sequence of calls, or nothing because no suitable routine is set. */
  datatype Route = Calls(plan: seq<Step>) | NotSet

  /** The result of running a plan: the counters, the step that failed if any, and how many steps completed. */
  datatype Outcome = Outcome(counters: Counters, failed: Option<Step>, ran: nat)

  function Bump(c: Counters, k: Counter): Counters {
    match k
    case NFuncs => c.(nfuncs := c.nfuncs + 1)
    case NGrads => c.(ngrads := c.ngrads + 1)
    case NFuncGrads => c.(nfuncgrads := c.nfuncgrads + 1)
  }

  function Total(c: Counters): nat {
    c.nfuncs + c.ngrads + c.nfuncgrads
  }

  /** The number of objective values computed: by the objective routine or by the combined one. */
  function ObjectiveEvals(c: Counters): nat {
    c.nfuncs + c.nfuncgrads
  }

  /** The number of gradients computed: by the gradient routine or by the combined one. */
  function GradientEvals(c: Counters): nat {
    c.ngrads + c.nfuncgrads
  }

  /**
   * Runs the calls in order, bumping each one's counter when it returns,
   * and stops at the first call whose routine fails.
   */
  function Run(c: Counters, plan: seq<Step>, failing: set<Slot>): (o: Outcome)
    ensures o.ran <= |plan|
    ensures forall i :: 0 <= i < o.ran ==> plan[i].slot !in failing
    ensures o.failed.None? <==> o.ran == |plan|
    ensures o.failed.Some? ==> o.failed.value == plan[o.ran] && plan[o.ran].slot in failing
    ensures Total(o.counters) == Total(c) + o.ran
    decreases |plan|
  {
    if |plan| == 0 then Outcome(c, None, 0)
    else if plan[0].slot in failing then Outcome(c, Some(plan[0]), 0)
    else
      var rest := Run(Bump(c, plan[0].bump), plan[1..], failing);
      Outcome(rest.counters, rest.failed, rest.ran + 1)
  }

  /** The lock depth of the input vector afterwards: restored on success, left pushed on failure. */
  function LockAfter(lock: nat, o: Outcome): nat {
    if o.failed.None? then lock else lock + 1 + o.failed.value.depth
  }

  /** The same calls, made from inside one more evaluation. */
  function Nested(plan: seq<Step>): (r: seq<Step>)
    ensures |r| == |plan|
    ensures forall i :: 0 <= i < |plan| ==> r[i].slot == plan[i].slot && r[i].bump == plan[i].bump
    ensures forall i :: 0 <= i < |plan| ==> r[i].depth == plan[i].depth + 1
  {
    seq(|plan|, i requires 0 <= i < |plan| => plan[i].(depth := plan[i].depth + 1))
  }

  /** Dispatch of a gradient evaluation. */
  function GradientRoute(rt: Routines): Route {
    if rt.gradient.Some? then Calls([Step(GradientSlot, NGrads, 0)])
    else if rt.combined.Some? then Calls([Step(CombinedSlot, NFuncGrads, 0)])
    else NotSet
  }

  /** Dispatch of an objective evaluation. */
  function ObjectiveRoute(rt: Routines): Route {
    if rt.objective.Some? then Calls([Step(ObjectiveSlot, NFuncs, 0)])
    else if rt.combined.Some? then Calls([Step(CombinedSlot, NFuncGrads, 0)])
    else NotSet
  }

  /**
   * Dispatch of a joint evaluation. With the finite-difference gradient
   * installed beside a combined routine, the objective is evaluated by a
   * nested objective evaluation and the gradient by the installed routine.
   */
  function ObjectiveAndGradientRoute(rt: Routines): Route {
    if rt.combined.Some? then
      if rt.gradient == Some(DefaultGradient) then
        Calls(Nested(ObjectiveRoute(rt).plan) + [Step(GradientSlot, NFuncGrads, 0)])
      else Calls([Step(CombinedSlot, NFuncGrads, 0)])
    else if rt.objective.Some? && rt.gradient.Some? then
      Calls([Step(ObjectiveSlot, NFuncs, 0), Step(GradientSlot, NGrads, 0)])
    else NotSet
  }

  /** Dispatch of a separable objective evaluation. */
  function SeparableRoute(rt: Routines): Route {
    if rt.separable.Some? then Calls([Step(SeparableSlot, NFuncs, 0)]) else NotSet
  }

  /** What an evaluation reports and how it leaves the counters, given its route. */
  ghost predicate Evaluated(route: Route, failing: set<Slot>, c0: Counters, c1: Counters, err: Option<TaoError>) {
    match route
    case NotSet => err == Some(WrongState) && c1 == c0
    case Calls(plan) =>
      var o := Run(c0, plan, failing);
      c1 == o.counters && err == (if o.failed.None? then None else Some(UserRoutineFailed))
  }

  /** The lock depth an evaluation that locks its input leaves behind; the lock is taken before dispatch. */
  function LockLeft(route: Route, failing: set<Slot>, c0: Counters, lock0: nat): nat {
    match route
    case NotSet => lock0 + 1
    case Calls(plan) => LockAfter(lock0, Run(c0, plan, failing))
  }

  // ---------------------------------------------------------------------
  // Properties of the dispatch
  // ---------------------------------------------------------------------

  /** A plan none of whose routines fails runs to the end; its counters do not depend on `failing`. */
  lemma {:induction false} RunWithoutFailure(c: Counters, plan: seq<Step>, failing: set<Slot>)
    requires forall i :: 0 <= i < |plan| ==> plan[i].slot !in failing
    ensures Run(c, plan, failing) == Run(c, plan, {})
    ensures Run(c, plan, failing).failed.None?
    decreases |plan|
  {
    if |plan| > 0 {
      RunWithoutFailure(Bump(c, plan[0].bump), plan[1..], failing);
    }
  }

  /** A failing first routine leaves the counters alone. */
  lemma FirstFailureCountsNothing(c: Counters, plan: seq<Step>, failing: set<Slot>)
    requires |plan| > 0 && plan[0].slot in failing
    ensures Run(c, plan, failing).counters == c
    ensures Run(c, plan, failing).failed == Some(plan[0])
  {
  }

  /**
   * A gradient evaluation fails with WRONGSTATE exactly when neither a
   * gradient nor a combined routine is set; otherwise it prefers the
   * gradient routine, and a successful one counts exactly one gradient.
   */
  lemma GradientDispatch(rt: Routines, c: Counters)
    ensures GradientRoute(rt).NotSet? <==> rt.gradient.None? && rt.combined.None?
    ensures GradientRoute(rt).Calls? ==>
      var o := Run(c, GradientRoute(rt).plan, {});
      && o.failed.None?
      && o.counters == (if rt.gradient.Some? then c.(ngrads := c.ngrads + 1) else c.(nfuncgrads := c.nfuncgrads + 1))
      && GradientEvals(o.counters) == GradientEvals(c) + 1
  {
  }

  /**
   * An objective evaluation fails with WRONGSTATE exactly when neither an
   * objective nor a combined routine is set; otherwise it prefers the
   * objective routine, and a successful one counts exactly one objective value.
   */
  lemma ObjectiveDispatch(rt: Routines, c: Counters)
    ensures ObjectiveRoute(rt).NotSet? <==> rt.objective.None? && rt.combined.None?
    ensures ObjectiveRoute(rt).Calls? ==>
      var o := Run(c, ObjectiveRoute(rt).plan, {});
      && o.failed.None?
      && o.counters == (if rt.objective.Some? then c.(nfuncs := c.nfuncs + 1) else c.(nfuncgrads := c.nfuncgrads + 1))
      && ObjectiveEvals(o.counters) == ObjectiveEvals(c) + 1
  {
  }

  /** Running one call. */
  lemma RunOne(c: Counters, s: Step, failing: set<Slot>)
    ensures Run(c, [s], failing) ==
      if s.slot in failing then Outcome(c, Some(s), 0) else Outcome(Bump(c, s.bump), None, 1)
  {
    assert [s][1..] == [];
  }

  /** Running two calls. */
  lemma RunTwo(c: Counters, s1: Step, s2: Step, failing: set<Slot>)
    ensures Run(c, [s1, s2], failing) ==
      if s1.slot in failing then Outcome(c, Some(s1), 0)
      else if s2.slot in failing then Outcome(Bump(c, s1.bump), Some(s2), 1)
      else Outcome(Bump(Bump(c, s1.bump), s2.bump), None, 2)
  {
    assert [s1, s2][1..] == [s2];
    assert [s2][1..] == [];
    if s1.slot !in failing {
      assert Run(c, [s1, s2], failing).counters == Run(Bump(c, s1.bump), [s2], failing).counters;
    }
  }

  /** The finite-difference path: a nested objective evaluation, then the installed gradient routine. */
  lemma DefaultGradientPlan(rt: Routines)
    requires rt.combined.Some? && rt.gradient == Some(DefaultGradient)
    ensures ObjectiveRoute(rt).Calls? && |ObjectiveRoute(rt).plan| == 1
    ensures ObjectiveAndGradientRoute(rt).plan ==
      [ObjectiveRoute(rt).plan[0].(depth := 1), Step(GradientSlot, NFuncGrads, 0)]
  {
  }

  /**
   * A joint evaluation fails with WRONGSTATE exactly when there is no
   * combined routine and the objective or the gradient routine is missing.
   * A successful one bumps nfuncgrads once for the combined routine, or
   * nfuncs and ngrads once each for the separate routines; on the
   * finite-difference path it bumps nfuncgrads once on top of what the
   * nested objective evaluation counts.
   */
  lemma {:induction false} ObjectiveAndGradientDispatch(rt: Routines, c: Counters)
    ensures ObjectiveAndGradientRoute(rt).NotSet? <==>
      rt.combined.None? && (rt.objective.None? || rt.gradient.None?)
    ensures ObjectiveAndGradientRoute(rt).Calls? ==>
      var o := Run(c, ObjectiveAndGradientRoute(rt).plan, {});
      && o.failed.None?
      && o.counters ==
           if rt.combined.None? then c.(nfuncs := c.nfuncs + 1, ngrads := c.ngrads + 1)
           else if rt.gradient != Some(DefaultGradient) then c.(nfuncgrads := c.nfuncgrads + 1)
           else
             var nested := Run(c, ObjectiveRoute(rt).plan, {}).counters;
             nested.(nfuncgrads := nested.nfuncgrads + 1)
  {
    var route := ObjectiveAndGradientRoute(rt);
    if route.Calls? {
      if rt.combined.Some? && rt.gradient == Some(DefaultGradient) {
        DefaultGradientPlan(rt);
        var first := ObjectiveRoute(rt).plan[0];
        RunTwo(c, first.(depth := 1), Step(GradientSlot, NFuncGrads, 0), {});
        assert Run(c, ObjectiveRoute(rt).plan, {}).counters == Bump(c, first.bump);
      } else if rt.combined.None? {
        RunTwo(c, Step(ObjectiveSlot, NFuncs, 0), Step(GradientSlot, NGrads, 0), {});
      }
    }
  }

  /** The finite-difference path never calls the combined routine unless the objective routine is missing. */
  lemma DefaultGradientPathSkipsCombined(rt: Routines, i: nat)
    requires rt.combined.Some? && rt.gradient == Some(DefaultGradient) && rt.objective.Some?
    requires i < |ObjectiveAndGradientRoute(rt).plan|
    ensures ObjectiveAndGradientRoute(rt).plan[i].slot != CombinedSlot
  {
  }

  /** A separable evaluation fails with WRONGSTATE exactly when no separable routine is set, and counts as one objective. */
  lemma SeparableDispatch(rt: Routines, c: Counters)
    ensures SeparableRoute(rt).NotSet? <==> rt.separable.None?
    ensures SeparableRoute(rt).Calls? ==> Run(c, SeparableRoute(rt).plan, {}).counters == c.(nfuncs := c.nfuncs + 1)
  {
  }

  /**
   * Whatever the route, an evaluation that reports success leaves the lock
   * depth of the input vector as it found it, and one that fails leaves it
   * deeper.
   */
  lemma LockBalance(route: Route, failing: set<Slot>, c0: Counters, lock0: nat, c1: Counters, err: Option<TaoError>)
    requires Evaluated(route, failing, c0, c1, err)
    ensures err.None? <==> LockLeft(route, failing, c0, lock0) == lock0
    ensures err.Some? ==> LockLeft(route, failing, c0, lock0) > lock0
    ensures err.None? ==> route.Calls? && Total(c1) == Total(c0) + |route.plan|
  {
  }

  // ---------------------------------------------------------------------
  // The solver object
  // ---------------------------------------------------------------------

  /** The input vector of an evaluation; evaluations lock it against change while a routine runs. */
  class InputVector {
    var lock: nat
  }

  class Tao {
    var objective: Option<Handle>
    var objectiveCtx: Handle
    var gradient: Option<GradientRoutine>
    var gradientCtx: Handle
    var combined: Option<Handle>
    var combinedCtx: Handle
    var separable: Option<Handle>
    var separableCtx: Handle
    var sepObjective: Option<Handle>
    var solution: Option<Handle>
    var nfuncs: nat
    var ngrads: nat
    var nfuncgrads: nat
    var sepWeightsV: Option<Handle>
    var sepWeightsN: int
    var sepWeightsRows: array?<int>
    var sepWeightsCols: array?<int>
    var sepWeightsW: array?<real>

    function Installed(): Routines
      reads this`objective, this`gradient, this`combined, this`separable
    {
      Routines(objective, gradient, combined, separable)
    }

    function Counted(): Counters
      reads this`nfuncs, this`ngrads, this`nfuncgrads
    {
      Counters(nfuncs, ngrads, nfuncgrads)
    }

    /** Either no weight triples are stored, or n of them in three arrays of length n. */
    ghost predicate WeightsValid()
      reads this
    {
      sepWeightsN == 0 ||
      (&& sepWeightsN > 0
       && sepWeightsRows != null && sepWeightsCols != null && sepWeightsW != null
       && sepWeightsRows.Length == sepWeightsN
       && sepWeightsCols.Length == sepWeightsN
       && sepWeightsW.Length == sepWeightsN)
    }

    /** Replaces the stored initial guess. */
    method SetInitialVector(x0: Option<Handle>)
      modifies this`solution
      ensures solution == x0
    {
      solution := x0;
    }

    method SetObjectiveRoutine(func: Option<Handle>, ctx: Handle)
      modifies this`objective, this`objectiveCtx
      ensures objective == func && objectiveCtx == ctx
    {
      objectiveCtx := ctx;
      objective := func;
    }

    method SetGradientRoutine(func: Option<GradientRoutine>, ctx: Handle)
      modifies this`gradient, this`gradientCtx
      ensures gradient == func && gradientCtx == ctx
    {
      gradientCtx := ctx;
      gradient := func;
    }

    method SetObjectiveAndGradientRoutine(func: Option<Handle>, ctx: Handle)
      modifies this`combined, this`combinedCtx
      ensures combined == func && combinedCtx == ctx
    {
      combinedCtx := ctx;
      combined := func;
    }

    /** Installs the separable routine together with the vector it fills. */
    method SetSeparableObjectiveRoutine(sepobj: Handle, func: Option<Handle>, ctx: Handle)
      modifies this`separable, this`separableCtx, this`sepObjective
      ensures separable == func && separableCtx == ctx && sepObjective == Some(sepobj)
    {
      separableCtx := ctx;
      sepObjective := Some(sepobj);
      separable := func;
    }

    /**
     * Replaces the weight vector and, when `vals` is given, stores copies
     * of the first n (row, column, value) triples. Without `vals` the count
     * and the row and column arrays are cleared and the value array is kept.
     */
    method SetSeparableObjectiveWeights(sigmaV: Option<Handle>, n: int,
                                        rows: array?<int>, cols: array?<int>, vals: array?<real>)
      requires vals != null ==> 0 <= n && rows != null && cols != null
      requires vals != null ==> n <= rows.Length && n <= cols.Length && n <= vals.Length
      modifies this`sepWeightsV, this`sepWeightsN, this`sepWeightsRows, this`sepWeightsCols, this`sepWeightsW
      ensures WeightsValid()
      ensures sepWeightsV == sigmaV
      ensures vals != null ==>
        && sepWeightsN == n
        && sepWeightsRows != null && sepWeightsCols != null && sepWeightsW != null
        && fresh(sepWeightsRows) && fresh(sepWeightsCols) && fresh(sepWeightsW)
        && sepWeightsRows[..] == rows[..n]
        && sepWeightsCols[..] == cols[..n]
        && sepWeightsW[..] == vals[..n]
      ensures vals == null ==>
        sepWeightsN == 0 && sepWeightsRows == null && sepWeightsCols == null && sepWeightsW == old(sepWeightsW)
    {
      sepWeightsV := sigmaV;
      if vals != null {
        var r := new int[n];
        var c := new int[n];
        var w := new real[n];
        for i := 0 to n
          invariant sepWeightsV == sigmaV
          invariant r[..i] == rows[..i]
          invariant c[..i] == cols[..i]
          invariant w[..i] == vals[..i]
        {
          r[i] := rows[i];
          c[i] := cols[i];
          w[i] := vals[i];
        }
        assert r[..] == r[..n] && c[..] == c[..n] && w[..] == w[..n];
        sepWeightsRows, sepWeightsCols, sepWeightsW := r, c, w;
        sepWeightsN := n;
      } else {
        sepWeightsN := 0;
        sepWeightsRows := null;
        sepWeightsCols := null;
      }
    }

    /** Computes the gradient at x: see GradientRoute. */
    method ComputeGradient(x: InputVector, failing: set<Slot>) returns (err: Option<TaoError>)
      modifies this`ngrads, this`nfuncgrads, x`lock
      ensures Evaluated(GradientRoute(Installed()), failing, old(Counted()), Counted(), err)
      ensures x.lock == LockLeft(GradientRoute(Installed()), failing, old(Counted()), old(x.lock))
    {
      x.lock := x.lock + 1;
      if gradient.Some? {
        if GradientSlot in failing {
          return Some(UserRoutineFailed);
        }
        ngrads := ngrads + 1;
      } else if combined.Some? {
        if CombinedSlot in failing {
          return Some(UserRoutineFailed);
        }
        nfuncgrads := nfuncgrads + 1;
      } else {
        return Some(WrongState);
      }
      x.lock := x.lock - 1;
      err := None;
    }

    /** Computes the objective value at x: see ObjectiveRoute. */
    method ComputeObjective(x: InputVector, failing: set<Slot>) returns (err: Option<TaoError>)
      modifies this`nfuncs, this`nfuncgrads, x`lock
      ensures Evaluated(ObjectiveRoute(Installed()), failing, old(Counted()), Counted(), err)
      ensures x.lock == LockLeft(ObjectiveRoute(Installed()), failing, old(Counted()), old(x.lock))
    {
      x.lock := x.lock + 1;
      if objective.Some? {
        if ObjectiveSlot in failing {
          return Some(UserRoutineFailed);
        }
        nfuncs := nfuncs + 1;
      } else if combined.Some? {
        if CombinedSlot in failing {
          return Some(UserRoutineFailed);
        }
        nfuncgrads := nfuncgrads + 1;
      } else {
        return Some(WrongState);
      }
      x.lock := x.lock - 1;
      err := None;
    }

    /** Computes the objective value and the gradient at x: see ObjectiveAndGradientRoute. */
    method ComputeObjectiveAndGradient(x: InputVector, failing: set<Slot>) returns (err: Option<TaoError>)
      modifies this`nfuncs, this`ngrads, this`nfuncgrads, x`lock
      ensures Evaluated(ObjectiveAndGradientRoute(Installed()), failing, old(Counted()), Counted(), err)
      ensures x.lock == LockLeft(ObjectiveAndGradientRoute(Installed()), failing, old(Counted()), old(x.lock))
    {
      if combined.Some? && gradient == Some(DefaultGradient) {
        err := ObjectiveThenDefaultGradient(x, failing);
        return;
      }
      ghost var rt := Installed();
      x.lock := x.lock + 1;
      if combined.Some? {
        assert ObjectiveAndGradientRoute(rt).plan == [Step(CombinedSlot, NFuncGrads, 0)];
        if CombinedSlot in failing {
          return Some(UserRoutineFailed);
        }
        nfuncgrads := nfuncgrads + 1;
      } else if objective.Some? && gradient.Some? {
        RunTwo(Counted(), Step(ObjectiveSlot, NFuncs, 0), Step(GradientSlot, NGrads, 0), failing);
        if ObjectiveSlot in failing {
          return Some(UserRoutineFailed);
        }
        nfuncs := nfuncs + 1;
        if GradientSlot in failing {
          return Some(UserRoutineFailed);
        }
        ngrads := ngrads + 1;
      } else {
        return Some(WrongState);
      }
      x.lock := x.lock - 1;
      err := None;
    }

    /**
     * The finite-difference branch of ComputeObjectiveAndGradient: a nested
     * objective evaluation, then the installed gradient routine, counted as
     * one joint evaluation.
     */
    method ObjectiveThenDefaultGradient(x: InputVector, failing: set<Slot>) returns (err: Option<TaoError>)
      requires combined.Some? && gradient == Some(DefaultGradient)
      modifies this`nfuncs, this`nfuncgrads, x`lock
      ensures Evaluated(ObjectiveAndGradientRoute(Installed()), failing, old(Counted()), Counted(), err)
      ensures x.lock == LockLeft(ObjectiveAndGradientRoute(Installed()), failing, old(Counted()), old(x.lock))
    {
      ghost var rt := Installed();
      ghost var c0 := Counted();
      DefaultGradientPlan(rt);
      ghost var s0 := ObjectiveRoute(rt).plan[0];
      ghost var s1, s2 := s0.(depth := 1), Step(GradientSlot, NFuncGrads, 0);
      assert ObjectiveRoute(rt) == Calls([s0]);
      assert ObjectiveAndGradientRoute(rt) == Calls([s1, s2]);
      RunOne(c0, s0, failing);
      RunTwo(c0, s1, s2, failing);
      x.lock := x.lock + 1;
      err := ComputeObjective(x, failing);
      if err.Some? {
        return;
      }
      if GradientSlot in failing {
        return Some(UserRoutineFailed);
      }
      nfuncgrads := nfuncgrads + 1;
      x.lock := x.lock - 1;
    }

    /** Computes the separable objective vector: see SeparableRoute. Its input is not locked. */
    method ComputeSeparableObjective(failing: set<Slot>) returns (err: Option<TaoError>)
      modifies this`nfuncs
      ensures Evaluated(SeparableRoute(Installed()), failing, old(Counted()), Counted(), err)
    {
      if separable.Some? {
        if SeparableSlot in failing {
          return Some(UserRoutineFailed);
        }
        nfuncs := nfuncs + 1;
      } else {
        return Some(WrongState);
      }
      err := None;
    }

    method IsObjectiveDefined() returns (flg: bool)
      ensures flg <==> objective.Some?
      ensures flg || combined.Some? <==> ObjectiveRoute(Installed()).Calls?
    {
      flg := objective.Some?;
    }

    method IsGradientDefined() returns (flg: bool)
      ensures flg <==> gradient.Some?
      ensures flg || combined.Some? <==> GradientRoute(Installed()).Calls?
    {
      flg := gradient.Some?;
    }

    method IsObjectiveAndGradientDefined() returns (flg: bool)
      ensures flg <==> combined.Some?
      ensures flg ==> ObjectiveAndGradientRoute(Installed()).Calls?
    {
      flg := combined.Some?;
    }
  }
}

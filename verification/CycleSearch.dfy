/**
 The search of a cycle: what counts as a resolution of a component, what the
 plan of the search guarantees, and why pruning loses no resolution. All of it
 holds for any way of adjudicating decisions that depends on their reads only.
 */
module CycleSearch {
  import opened Turn
  import T = Tarjan

  /** How decisions are adjudicated, and what each may read. */
  datatype System = System(needs: Decision -> set<Decision>, adjudicate: (View, Decision) -> bool)

  /** The adjudication of a decision of `all` is determined by its reads. */
  ghost predicate Determined(sys: System, all: set<Decision>)
  {
    forall v, w, d {:trigger sys.adjudicate(v, d), sys.adjudicate(w, d)} ::
      d in all && (forall r :: r in sys.needs(d) ==> Holds(v, r) == Holds(w, r)) ==> sys.adjudicate(v, d) == sys.adjudicate(w, d)
  }

  /** Dislodgements read attacks and departures only. */
  ghost predicate Derivable(sys: System)
  {
    forall d: Decision, r: Decision :: d.Dislodged? && r in sys.needs(d) ==> !r.Dislodged?
  }

  /** Choices in their fixed order; what is derived and what is checked once the first k are fixed. */
  datatype Plan = Plan(chosen: seq<Decision>, derivedAt: seq<seq<Decision>>, checkedAt: seq<seq<Decision>>)

  /** The part m of a turn, given what is settled. */
  datatype Part = Part(settled: View, m: set<Decision>)

  /** A consistent resolution of the part. */
  ghost predicate IsResolution(sys: System, p: Part, x: View)
  {
    x.Keys == p.m && forall d :: d in p.m ==> x[d] == sys.adjudicate(x + p.settled, d)
  }

  ghost predicate AgreeOn(x: View, y: View, q: seq<Decision>)
  {
    forall d :: d in q ==> d in x && d in y && x[d] == y[d]
  }

  /** Where x and y first differ on q, if anywhere, x has the success. */
  ghost predicate SucceedsFirst(x: View, y: View, q: seq<Decision>)
  {
    forall i :: 0 <= i < |q| && AgreeOn(x, y, q[..i]) && q[i] in x && q[i] in y && x[q[i]] != y[q[i]] ==> x[q[i]]
  }

  /** The part is unsettled, and reads only itself and what is settled. */
  ghost predicate Resolvable(sys: System, p: Part)
  {
    && Determined(sys, p.m) && Derivable(sys) && p.m !! p.settled.Keys
    && forall d :: d in p.m ==> sys.needs(d) <= p.settled.Keys + p.m
  }

  /** What d reads in the part is fixed at depth k. */
  ghost predicate FixedBy(sys: System, p: Part, depth: map<Decision, nat>, d: Decision, k: nat)
  {
    forall r :: r in sys.needs(d) && r in p.m && r in depth ==> depth[r] <= k
  }

  /** The choices are the attacks and departures of the part; choice i is fixed at depth i + 1. */
  ghost predicate FitsChoices(p: Part, plan: Plan, depth: map<Decision, nat>)
  {
    && depth.Keys == p.m && T.Distinct(plan.chosen)
    && (forall d :: d in plan.chosen <==> d in p.m && !d.Dislodged?)
    && (forall i :: 0 <= i < |plan.chosen| ==> plan.chosen[i] in depth && depth[plan.chosen[i]] == i + 1)
  }

  /** A dislodgement is derived at its depth, when all it reads is fixed. */
  ghost predicate FitsDerived(sys: System, p: Part, plan: Plan, depth: map<Decision, nat>)
  {
    && |plan.derivedAt| == |plan.chosen| + 1
    && (forall d :: d in p.m && d.Dislodged? ==> d in depth && depth[d] <= |plan.chosen| && d in plan.derivedAt[depth[d]])
    && (forall k, d :: 0 <= k < |plan.derivedAt| && d in plan.derivedAt[k] ==>
          d in p.m && d.Dislodged? && d in depth && depth[d] == k && FixedBy(sys, p, depth, d, k))
  }

  /** Every choice is checked, once it and all it reads are fixed. */
  ghost predicate FitsChecks(sys: System, p: Part, plan: Plan, depth: map<Decision, nat>)
  {
    && |plan.checkedAt| == |plan.chosen| + 1
    && (forall k, d :: 0 <= k < |plan.checkedAt| && d in plan.checkedAt[k] ==>
          d in p.m && !d.Dislodged? && d in depth && depth[d] <= k && FixedBy(sys, p, depth, d, k))
    && (forall d :: d in p.m && !d.Dislodged? ==> exists k :: 0 <= k < |plan.checkedAt| && d in plan.checkedAt[k])
  }

  ghost predicate Fits(sys: System, p: Part, plan: Plan, depth: map<Decision, nat>)
  {
    FitsChoices(p, plan, depth) && FitsDerived(sys, p, plan, depth) && FitsChecks(sys, p, plan, depth)
  }

  // ---------- the state of the search

  /** Exactly the first k choices are fixed. */
  ghost predicate Chosen(p: Part, trial: View, plan: Plan, k: nat)
  {
    && k <= |plan.chosen| && trial.Keys <= p.m
    && forall i :: 0 <= i < |plan.chosen| ==> (plan.chosen[i] in trial <==> i < k)
  }

  /** d has its adjudicated value. */
  ghost predicate Right(sys: System, p: Part, trial: View, d: Decision)
  {
    d in trial && trial[d] == sys.adjudicate(trial + p.settled, d)
  }

  /** Dislodgements of depth below l are derived. */
  ghost predicate DerivedBelow(sys: System, p: Part, trial: View, depth: map<Decision, nat>, l: nat)
  {
    forall d :: d in p.m && d.Dislodged? && d in depth && depth[d] < l ==> Right(sys, p, trial, d)
  }

  /** The checks of depths below l pass. */
  ghost predicate CheckedBelow(sys: System, p: Part, trial: View, plan: Plan, l: nat)
  {
    forall j, d :: 0 <= j < l && j < |plan.checkedAt| && d in plan.checkedAt[j] ==> Right(sys, p, trial, d)
  }

  /** A resolution that makes the same choices agrees on what is derived from them. */
  lemma SameDerived(sys: System, p: Part, trial: View, plan: Plan, depth: map<Decision, nat>, k: nat, x: View, d: Decision)
    requires Resolvable(sys, p) && FitsChoices(p, plan, depth) && FitsDerived(sys, p, plan, depth)
    requires Chosen(p, trial, plan, k) && DerivedBelow(sys, p, trial, depth, k + 1)
    requires IsResolution(sys, p, x) && AgreeOn(x, trial, plan.chosen[..k])
    requires d in p.m && depth[d] <= k
    ensures d in trial && trial[d] == x[d]
  {
    if !d.Dislodged? {
      var i :| 0 <= i < |plan.chosen| && plan.chosen[i] == d;
      assert plan.chosen[..k][i] == d;
    } else {
      assert Right(sys, p, trial, d);
      assert FixedBy(sys, p, depth, d, depth[d]);
      forall r | r in sys.needs(d) ensures Holds(trial + p.settled, r) == Holds(x + p.settled, r) {
        if r in p.m {
          var i :| 0 <= i < |plan.chosen| && plan.chosen[i] == r;
          assert plan.chosen[..k][i] == r;
        }
      }
    }
  }

  /** Pruning is sound: a failed check excludes every resolution that makes the same choices. */
  lemma CheckHolds(sys: System, p: Part, trial: View, plan: Plan, depth: map<Decision, nat>, k: nat, x: View, d: Decision)
    requires Resolvable(sys, p) && Fits(sys, p, plan, depth)
    requires Chosen(p, trial, plan, k) && DerivedBelow(sys, p, trial, depth, k + 1)
    requires IsResolution(sys, p, x) && AgreeOn(x, trial, plan.chosen[..k])
    requires d in plan.checkedAt[k]
    ensures Right(sys, p, trial, d)
  {
    SameDerived(sys, p, trial, plan, depth, k, x, d);
    assert FixedBy(sys, p, depth, d, k);
    forall r | r in sys.needs(d) ensures Holds(trial + p.settled, r) == Holds(x + p.settled, r) {
      if r in p.m {
        SameDerived(sys, p, trial, plan, depth, k, x, r);
      }
    }
    assert sys.adjudicate(trial + p.settled, d) == sys.adjudicate(x + p.settled, d);
  }

  /** Once every choice is fixed and checked, the trial is a resolution. */
  lemma SearchComplete(sys: System, p: Part, trial: View, plan: Plan, depth: map<Decision, nat>)
    requires Fits(sys, p, plan, depth) && Chosen(p, trial, plan, |plan.chosen|)
    requires DerivedBelow(sys, p, trial, depth, |plan.chosen| + 1) && CheckedBelow(sys, p, trial, plan, |plan.chosen| + 1)
    ensures IsResolution(sys, p, trial)
  {
    forall d | d in p.m ensures Right(sys, p, trial, d) {
      if !d.Dislodged? {
        var k :| 0 <= k < |plan.checkedAt| && d in plan.checkedAt[k];
      }
    }
  }

  /** y has, up to depth k, what x has. */
  ghost predicate SameUpTo(p: Part, x: View, y: View, depth: map<Decision, nat>, k: nat)
  {
    forall r :: r in p.m && r in depth && depth[r] <= k ==> (r in x <==> r in y) && (r in x ==> x[r] == y[r])
  }

  /** What is right at depth k stays right whatever changes deeper. */
  lemma StaysRight(sys: System, p: Part, x: View, y: View, depth: map<Decision, nat>, k: nat, d: Decision)
    requires Resolvable(sys, p) && depth.Keys == p.m && x.Keys <= p.m && y.Keys <= p.m
    requires SameUpTo(p, x, y, depth, k) && d in p.m && depth[d] <= k && FixedBy(sys, p, depth, d, k) && Right(sys, p, x, d)
    ensures Right(sys, p, y, d)
  {
    forall r | r in sys.needs(d) ensures Holds(x + p.settled, r) == Holds(y + p.settled, r) {
    }
    assert sys.adjudicate(x + p.settled, d) == sys.adjudicate(y + p.settled, d);
  }

  /** Changes deeper than k keep the dislodgements derived and the checks passed up to k. */
  lemma KeepsProgress(sys: System, p: Part, x: View, y: View, plan: Plan, depth: map<Decision, nat>, k: nat)
    requires Resolvable(sys, p) && Fits(sys, p, plan, depth) && x.Keys <= p.m && y.Keys <= p.m
    requires SameUpTo(p, x, y, depth, k)
    requires DerivedBelow(sys, p, x, depth, k + 1) && CheckedBelow(sys, p, x, plan, k + 1)
    ensures DerivedBelow(sys, p, y, depth, k + 1) && CheckedBelow(sys, p, y, plan, k + 1)
  {
    forall d | d in p.m && d.Dislodged? && depth[d] < k + 1 ensures Right(sys, p, y, d) {
      assert d in plan.derivedAt[depth[d]];
      assert FixedBy(sys, p, depth, d, depth[d]);
      assert FixedBy(sys, p, depth, d, k);
      StaysRight(sys, p, x, y, depth, k, d);
    }
    forall j, d | 0 <= j < k + 1 && j < |plan.checkedAt| && d in plan.checkedAt[j] ensures Right(sys, p, y, d) {
      assert FixedBy(sys, p, depth, d, j);
      assert FixedBy(sys, p, depth, d, k);
      StaysRight(sys, p, x, y, depth, k, d);
    }
  }

  /** y keeps the choices x fixed at depth k or less, and the dislodgements derived below k. */
  ghost predicate KeptTo(p: Part, x: View, y: View, depth: map<Decision, nat>, k: nat)
  {
    forall r :: r in p.m && r in depth && (depth[r] < k || (depth[r] == k && !r.Dislodged?)) ==>
      (r in x <==> r in y) && (r in x ==> x[r] == y[r])
  }

  /** No resolution makes the first k choices as the trial does. */
  ghost predicate NoneFrom(sys: System, p: Part, trial: View, plan: Plan, k: nat)
  {
    k <= |plan.chosen| && forall x :: IsResolution(sys, p, x) ==> !AgreeOn(x, trial, plan.chosen[..k])
  }

  /** The trial is the resolution, among those making its first k choices, that succeeds first. */
  ghost predicate FirstFrom(sys: System, p: Part, trial: View, plan: Plan, k: nat)
  {
    && k <= |plan.chosen| && IsResolution(sys, p, trial)
    && forall x :: IsResolution(sys, p, x) && AgreeOn(x, trial, plan.chosen[..k]) ==> SucceedsFirst(trial, x, plan.chosen)
  }

  /** The state in which depth k is entered. */
  ghost predicate Entered(sys: System, p: Part, trial: View, plan: Plan, depth: map<Decision, nat>, k: nat)
  {
    && Resolvable(sys, p) && Fits(sys, p, plan, depth) && Chosen(p, trial, plan, k)
    && DerivedBelow(sys, p, trial, depth, k) && CheckedBelow(sys, p, trial, plan, k)
  }

  /** Deriving a dislodgement changes no other one. */
  lemma DerivesApart(sys: System, p: Part, trial: View, d: Decision, value: bool, e: Decision)
    requires Resolvable(sys, p) && d.Dislodged? && e in p.m && e.Dislodged?
    ensures sys.adjudicate(trial + p.settled, e) == sys.adjudicate(trial[d := value] + p.settled, e)
  {
    forall r | r in sys.needs(e) ensures Holds(trial + p.settled, r) == Holds(trial[d := value] + p.settled, r) {
    }
  }

  /** Deriving one more dislodgement at depth k. */
  lemma DeriveOne(sys: System, p: Part, trial: View, plan: Plan, depth: map<Decision, nat>, k: nat, d: Decision)
    requires Entered(sys, p, trial, plan, depth, k) && d in plan.derivedAt[k]
    ensures var next := trial[d := sys.adjudicate(trial + p.settled, d)];
            && Entered(sys, p, next, plan, depth, k) && KeptTo(p, trial, next, depth, k)
            && Right(sys, p, next, d)
            && forall e :: e in plan.derivedAt[k] && Right(sys, p, trial, e) ==> Right(sys, p, next, e)
  {
    var value := sys.adjudicate(trial + p.settled, d);
    var next := trial[d := value];
    assert next.Keys == trial.Keys + {d};
    assert d in p.m && d.Dislodged? && depth[d] == k;
    assert Chosen(p, next, plan, k) by {
      forall i | 0 <= i < |plan.chosen| ensures plan.chosen[i] != d { assert plan.chosen[i] in plan.chosen; }
    }
    assert DerivedBelow(sys, p, next, depth, k) && CheckedBelow(sys, p, next, plan, k) by {
      if k > 0 { KeepsProgress(sys, p, trial, next, plan, depth, k - 1); }
    }
    DerivesApart(sys, p, trial, d, value, d);
    forall e | e in plan.derivedAt[k] && Right(sys, p, trial, e) ensures Right(sys, p, next, e) {
      DerivesApart(sys, p, trial, d, value, e);
    }
  }

  lemma AllDerived(sys: System, p: Part, trial: View, plan: Plan, depth: map<Decision, nat>, k: nat)
    requires Entered(sys, p, trial, plan, depth, k)
    requires forall d :: d in plan.derivedAt[k] ==> Right(sys, p, trial, d)
    ensures DerivedBelow(sys, p, trial, depth, k + 1)
  {
  }

  /** With the choices of depth k checked too. */
  lemma ChecksDone(sys: System, p: Part, trial: View, plan: Plan, k: nat)
    requires k < |plan.checkedAt| && CheckedBelow(sys, p, trial, plan, k)
    requires forall d :: d in plan.checkedAt[k] ==> Right(sys, p, trial, d)
    ensures CheckedBelow(sys, p, trial, plan, k + 1)
  {
  }

  /** A failed check leaves no resolution with these choices. */
  lemma CheckFails(sys: System, p: Part, trial: View, plan: Plan, depth: map<Decision, nat>, k: nat, d: Decision)
    requires Entered(sys, p, trial, plan, depth, k) && DerivedBelow(sys, p, trial, depth, k + 1)
    requires d in plan.checkedAt[k] && !Right(sys, p, trial, d)
    ensures NoneFrom(sys, p, trial, plan, k)
  {
    forall x | IsResolution(sys, p, x) ensures !AgreeOn(x, trial, plan.chosen[..k]) {
      if AgreeOn(x, trial, plan.chosen[..k]) {
        CheckHolds(sys, p, trial, plan, depth, k, x, d);
      }
    }
  }

  /** The last depth is checked: the trial is the only resolution left. */
  lemma AllFixed(sys: System, p: Part, trial: View, plan: Plan, depth: map<Decision, nat>)
    requires Entered(sys, p, trial, plan, depth, |plan.chosen|)
    requires DerivedBelow(sys, p, trial, depth, |plan.chosen| + 1) && CheckedBelow(sys, p, trial, plan, |plan.chosen| + 1)
    ensures FirstFrom(sys, p, trial, plan, |plan.chosen|)
  {
    SearchComplete(sys, p, trial, plan, depth);
    assert plan.chosen[..|plan.chosen|] == plan.chosen;
  }

  /** Fixing choice k. */
  lemma EnterNext(sys: System, p: Part, trial: View, plan: Plan, depth: map<Decision, nat>, k: nat, value: bool)
    requires Resolvable(sys, p) && Fits(sys, p, plan, depth) && k < |plan.chosen|
    requires Chosen(p, trial, plan, k) || Chosen(p, trial, plan, k + 1)
    requires DerivedBelow(sys, p, trial, depth, k + 1) && CheckedBelow(sys, p, trial, plan, k + 1)
    ensures Entered(sys, p, trial[plan.chosen[k] := value], plan, depth, k + 1)
    ensures KeptTo(p, trial, trial[plan.chosen[k] := value], depth, k)
  {
    var next := trial[plan.chosen[k] := value];
    assert plan.chosen[k] in plan.chosen;
    assert next.Keys == trial.Keys + {plan.chosen[k]};
    assert SameUpTo(p, trial, next, depth, k);
    KeepsProgress(sys, p, trial, next, plan, depth, k);
  }

  /** A failed branch leaves what was derived and checked before it. */
  lemma BranchKeeps(sys: System, p: Part, before: View, after: View, plan: Plan, depth: map<Decision, nat>, k: nat)
    requires Entered(sys, p, before, plan, depth, k + 1) && Chosen(p, after, plan, k + 1) && KeptTo(p, before, after, depth, k + 1)
    ensures DerivedBelow(sys, p, after, depth, k + 1) && CheckedBelow(sys, p, after, plan, k + 1)
  {
    assert SameUpTo(p, before, after, depth, k);
    KeepsProgress(sys, p, before, after, plan, depth, k);
  }

  lemma InPrefix(q: seq<Decision>, k: nat)
    requires k <= |q|
    ensures forall i :: 0 <= i < k ==> q[i] in q[..k]
  {
    forall i | 0 <= i < k ensures q[i] in q[..k] { assert q[..k][i] == q[i]; }
  }

  lemma AgreeOneMore(x: View, y: View, q: seq<Decision>, k: nat)
    requires k < |q|
    ensures AgreeOn(x, y, q[..k + 1]) <==> AgreeOn(x, y, q[..k]) && q[k] in x && q[k] in y && x[q[k]] == y[q[k]]
  {
    assert q[..k + 1] == q[..k] + [q[k]];
  }

  lemma AgreeKept(p: Part, x: View, y: View, z: View, plan: Plan, depth: map<Decision, nat>, k: nat)
    requires FitsChoices(p, plan, depth) && k <= |plan.chosen| && KeptTo(p, y, z, depth, k)
    ensures AgreeOn(x, y, plan.chosen[..k]) <==> AgreeOn(x, z, plan.chosen[..k])
  {
    forall d | d in plan.chosen[..k] ensures d in p.m && d in depth && depth[d] <= k && !d.Dislodged? {
      var i :| 0 <= i < k && plan.chosen[..k][i] == d;
      assert plan.chosen[i] == d;
      assert d in plan.chosen;
    }
  }

  /** Success at choice k: it is tried first, so nothing is missed. */
  lemma FirstWithSuccess(sys: System, p: Part, trial: View, plan: Plan, k: nat)
    requires k < |plan.chosen| && FirstFrom(sys, p, trial, plan, k + 1)
    requires plan.chosen[k] in trial && trial[plan.chosen[k]]
    ensures FirstFrom(sys, p, trial, plan, k)
  {
    var q := plan.chosen;
    forall x | IsResolution(sys, p, x) && AgreeOn(x, trial, q[..k]) ensures SucceedsFirst(trial, x, q) {
      AgreeOneMore(x, trial, q, k);
      forall i | 0 <= i < |q| && AgreeOn(trial, x, q[..i]) && q[i] in trial && q[i] in x && trial[q[i]] != x[q[i]]
        ensures trial[q[i]]
      {
        InPrefix(q, k);
        InPrefix(q, i);
      }
    }
  }

  /** Failure at choice k, once success is excluded. */
  lemma FirstWithFailure(sys: System, p: Part, tried: View, trial: View, plan: Plan, k: nat)
    requires k < |plan.chosen| && FirstFrom(sys, p, trial, plan, k + 1)
    requires plan.chosen[k] in trial && !trial[plan.chosen[k]]
    requires NoneFrom(sys, p, tried, plan, k + 1) && plan.chosen[k] in tried && tried[plan.chosen[k]]
    requires AgreeOn(tried, trial, plan.chosen[..k])
    requires forall d :: d in plan.chosen ==> d in p.m
    ensures FirstFrom(sys, p, trial, plan, k)
  {
    forall x | IsResolution(sys, p, x) && AgreeOn(x, trial, plan.chosen[..k]) ensures SucceedsFirst(trial, x, plan.chosen) {
      AgreeOneMore(x, trial, plan.chosen, k);
      AgreeOneMore(x, tried, plan.chosen, k);
      assert AgreeOn(x, tried, plan.chosen[..k]);
      assert plan.chosen[k] in p.m;
    }
  }

  /** Neither value of choice k leads to a resolution. */
  lemma NoneWithEither(sys: System, p: Part, start: View, yes: View, no: View, plan: Plan, k: nat)
    requires k < |plan.chosen| && plan.chosen[k] in p.m
    requires NoneFrom(sys, p, yes, plan, k + 1) && NoneFrom(sys, p, no, plan, k + 1)
    requires plan.chosen[k] in yes && yes[plan.chosen[k]] && plan.chosen[k] in no && !no[plan.chosen[k]]
    requires AgreeOn(start, yes, plan.chosen[..k]) && AgreeOn(start, no, plan.chosen[..k])
    ensures NoneFrom(sys, p, start, plan, k)
  {
    forall x | IsResolution(sys, p, x) ensures !AgreeOn(x, start, plan.chosen[..k]) {
      AgreeOneMore(x, yes, plan.chosen, k);
      AgreeOneMore(x, no, plan.chosen, k);
    }
  }

  /** What a dislodgement of depth k reads is settled or on trial once k choices are fixed. */
  lemma DerivedNeedsKnown(sys: System, p: Part, trial: View, plan: Plan, depth: map<Decision, nat>, k: nat, d: Decision)
    requires Entered(sys, p, trial, plan, depth, k) && d in plan.derivedAt[k]
    ensures sys.needs(d) <= p.settled.Keys + trial.Keys
  {
    assert FixedBy(sys, p, depth, d, k);
    forall r | r in sys.needs(d) ensures r in p.settled.Keys + trial.Keys {
      if r in p.m {
        var i :| 0 <= i < |plan.chosen| && plan.chosen[i] == r;
      }
    }
  }

  /** So is what a choice checked at depth k reads. */
  lemma CheckedNeedsKnown(sys: System, p: Part, trial: View, plan: Plan, depth: map<Decision, nat>, k: nat, d: Decision)
    requires Entered(sys, p, trial, plan, depth, k) && DerivedBelow(sys, p, trial, depth, k + 1) && d in plan.checkedAt[k]
    ensures sys.needs(d) <= p.settled.Keys + trial.Keys && d in trial
  {
    assert FixedBy(sys, p, depth, d, k);
    forall r | r in sys.needs(d) + {d} && r in p.m ensures r in trial {
      if r.Dislodged? {
        assert Right(sys, p, trial, r);
      } else {
        var i :| 0 <= i < |plan.chosen| && plan.chosen[i] == r;
      }
    }
  }

  lemma KeptToTrans(p: Part, x: View, y: View, z: View, depth: map<Decision, nat>, k: nat)
    requires KeptTo(p, x, y, depth, k) && KeptTo(p, y, z, depth, k)
    ensures KeptTo(p, x, z, depth, k)
  {
  }

  lemma KeptToWeaker(p: Part, x: View, y: View, depth: map<Decision, nat>, k: nat)
    requires KeptTo(p, x, y, depth, k + 1)
    ensures KeptTo(p, x, y, depth, k)
  {
  }

  /** Forgetting what was derived at depth k. */
  lemma UndoKeeps(sys: System, p: Part, trial: View, plan: Plan, depth: map<Decision, nat>, k: nat, undone: set<Decision>)
    requires Fits(sys, p, plan, depth) && Chosen(p, trial, plan, k)
    requires forall d :: d in undone ==> d in plan.derivedAt[k]
    ensures Chosen(p, trial - undone, plan, k) && KeptTo(p, trial, trial - undone, depth, k)
  {
    forall i | 0 <= i < |plan.chosen| ensures plan.chosen[i] !in undone {
      assert plan.chosen[i] in plan.chosen;
    }
  }

  /** Forgetting choice k after both its values failed. */
  lemma ForgetKeeps(sys: System, p: Part, trial: View, plan: Plan, depth: map<Decision, nat>, k: nat)
    requires Fits(sys, p, plan, depth) && k < |plan.chosen| && Chosen(p, trial, plan, k + 1)
    ensures Chosen(p, trial - {plan.chosen[k]}, plan, k) && KeptTo(p, trial, trial - {plan.chosen[k]}, depth, k)
  {
    assert plan.chosen[k] in plan.chosen;
  }

  /** The choices already fixed agree with themselves. */
  lemma ChosenAgrees(sys: System, p: Part, x: View, y: View, plan: Plan, depth: map<Decision, nat>, k: nat)
    requires FitsChoices(p, plan, depth) && Chosen(p, x, plan, k) && KeptTo(p, x, y, depth, k)
    ensures AgreeOn(x, y, plan.chosen[..k])
  {
    forall d | d in plan.chosen[..k] ensures d in x && d in y && x[d] == y[d] {
      var i :| 0 <= i < k && plan.chosen[..k][i] == d;
      assert plan.chosen[i] == d && d in plan.chosen;
    }
  }

  lemma AgreeTrans(x: View, y: View, z: View, q: seq<Decision>)
    requires AgreeOn(x, y, q) && AgreeOn(y, z, q)
    ensures AgreeOn(x, z, q)
  {
  }

  /** Deriving and undoing leave the choices as they were. */
  lemma SameChoices(sys: System, p: Part, start: View, trial: View, plan: Plan, depth: map<Decision, nat>, k: nat)
    requires Entered(sys, p, start, plan, depth, k) && KeptTo(p, start, trial, depth, k)
    ensures AgreeOn(start, trial, plan.chosen[..k])
    ensures NoneFrom(sys, p, trial, plan, k) ==> NoneFrom(sys, p, start, plan, k)
  {
    ChosenAgrees(sys, p, start, trial, plan, depth, k);
    forall x ensures AgreeOn(x, start, plan.chosen[..k]) <==> AgreeOn(x, trial, plan.chosen[..k]) {
      AgreeKept(p, x, start, trial, plan, depth, k);
    }
  }

  /** Choice k is new: giving it a value leaves the choices before it. */
  lemma ChoiceApart(sys: System, p: Part, start: View, plan: Plan, depth: map<Decision, nat>, k: nat, value: bool)
    requires Fits(sys, p, plan, depth) && k < |plan.chosen| && (Chosen(p, start, plan, k) || Chosen(p, start, plan, k + 1))
    ensures AgreeOn(start, start[plan.chosen[k] := value], plan.chosen[..k])
  {
    forall d | d in plan.chosen[..k] ensures d in start && d != plan.chosen[k] {
      var i :| 0 <= i < k && plan.chosen[..k][i] == d;
      assert plan.chosen[i] == d;
    }
  }

  lemma SuccessFound(sys: System, p: Part, start: View, trial: View, plan: Plan, depth: map<Decision, nat>, k: nat)
    requires Entered(sys, p, start, plan, depth, k) && k < |plan.chosen| && FirstFrom(sys, p, trial, plan, k + 1)
    requires AgreeOn(start[plan.chosen[k] := true], trial, plan.chosen[..k + 1])
    ensures FirstFrom(sys, p, trial, plan, k) && AgreeOn(start, trial, plan.chosen[..k])
  {
    ChoiceApart(sys, p, start, plan, depth, k, true);
    AgreeOneMore(start[plan.chosen[k] := true], trial, plan.chosen, k);
    AgreeTrans(start, start[plan.chosen[k] := true], trial, plan.chosen[..k]);
    FirstWithSuccess(sys, p, trial, plan, k);
  }

  lemma FailureFound(sys: System, p: Part, start: View, failed: View, trial: View, plan: Plan, depth: map<Decision, nat>, k: nat)
    requires Entered(sys, p, start, plan, depth, k) && k < |plan.chosen| && FirstFrom(sys, p, trial, plan, k + 1)
    requires NoneFrom(sys, p, start[plan.chosen[k] := true], plan, k + 1)
    requires Chosen(p, failed, plan, k + 1) && KeptTo(p, start, failed, depth, k)
    requires AgreeOn(failed[plan.chosen[k] := false], trial, plan.chosen[..k + 1])
    ensures FirstFrom(sys, p, trial, plan, k) && AgreeOn(start, trial, plan.chosen[..k])
  {
    var d, q := plan.chosen[k], plan.chosen[..k];
    ChosenAgrees(sys, p, start, failed, plan, depth, k);
    ChoiceApart(sys, p, failed, plan, depth, k, false);
    ChoiceApart(sys, p, start, plan, depth, k, true);
    AgreeOneMore(failed[d := false], trial, plan.chosen, k);
    AgreeTrans(start, failed, failed[d := false], q);
    AgreeTrans(start, failed[d := false], trial, q);
    assert AgreeOn(start[d := true], trial, q);
    assert forall e :: e in plan.chosen ==> e in p.m;
    FirstWithFailure(sys, p, start[d := true], trial, plan, k);
  }

  lemma NothingFound(sys: System, p: Part, start: View, failed: View, plan: Plan, depth: map<Decision, nat>, k: nat)
    requires Entered(sys, p, start, plan, depth, k) && k < |plan.chosen|
    requires NoneFrom(sys, p, start[plan.chosen[k] := true], plan, k + 1)
    requires Chosen(p, failed, plan, k + 1) && KeptTo(p, start, failed, depth, k)
    requires NoneFrom(sys, p, failed[plan.chosen[k] := false], plan, k + 1)
    ensures NoneFrom(sys, p, start, plan, k)
  {
    var d, q := plan.chosen[k], plan.chosen[..k];
    ChosenAgrees(sys, p, start, failed, plan, depth, k);
    ChoiceApart(sys, p, failed, plan, depth, k, false);
    ChoiceApart(sys, p, start, plan, depth, k, true);
    AgreeTrans(start, failed, failed[d := false], q);
    assert d in plan.chosen;
    NoneWithEither(sys, p, start, start[d := true], failed[d := false], plan, k);
  }

  lemma StartSearch(sys: System, p: Part, plan: Plan, depth: map<Decision, nat>)
    requires Resolvable(sys, p) && Fits(sys, p, plan, depth)
    ensures Entered(sys, p, map[], plan, depth, 0)
  {
  }

  /** A decision that does not read itself has exactly one resolution. */
  lemma AloneSolved(sys: System, p: Part, d: Decision, value: bool)
    requires Resolvable(sys, p) && p.m == {d} && d !in sys.needs(d) && value == sys.adjudicate(p.settled, d)
    ensures IsResolution(sys, p, map[d := value]) && forall y :: IsResolution(sys, p, y) ==> y == map[d := value]
  {
    forall y: View | y.Keys == {d} ensures sys.adjudicate(y + p.settled, d) == value {
      forall r | r in sys.needs(d) ensures Holds(y + p.settled, r) == Holds(p.settled, r) {
      }
    }
  }

  /** Deriving a dislodgement makes it right and keeps the others right. */
  lemma DeriveAfterFailure(sys: System, p: Part, trial: View, d: Decision)
    requires Resolvable(sys, p) && d in p.m && d.Dislodged? && trial.Keys <= p.m
    ensures var next := trial[d := sys.adjudicate(trial + p.settled, d)];
            Right(sys, p, next, d) && forall e :: e in p.m && e.Dislodged? && Right(sys, p, trial, e) ==> Right(sys, p, next, e)
  {
    var value := sys.adjudicate(trial + p.settled, d);
    DerivesApart(sys, p, trial, d, value, d);
    forall e | e in p.m && e.Dislodged? && Right(sys, p, trial, e) ensures Right(sys, p, trial[d := value], e) {
      DerivesApart(sys, p, trial, d, value, e);
    }
  }
}

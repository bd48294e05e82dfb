/** Laws of the pipeline (internal/engine/pipeline.go) and its imperative form. */
module PipelineLaws {
  import opened Prelude
  import opened Policies
  import opened Database
  import opened Engine

  /** A stage lets the call pass to the next one. */
  predicate Passes(stage: Stage, lib: Library, b: Backend, call: Call, sess: Session, pol: Policy) {
    var r := EvalStage(stage, lib, b, call, sess, pol);
    r.Ok? && r.value.action == Allow
  }

  /** A call is permitted exactly when every stage passes it; then the decision is plain. */
  lemma {:induction false} PermittedIffAllPass(
    stages: seq<Stage>, lib: Library, b: Backend, call: Call, sess: Session, pol: Policy)
    ensures var d := Pipeline(stages, lib, b, call, sess, pol);
            && (d.action == Allow <==> forall i :: 0 <= i < |stages| ==> Passes(stages[i], lib, b, call, sess, pol))
            && (d.action == Allow ==> d == Permit())
  {
    hide EvalStage;
    if |stages| > 0 {
      PermittedIffAllPass(stages[1..], lib, b, call, sess, pol);
      assert forall i :: 0 < i < |stages| ==> stages[i] == stages[1..][i - 1];
      if Pipeline(stages, lib, b, call, sess, pol).action == Allow {
        assert Passes(stages[0], lib, b, call, sess, pol);
      }
    }
  }

  /** Running two pipelines one after the other. */
  lemma {:induction false} PipelineAppend(
    first: seq<Stage>, rest: seq<Stage>, lib: Library, b: Backend, call: Call, sess: Session, pol: Policy)
    ensures Pipeline(first + rest, lib, b, call, sess, pol) ==
            var d := Pipeline(first, lib, b, call, sess, pol);
            if d.action == Allow then Pipeline(rest, lib, b, call, sess, pol) else d
  {
    hide EvalStage;
    if |first| == 0 {
      assert first + rest == rest;
    } else {
      assert (first + rest)[1..] == first[1..] + rest;
      PipelineAppend(first[1..], rest, lib, b, call, sess, pol);
    }
  }

  /** Stages that always pass this call can be dropped. */
  lemma {:induction false} DropPassing(
    stages: seq<Stage>, keep: Stage -> bool, lib: Library, b: Backend, call: Call, sess: Session, pol: Policy)
    requires forall i :: 0 <= i < |stages| && !keep(stages[i]) ==> Passes(stages[i], lib, b, call, sess, pol)
    ensures Pipeline(stages, lib, b, call, sess, pol) == Pipeline(Filter(stages, keep), lib, b, call, sess, pol)
  {
    hide EvalStage;
    if |stages| > 0 {
      var front, last := stages[..|stages| - 1], stages[|stages| - 1];
      DropPassing(front, keep, lib, b, call, sess, pol);
      assert stages == front + [last];
      PipelineAppend(front, [last], lib, b, call, sess, pol);
      PipelineAppend(Filter(front, keep), [last], lib, b, call, sess, pol);
      OneStage(last, lib, b, call, sess, pol);
      PermittedIffAllPass(front, lib, b, call, sess, pol);
      assert Filter(stages, keep) == Filter(front, keep) + if keep(last) then [last] else [];
      assert Filter(front, keep) + [] == Filter(front, keep);
    }
  }

  /** One view for all stages. */
  lemma {:induction false} UniformViews(
    stages: seq<Stage>, first: nat, lib: Library, views: nat -> Backend, b: Backend, call: Call, sess: Session,
        pol: Policy)
    requires forall k: nat :: views(k) == b
    ensures PipelineOn(stages, first, lib, views, call, sess, pol) == Pipeline(stages, lib, b, call, sess, pol)
  {
    hide EvalStage;
    if |stages| > 0 {
      UniformViews(stages[1..], first + 1, lib, views, b, call, sess, pol);
    }
  }

  lemma OneStage(stage: Stage, lib: Library, b: Backend, call: Call, sess: Session, pol: Policy)
    ensures var r := EvalStage(stage, lib, b, call, sess, pol);
            Pipeline([stage], lib, b, call, sess, pol) ==
            if Settled(r, pol, call.tool).Some? then Settled(r, pol, call.tool).value else Permit()
  {
    hide EvalStage;
    assert [stage][1..] == [];
  }

  /** If every stage answers alike, so do the pipelines. */
  lemma {:induction false} SameAnswers(
    stages: seq<Stage>, lib: Library, b: Backend, b': Backend, call: Call, call': Call, sess: Session, sess': Session,
        pol: Policy)
    requires call.tool == call'.tool
    requires forall i :: 0 <= i < |stages| ==>
               EvalStage(stages[i], lib, b, call, sess, pol) == EvalStage(stages[i], lib, b', call', sess', pol)
    ensures Pipeline(stages, lib, b, call, sess, pol) == Pipeline(stages, lib, b', call', sess', pol)
  {
    hide EvalStage;
    if |stages| > 0 {
      assert forall i :: 0 <= i < |stages[1..]| ==> stages[1..][i] == stages[i + 1];
      SameAnswers(stages[1..], lib, b, b', call, call', sess, sess', pol);
    }
  }

  /** Stage i answers a call that is not permitted. If it failed, the call is denied whatever the mode. If it
      refused, the rule and the explanation are its own, and the action is its own or a shadow denial, as the
      enforcement mode says: the tool's own mode when it is set, and the policy's otherwise; when neither is set,
      the refusal stands. */
  ghost predicate RefusalStands(r: Result<Decision>, pol: Policy, tool: string, d: Decision) {
    var own := if tool in pol.tools then pol.tools[tool].mode else Unset;
    && (r.Error? ==> d.action == Deny && d.rule == InternalError && d.feedback.None?)
    && (r.Ok? ==> d.rule == r.value.rule && d.violations == r.value.violations && d.feedback == r.value.feedback)
    && (r.Ok? && own == Block ==> d.action == r.value.action)
    && (r.Ok? && own == Shadow ==> d.action == ShadowDeny)
    && (r.Ok? && own == Unset && pol.mode == Shadow ==> d.action == ShadowDeny)
    && (r.Ok? && own == Unset && pol.mode != Shadow ==> d.action == r.value.action)
  }

  lemma SettledStands(r: Result<Decision>, pol: Policy, tool: string)
    requires r.Error? || r.value.action != Allow
    ensures Settled(r, pol, tool).Some? && RefusalStands(r, pol, tool, Settled(r, pol, tool).value)
  {
  }

  /** Who decides a call that is not permitted: the first stage that does not pass it, whichever of the stages'
      queries fail. */
  lemma {:induction false} FirstRefusalDecidesOn(
    stages: seq<Stage>, first: nat, lib: Library, views: nat -> Backend, call: Call, sess: Session, pol: Policy)
    returns (i: nat)
    requires PipelineOn(stages, first, lib, views, call, sess, pol).action != Allow
    ensures i < |stages| && forall k :: 0 <= k < i ==> Passes(stages[k], lib, views(first + k), call, sess, pol)
    ensures !Passes(stages[i], lib, views(first + i), call, sess, pol)
    ensures RefusalStands(EvalStage(stages[i], lib, views(first + i), call, sess, pol), pol, call.tool,
              PipelineOn(stages, first, lib, views, call, sess, pol))
  {
    hide EvalStage, EffectiveMode, RefusalStands;
    if Passes(stages[0], lib, views(first), call, sess, pol) {
      i := FirstRefusalDecidesOn(stages[1..], first + 1, lib, views, call, sess, pol);
      forall k | 0 <= k < i + 1
        ensures Passes(stages[k], lib, views(first + k), call, sess, pol)
      {
        if k > 0 {
          assert stages[k] == stages[1..][k - 1] && first + k == first + 1 + (k - 1);
        }
      }
      assert stages[i + 1] == stages[1..][i] && first + (i + 1) == first + 1 + i;
      i := i + 1;
    } else {
      i := 0;
      SettledStands(EvalStage(stages[0], lib, views(first), call, sess, pol), pol, call.tool);
    }
  }

  /** The same on one view of the store. */
  lemma FirstRefusalDecides(
    stages: seq<Stage>, lib: Library, b: Backend, call: Call, sess: Session, pol: Policy) returns (i: nat)
    requires Pipeline(stages, lib, b, call, sess, pol).action != Allow
    ensures i < |stages| && forall k :: 0 <= k < i ==> Passes(stages[k], lib, b, call, sess, pol)
    ensures !Passes(stages[i], lib, b, call, sess, pol)
    ensures RefusalStands(EvalStage(stages[i], lib, b, call, sess, pol), pol, call.tool,
              Pipeline(stages, lib, b, call, sess, pol))
  {
    hide EvalStage, EffectiveMode, RefusalStands, Pipeline, PipelineOn;
    var views: nat -> Backend := k => b;
    UniformViews(stages, 0, lib, views, b, call, sess, pol);
    i := FirstRefusalDecidesOn(stages, 0, lib, views, call, sess, pol);
    assert forall k :: 0 <= k < i ==> Passes(stages[k], lib, views(0 + k), call, sess, pol);
  }

  /** Blocking, in the policy's own fields. */
  lemma BlocksMeans(pol: Policy, tool: string)
    ensures var own := if tool in pol.tools then pol.tools[tool].mode else Unset;
            Blocks(pol, tool) <==> own == Block || (own == Unset && pol.mode != Shadow)
  {
  }
}

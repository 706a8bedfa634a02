/** The policy slot runners: short-circuit, accumulation, and rollback when a policy panics. */
module Policy {
  import opened Wrappers
  import opened Messages

  type Arguments = Json

  datatype Verdict =
    | Continue
    | Stop(reason: string)
    | Inject(messages: seq<AgentMessage>)
    | Skip(errorText: string)

  /** How one evaluation ends, and the arguments it leaves behind: a panic may leave them half rewritten. */
  datatype Evaluation =
    | Returned(verdict: Verdict, arguments: Arguments)
    | Panicked(arguments: Arguments)

  /** The rest of the dispatch context is read-only, so a policy is a function of the arguments. */
  type PreDispatchPolicy = Arguments -> Evaluation

  /** A walk over policies: an early verdict if one stopped it, the messages gathered, the arguments. */
  datatype Walk = Walk(early: Option<Verdict>, injections: seq<AgentMessage>, arguments: Arguments)

  function Outcome(w: Walk): Verdict {
    if w.early.Some? then w.early.value
    else if w.injections == [] then Continue
    else Inject(w.injections)
  }

  /** The walk after one more policy; a walk that stopped early goes no further. */
  function Evaluated(w: Walk, policy: PreDispatchPolicy): Walk {
    if w.early.Some? then w
    else match policy(w.arguments)
      case Returned(Continue, a) => w.(arguments := a)
      case Returned(Inject(messages), a) => w.(injections := w.injections + messages, arguments := a)
      case Returned(verdict, a) => Walk(Some(verdict), w.injections, a)
      case Panicked(_) => w
  }

  function WalkFrom(w: Walk, policies: seq<PreDispatchPolicy>): Walk {
    if policies == [] then w else Evaluated(WalkFrom(w, policies[..|policies| - 1]), policies[|policies| - 1])
  }

  function Begin(arguments: Arguments): Walk {
    Walk(None, [], arguments)
  }

  /** The tool call being dispatched; only its arguments can change. */
  class ToolDispatchContext {
    var arguments: Arguments

    constructor (arguments: Arguments)
      ensures this.arguments == arguments
    {
      this.arguments := arguments;
    }
  }

  lemma WalkSnoc(w: Walk, policies: seq<PreDispatchPolicy>, policy: PreDispatchPolicy)
    ensures WalkFrom(w, policies + [policy]) == Evaluated(WalkFrom(w, policies), policy)
  {
    assert (policies + [policy])[..|policies|] == policies;
  }

  lemma {:induction false} EarlyIsFinal(w: Walk, policies: seq<PreDispatchPolicy>, i: nat)
    requires i <= |policies| && WalkFrom(w, policies[..i]).early.Some?
    ensures WalkFrom(w, policies) == WalkFrom(w, policies[..i])
  {
    if i < |policies| {
      assert policies[..|policies| - 1][..i] == policies[..i];
      EarlyIsFinal(w, policies[..|policies| - 1], i);
    } else {
      assert policies[..i] == policies;
    }
  }

  method RunPreDispatchPolicies(policies: seq<PreDispatchPolicy>, ctx: ToolDispatchContext) returns (verdict: Verdict)
    modifies ctx
    ensures var w := WalkFrom(Begin(old(ctx.arguments)), policies);
            verdict == Outcome(w) && ctx.arguments == w.arguments
    ensures (verdict, ctx.arguments) == Run(old(ctx.arguments), policies)
  {
    var injections: seq<AgentMessage> := [];
    ghost var start := Begin(ctx.arguments);
    for i := 0 to |policies|
      invariant WalkFrom(start, policies[..i]) == Walk(None, injections, ctx.arguments)
    {
      assert policies[..i + 1] == policies[..i] + [policies[i]];
      WalkSnoc(start, policies[..i], policies[i]);
      var snapshot := ctx.arguments;
      var evaluation := policies[i](ctx.arguments);
      ctx.arguments := evaluation.arguments;
      if evaluation.Panicked? {
        ctx.arguments := snapshot;
      } else {
        match evaluation.verdict {
          case Continue =>
          case Inject(messages) => injections := injections + messages;
          case Stop(_) =>
            EarlyIsFinal(start, policies, i + 1);
            return evaluation.verdict;
          case Skip(_) =>
            EarlyIsFinal(start, policies, i + 1);
            return evaluation.verdict;
        }
      }
    }
    assert policies[..|policies|] == policies;
    verdict := if injections == [] then Continue else Inject(injections);
  }

  // ---- concatenation ---------------------------------------------------------------------------------

  /** Running one list after another is running their concatenation. */
  lemma {:induction false} WalkConcat(w: Walk, a: seq<PreDispatchPolicy>, b: seq<PreDispatchPolicy>)
    ensures WalkFrom(w, a + b) == WalkFrom(WalkFrom(w, a), b)
  {
    if b == [] {
      assert a + b == a;
    } else {
      var init, last := b[..|b| - 1], b[|b| - 1];
      assert a + b == (a + init) + [last];
      WalkConcat(w, a, init);
      WalkSnoc(w, a + init, last);
    }
  }

  /** A walk adds to the messages it starts with and otherwise does not depend on them. */
  lemma {:induction false} WalkIsUniform(w: Walk, policies: seq<PreDispatchPolicy>)
    requires w.early.None?
    ensures var alone := WalkFrom(Begin(w.arguments), policies);
            WalkFrom(w, policies) == alone.(injections := w.injections + alone.injections)
  {
    if policies == [] {
      assert w.injections + [] == w.injections;
    } else {
      WalkIsUniform(w, policies[..|policies| - 1]);
      var alone := WalkFrom(Begin(w.arguments), policies[..|policies| - 1]);
      var evaluation := policies[|policies| - 1](alone.arguments);
      if evaluation.Returned? && evaluation.verdict.Inject? {
        assert w.injections + (alone.injections + evaluation.verdict.messages) == w.injections + alone.injections + evaluation.verdict.messages;
      }
    }
  }

  /** The runner distributes over concatenation: the second list runs on what the first leaves, unless
      the first stopped, and the messages are joined. */
  lemma RunnerDistributes(arguments: Arguments, a: seq<PreDispatchPolicy>, b: seq<PreDispatchPolicy>)
    ensures var first, whole := WalkFrom(Begin(arguments), a), WalkFrom(Begin(arguments), a + b);
            if first.early.Some? then whole == first
            else
              var second := WalkFrom(Begin(first.arguments), b);
              whole == Walk(second.early, first.injections + second.injections, second.arguments)
  {
    WalkConcat(Begin(arguments), a, b);
    var first := WalkFrom(Begin(arguments), a);
    if first.early.Some? {
      EarlyIsFinal(first, b, 0);
    } else {
      WalkIsUniform(first, b);
    }
  }

  // ---- panics ------------------------------------------------------------------------------------------

  /** The policies that were evaluated and did not panic at their turn. */
  function Survivors(arguments: Arguments, policies: seq<PreDispatchPolicy>): seq<PreDispatchPolicy> {
    if policies == [] then []
    else
      var init, last := policies[..|policies| - 1], policies[|policies| - 1];
      var w := WalkFrom(Begin(arguments), init);
      if w.early.Some? || last(w.arguments).Panicked? then Survivors(arguments, init) else Survivors(arguments, init) + [last]
  }

  /** Removing the policies that panic, and those never reached, changes neither verdict nor
      arguments; and none of the rest panics. */
  lemma {:induction false} PanicsAreTransparent(arguments: Arguments, policies: seq<PreDispatchPolicy>)
    ensures WalkFrom(Begin(arguments), Survivors(arguments, policies)) == WalkFrom(Begin(arguments), policies)
    ensures Survivors(arguments, Survivors(arguments, policies)) == Survivors(arguments, policies)
  {
    if policies != [] {
      var init, last := policies[..|policies| - 1], policies[|policies| - 1];
      PanicsAreTransparent(arguments, init);
      var kept := Survivors(arguments, init);
      WalkSnoc(Begin(arguments), kept, last);
      assert (kept + [last])[..|kept|] == kept;
    }
  }

  /** None of the survivors panics at its turn, and only the last may stop the walk. */
  lemma {:induction false} SurvivorsReturn(arguments: Arguments, policies: seq<PreDispatchPolicy>, i: nat)
    requires i < |Survivors(arguments, policies)|
    ensures var live := Survivors(arguments, policies);
            var evaluation := live[i](WalkFrom(Begin(arguments), live[..i]).arguments);
            evaluation.Returned? && (evaluation.verdict.Stop? || evaluation.verdict.Skip? ==> i == |live| - 1)
    decreases |policies|
  {
    var init, last := policies[..|policies| - 1], policies[|policies| - 1];
    var kept, live := Survivors(arguments, init), Survivors(arguments, policies);
    PanicsAreTransparent(arguments, init);
    if i < |kept| {
      SurvivorsReturn(arguments, init, i);
      assert live[..i] == kept[..i];
      if i == |kept| - 1 {
        assert kept == kept[..i] + [kept[i]];
        WalkSnoc(Begin(arguments), kept[..i], kept[i]);
      }
    } else {
      assert live[..i] == kept;
    }
  }

  /** The arguments after applying mutations in order, whatever the verdicts. */
  function Composed(arguments: Arguments, policies: seq<PreDispatchPolicy>): Arguments {
    if policies == [] then arguments
    else policies[|policies| - 1](Composed(arguments, policies[..|policies| - 1])).arguments
  }

  /** The final arguments are the survivors' mutations composed in order, up to and including the one
      that stopped the walk. */
  lemma {:induction false} ArgumentsAreComposed(arguments: Arguments, policies: seq<PreDispatchPolicy>)
    ensures WalkFrom(Begin(arguments), policies).arguments == Composed(arguments, Survivors(arguments, policies))
  {
    if policies != [] {
      var init, last := policies[..|policies| - 1], policies[|policies| - 1];
      ArgumentsAreComposed(arguments, init);
      var kept := Survivors(arguments, init);
      assert (kept + [last])[..|kept|] == kept;
    }
  }

  // ---- what one policy does, and which one decides -------------------------------------------------------

  /** What a list of policies makes of the arguments: the verdict, and the arguments it leaves. */
  function Run(arguments: Arguments, policies: seq<PreDispatchPolicy>): (Verdict, Arguments) {
    var w := WalkFrom(Begin(arguments), policies);
    (Outcome(w), w.arguments)
  }

  /** One policy alone: its verdict stands and so do its arguments; an injection of nothing is no
      injection, and a panic leaves everything as it was. */
  lemma OnePolicy(arguments: Arguments, policy: PreDispatchPolicy)
    ensures Run(arguments, []) == (Continue, arguments)
    ensures Run(arguments, [policy]) ==
            match policy(arguments)
            case Panicked(_) => (Continue, arguments)
            case Returned(verdict, a) => (if verdict == Inject([]) then Continue else verdict, a)
  {
    assert [policy][..0] == [];
    match policy(arguments)
    case Returned(Inject(messages), a) => assert [] + messages == messages;
    case _ =>
  }

  predicate Stopped(v: Verdict) {
    v.Stop? || v.Skip?
  }

  /** The policy at `i` decides: none before it stopped or skipped, and it does, on what they leave. */
  predicate Decides(arguments: Arguments, policies: seq<PreDispatchPolicy>, i: nat) {
    && i < |policies|
    && !Stopped(Run(arguments, policies[..i]).0)
    && policies[i](Run(arguments, policies[..i]).1).Returned?
    && Stopped(policies[i](Run(arguments, policies[..i]).1).verdict)
  }

  /** The last policy: after a decision it changes nothing, otherwise it decides exactly if it ends the walk. */
  lemma LastPolicy(arguments: Arguments, policies: seq<PreDispatchPolicy>)
    requires policies != []
    ensures var n := |policies| - 1;
            if Stopped(Run(arguments, policies[..n]).0)
            then Run(arguments, policies) == Run(arguments, policies[..n])
            else
              && (Stopped(Run(arguments, policies).0) <==> Decides(arguments, policies, n))
              && (Decides(arguments, policies, n) ==>
                    var evaluation := policies[n](Run(arguments, policies[..n]).1);
                    Run(arguments, policies) == (evaluation.verdict, evaluation.arguments))
  {
    EarlyIsStopped(WalkFrom(Begin(arguments), policies[..|policies| - 1]), arguments, policies[..|policies| - 1]);
    EarlyIsStopped(WalkFrom(Begin(arguments), policies), arguments, policies);
  }

  lemma DecidesEarlier(arguments: Arguments, policies: seq<PreDispatchPolicy>, n: nat, i: nat)
    requires i < n <= |policies|
    ensures Decides(arguments, policies[..n], i) <==> Decides(arguments, policies, i)
    ensures policies[..n][i] == policies[i] && policies[..n][..i] == policies[..i]
  {
    assert policies[..n][..i] == policies[..i];
  }

  /** If some policy decides, the verdict is that policy's, word for word, with the arguments it leaves. */
  lemma {:induction false} DeciderIsHeard(arguments: Arguments, policies: seq<PreDispatchPolicy>, i: nat)
    requires Decides(arguments, policies, i)
    ensures var evaluation := policies[i](Run(arguments, policies[..i]).1);
            Run(arguments, policies) == (evaluation.verdict, evaluation.arguments)
    decreases |policies|
  {
    var n := |policies| - 1;
    LastPolicy(arguments, policies);
    if i < n {
      DecidesEarlier(arguments, policies, n, i);
      DeciderIsHeard(arguments, policies[..n], i);
    }
  }

  /** If the verdict is a Stop or Skip, some policy decides. */
  lemma {:induction false} StoppedByOne(arguments: Arguments, policies: seq<PreDispatchPolicy>) returns (i: nat)
    requires Stopped(Run(arguments, policies).0)
    ensures Decides(arguments, policies, i)
    decreases |policies|
  {
    var n := |policies| - 1;
    LastPolicy(arguments, policies);
    i := n;
    if Stopped(Run(arguments, policies[..n]).0) {
      i := StoppedByOne(arguments, policies[..n]);
      DecidesEarlier(arguments, policies, n, i);
    }
  }

  /** The verdict is a Stop or Skip exactly if some policy decides, and then it is that policy's, word
      for word, with the arguments it leaves. */
  lemma FirstStopDecides(arguments: Arguments, policies: seq<PreDispatchPolicy>)
    ensures Stopped(Run(arguments, policies).0) <==> exists i: nat :: Decides(arguments, policies, i)
    ensures forall i: nat :: Decides(arguments, policies, i) ==>
              var evaluation := policies[i](Run(arguments, policies[..i]).1);
              Run(arguments, policies) == (evaluation.verdict, evaluation.arguments)
  {
    if Stopped(Run(arguments, policies).0) {
      var i := StoppedByOne(arguments, policies);
    }
    forall i: nat | Decides(arguments, policies, i)
      ensures var evaluation := policies[i](Run(arguments, policies[..i]).1);
              Run(arguments, policies) == (evaluation.verdict, evaluation.arguments)
    {
      DeciderIsHeard(arguments, policies, i);
    }
  }

  /** A walk that went early has stopped, and only such a walk. */
  lemma {:induction false} EarlyIsStopped(w: Walk, arguments: Arguments, policies: seq<PreDispatchPolicy>)
    requires w == WalkFrom(Begin(arguments), policies)
    ensures w.early.Some? <==> Stopped(Outcome(w))
    ensures w.early.Some? ==> Stopped(w.early.value)
    decreases |policies|
  {
    if policies != [] {
      var init := policies[..|policies| - 1];
      EarlyIsStopped(WalkFrom(Begin(arguments), init), arguments, init);
    }
  }

  /** Policies after one another: unless one of the first decides, the rest go on with the arguments they
      leave, and unless one of the rest decides the messages are joined. */
  lemma InjectionsJoin(arguments: Arguments, a: seq<PreDispatchPolicy>, b: seq<PreDispatchPolicy>)
    ensures !Stopped(Run(arguments, a).0) ==>
              var rest := Run(Run(arguments, a).1, b);
              Run(arguments, a + b) ==
              if Stopped(rest.0) then rest
              else (Joined(Run(arguments, a).0, rest.0), rest.1)
    ensures Stopped(Run(arguments, a).0) ==> Run(arguments, a + b) == Run(arguments, a)
  {
    RunnerDistributes(arguments, a, b);
    var first := WalkFrom(Begin(arguments), a);
    EarlyIsStopped(first, arguments, a);
    var second := WalkFrom(Begin(first.arguments), b);
    EarlyIsStopped(second, first.arguments, b);
    assert first.injections + [] == first.injections && [] + second.injections == second.injections;
  }

  /** Two verdicts that let the call go on, as one: their messages one after the other. */
  function Joined(a: Verdict, b: Verdict): Verdict {
    if a.Inject? && b.Inject? then Inject(a.messages + b.messages) else if a.Inject? then a else b
  }

  // ---- the other slots -------------------------------------------------------------------------------------

  /** In the other slots nothing is rewritten and there is no Skip: an evaluation is its verdict. */
  datatype TurnVerdict = TurnContinue | TurnStop(reason: string) | TurnInject(messages: seq<AgentMessage>)

  /** None stands for a panic. */
  type TurnPolicy = () -> Option<TurnVerdict>

  predicate Stops(p: TurnPolicy) {
    p().Some? && p().value.TurnStop?
  }

  /** The messages a list of policies injects, in order; panics and Continue add none. */
  function Injected(policies: seq<TurnPolicy>): seq<AgentMessage> {
    if policies == [] then []
    else
      var before, last := Injected(policies[..|policies| - 1]), policies[|policies| - 1]();
      if last.Some? && last.value.TurnInject? then before + last.value.messages else before
  }

  /** The first Stop wins; without one, the injected messages of all policies are joined. */
  method RunPolicies(policies: seq<TurnPolicy>) returns (verdict: TurnVerdict)
    ensures verdict.TurnStop? <==> exists i :: 0 <= i < |policies| && Stops(policies[i])
    ensures verdict.TurnStop? ==> exists i :: 0 <= i < |policies| && policies[i]() == Some(verdict)
                                              && forall j :: 0 <= j < i ==> !Stops(policies[j])
    ensures !verdict.TurnStop? ==> verdict == if Injected(policies) == [] then TurnContinue else TurnInject(Injected(policies))
  {
    var injections: seq<AgentMessage> := [];
    for i := 0 to |policies|
      invariant injections == Injected(policies[..i])
      invariant forall j :: 0 <= j < i ==> !Stops(policies[j])
    {
      assert policies[..i + 1][..i] == policies[..i];
      match policies[i]() {
        case Some(TurnContinue) =>
        case Some(TurnStop(reason)) =>
          assert Stops(policies[i]);
          return TurnStop(reason);
        case Some(TurnInject(messages)) => injections := injections + messages;
        case None =>
      }
    }
    assert policies[..|policies|] == policies;
    verdict := if injections == [] then TurnContinue else TurnInject(injections);
  }

  /** One policy injects what it returns, and nothing if it panics or lets the turn go on. */
  lemma OneInjects(p: TurnPolicy)
    ensures Injected([]) == []
    ensures Injected([p]) == match p() case Some(TurnInject(messages)) => messages case _ => []
  {
    assert [p][..0] == [];
    if p().Some? && p().value.TurnInject? {
      assert [] + p().value.messages == p().value.messages;
    }
  }

  /** The messages of policies after one another are those of the first, then those of the rest. */
  lemma {:induction false} InjectedInOrder(a: seq<TurnPolicy>, b: seq<TurnPolicy>)
    ensures Injected(a + b) == Injected(a) + Injected(b)
    decreases |b|
  {
    if b == [] {
      assert a + b == a && Injected(a) + [] == Injected(a);
    } else {
      var init, last := b[..|b| - 1], b[|b| - 1];
      assert (a + b)[..|a + b| - 1] == a + init && (a + b)[|a + b| - 1] == last;
      InjectedInOrder(a, init);
      if last().Some? && last().value.TurnInject? {
        assert Injected(a) + Injected(init) + last().value.messages == Injected(a) + (Injected(init) + last().value.messages);
      }
    }
  }
}

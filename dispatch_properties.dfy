/** Properties of the dispatch loop shared by `create` and `record`: the
    order of the calls, when processing stops, and that nothing already
    written is undone. */
module DispatchProperties {
  import opened PyValues
  import opened RawCommands
  import opened Commands

  /** A stage that makes processing stop: a validation error, or a call the
      gateway answers by raising. */
  predicate Rejects(gw: Gateway, s: Stage) {
    s.Invalid? || (s.Send? && gw(s.call).Raised?)
  }

  /** No stage is rejected. */
  predicate Accepts(gw: Gateway, stages: seq<Stage>) {
    forall i | 0 <= i < |stages| :: !Rejects(gw, stages[i])
  }

  /** The exception a rejected stage raises. */
  function Rejection(gw: Gateway, s: Stage): Error
    requires Rejects(gw, s)
  {
    if s.Invalid? then s.error else GatewayFailure(gw(s.call).error)
  }

  /** The gateway calls one stage issues. */
  function Issued(s: Stage): seq<Call> {
    if s.Send? then [s.call] else []
  }

  /** Sequential composition is associative. */
  lemma ThenAssociative(a: Trace, b: Trace, c: Trace)
    ensures Then(Then(a, b), c) == Then(a, Then(b, c))
  {
    if a.outcome.Done? && b.outcome.Done? {
      assert (a.calls + b.calls) + c.calls == a.calls + (b.calls + c.calls);
    }
  }

  /** Processing a list of stages is processing its first part, then (only if
      that returned) the rest: an error stops everything and the calls issued
      before it stay issued. */
  lemma {:induction false} RunAppend(gw: Gateway, s1: seq<Stage>, s2: seq<Stage>)
    ensures Run(gw, s1 + s2) == Then(Run(gw, s1), Run(gw, s2))
  {
    if s1 == [] {
      assert s1 + s2 == s2;
      assert Then(Trace([], Done(VNone)), Run(gw, s2)).calls == [] + Run(gw, s2).calls;
    } else {
      assert (s1 + s2)[0] == s1[0];
      assert (s1 + s2)[1..] == s1[1..] + s2;
      RunAppend(gw, s1[1..], s2);
      ThenAssociative(StageTrace(gw, s1[0]), Run(gw, s1[1..]), Run(gw, s2));
    }
  }

  /** Processing returns normally exactly when no stage is rejected, and
      then it has issued the call of every valid stage, in order. */
  lemma {:induction false} RunSucceedsIff(gw: Gateway, stages: seq<Stage>)
    ensures Run(gw, stages).outcome.Done? <==> Accepts(gw, stages)
    ensures Accepts(gw, stages) ==> Run(gw, stages) == Trace(Sends(stages), Done(VNone))
  {
    if stages != [] {
      RunSucceedsIff(gw, stages[1..]);
      assert Accepts(gw, stages) <==> !Rejects(gw, stages[0]) && Accepts(gw, stages[1..]) by {
        if !Rejects(gw, stages[0]) && Accepts(gw, stages[1..]) {
          forall i | 0 <= i < |stages| ensures !Rejects(gw, stages[i]) {
            if i > 0 { assert stages[i] == stages[1..][i - 1]; }
          }
        }
        if Accepts(gw, stages) {
          forall i | 0 <= i < |stages| - 1 ensures !Rejects(gw, stages[1..][i]) {
            assert stages[1..][i] == stages[i + 1];
          }
        }
      }
    }
  }

  /** The first rejected stage decides how processing ends: the calls of
      the valid stages before it were issued, then its own call if it has
      one, and its exception surfaces unchanged; later stages are ignored. */
  lemma {:induction false} RunStopsAtFirstRejection(gw: Gateway, stages: seq<Stage>, k: nat)
    requires k < |stages|
    requires Accepts(gw, stages[..k])
    requires Rejects(gw, stages[k])
    ensures Run(gw, stages) == Trace(Sends(stages[..k]) + Issued(stages[k]), Failed(Rejection(gw, stages[k])))
  {
    assert stages == stages[..k] + ([stages[k]] + stages[k + 1..]);
    RunAppend(gw, stages[..k], [stages[k]] + stages[k + 1..]);
    RunAppend(gw, [stages[k]], stages[k + 1..]);
    RunSucceedsIff(gw, stages[..k]);
    assert ([stages[k]] + stages[k + 1..])[1..] == stages[k + 1..];
  }

  /** A single stage runs on its own. */
  lemma RunSingle(gw: Gateway, s: Stage)
    ensures Run(gw, [s]) == StageTrace(gw, s)
  {
    assert [s][1..] == [];
    assert StageTrace(gw, s).calls + [] == StageTrace(gw, s).calls;
  }

  /** Only the stages that are not skipped can issue a call. */
  function Supplied(stages: seq<Stage>): (n: nat)
    ensures n <= |stages|
  {
    if stages == [] then 0 else (if stages[0].Skip? then 0 else 1) + Supplied(stages[1..])
  }

  /** Processing issues at most one call per stage that is not skipped. */
  lemma {:induction false} RunAtMostOneCallPerStage(gw: Gateway, stages: seq<Stage>)
    ensures |Run(gw, stages).calls| <= |Sends(stages)| <= Supplied(stages)
  {
    if stages != [] {
      RunAtMostOneCallPerStage(gw, stages[1..]);
    }
  }
}

/** The observable effects of the handler on its collaborators, the schedules
    of events that drive Run's event loop, and what a schedule makes Run do. */
module Lifecycle {
  import opened Protocol

  /** One call the handler makes on a collaborator it does not own. */
  datatype Effect =
    | BuildPipeline                                     // pipeline.New
    | UpdateEgress(info: EgressInfo)                    // ioClient.UpdateEgress
    | PipelineRun                                       // pipeline.Run, in its own goroutine
    | SendEOS                                           // pipeline.SendEOS
    | ForwardUpdate(req: UpdateStreamRequest)           // pipeline.UpdateStream
    | DebugDotRequested                                 // pipeline.GetGstPipelineDebugDot
    | ProfileRequested(name: string, timeout: int, debug: int)  // pprof.GetProfileData
    | RpcShutdown                                       // rpcServer.Shutdown
    | GrpcStop                                          // grpcServer.Stop

  /** What one pass of Run's select receives: the broken kill fuse, or the
      pipeline's terminal descriptor on the result channel. */
  datatype Selected = KillSignal | Result(info: EgressInfo)

  /** One step of an interleaving seen by Run: another caller invokes Kill,
      or the select takes one of its cases. */
  datatype Happening = KillCalled | Select(ev: Selected) {
    predicate IsResult() {
      Select? && ev.Result?
    }
  }

  /** The effects of one pass of the select. */
  function StepEffects(ev: Selected): seq<Effect> {
    match ev
    case KillSignal => [SendEOS]
    case Result(info) => [UpdateEgress(info), RpcShutdown, GrpcStop]
  }

  function HappeningEffects(h: Happening): seq<Effect> {
    match h
    case KillCalled => []
    case Select(ev) => StepEffects(ev)
  }

  /** The effects of a schedule, in order. */
  function ScheduleEffects(s: seq<Happening>): seq<Effect> {
    if s == [] then [] else ScheduleEffects(s[..|s| - 1]) + HappeningEffects(s[|s| - 1])
  }

  /** Whether the kill fuse is broken after a schedule, given whether it was
      broken before. */
  function FuseBroken(before: bool, s: seq<Happening>): bool {
    if s == [] then before else FuseBroken(before, s[..|s| - 1]) || s[|s| - 1] == KillCalled
  }

  /** The kill case can only be taken once the fuse is broken: before the
      schedule starts, or by a Kill earlier in the schedule. */
  predicate Enabled(killed: bool, s: seq<Happening>) {
    forall i :: 0 <= i < |s| && s[i] == Select(KillSignal) ==> FuseBroken(killed, s[..i])
  }

  /** Extending a schedule prefix by one step adds that step's effects, and
      the step's Kill if it is one. */
  lemma {:induction false} ScheduleStep(s: seq<Happening>, i: nat, before: bool)
    requires i < |s|
    ensures ScheduleEffects(s[..i + 1]) == ScheduleEffects(s[..i]) + HappeningEffects(s[i])
    ensures FuseBroken(before, s[..i + 1]) == (FuseBroken(before, s[..i]) || s[i] == KillCalled)
  {
    assert s[..i + 1][..i] == s[..i] && s[..i + 1][i] == s[i];
  }

  /** A broken fuse never mends: whatever the schedule, it stays broken. */
  lemma {:induction false} FuseStaysBroken(s: seq<Happening>)
    ensures FuseBroken(true, s)
  {
    if s != [] {
      FuseStaysBroken(s[..|s| - 1]);
    }
  }

  /** The position of the first result in a schedule, or its length if none. */
  function FirstResult(s: seq<Happening>): (i: nat)
    ensures i <= |s|
    ensures forall k :: 0 <= k < i ==> !s[k].IsResult()
    ensures i < |s| ==> s[i].IsResult()
  {
    if s == [] then 0
    else if s[0].IsResult() then 0
    else 1 + FirstResult(s[1..])
  }

  /** How many times a schedule takes the kill case. */
  function KillSignals(s: seq<Happening>): nat {
    if s == [] then 0
    else KillSignals(s[..|s| - 1]) + (if s[|s| - 1] == Select(KillSignal) then 1 else 0)
  }

  function Repeat(e: Effect, n: nat): seq<Effect> {
    if n == 0 then [] else Repeat(e, n - 1) + [e]
  }

  /** How many status reports a trace holds. */
  function Reports(t: seq<Effect>): nat {
    if t == [] then 0 else (if t[0].UpdateEgress? then 1 else 0) + Reports(t[1..])
  }

  /** How many times a trace holds the effect e. */
  function Count(t: seq<Effect>, e: Effect): nat {
    if t == [] then 0 else (if t[0] == e then 1 else 0) + Count(t[1..], e)
  }

  lemma {:induction false} CountsAppend(a: seq<Effect>, b: seq<Effect>, e: Effect)
    ensures Reports(a + b) == Reports(a) + Reports(b)
    ensures Count(a + b, e) == Count(a, e) + Count(b, e)
  {
    if a == [] {
      assert a + b == b;
    } else {
      assert (a + b)[1..] == a[1..] + b;
      CountsAppend(a[1..], b, e);
    }
  }

  lemma {:induction false} RepeatHoldsOnly(e: Effect, n: nat, other: Effect)
    requires other != e
    ensures Count(Repeat(e, n), other) == 0
    ensures e.SendEOS? ==> Reports(Repeat(e, n)) == 0
  {
    if n > 0 {
      RepeatHoldsOnly(e, n - 1, other);
      CountsAppend(Repeat(e, n - 1), [e], other);
    }
  }

  /** Appending an effect that is neither a report nor a shutdown leaves
      their counts alone. */
  lemma {:induction false} QuietAppend(t: seq<Effect>, e: Effect)
    requires !e.UpdateEgress? && e != RpcShutdown && e != GrpcStop
    ensures Reports(t + [e]) == Reports(t)
    ensures Count(t + [e], RpcShutdown) == Count(t, RpcShutdown)
    ensures Count(t + [e], GrpcStop) == Count(t, GrpcStop)
  {
    assert [e][1..] == [];
    CountsAppend(t, [e], RpcShutdown);
    CountsAppend(t, [e], GrpcStop);
  }

  /** Until the result arrives, the loop does nothing but send end-of-stream,
      once for every time it takes the kill case. */
  lemma {:induction false} KillsOnlySendEOS(s: seq<Happening>)
    requires forall k :: 0 <= k < |s| ==> !s[k].IsResult()
    ensures ScheduleEffects(s) == Repeat(SendEOS, KillSignals(s))
  {
    if s != [] {
      var init := s[..|s| - 1];
      assert forall k :: 0 <= k < |init| ==> init[k] == s[k];
      KillsOnlySendEOS(init);
    }
  }

  /** The counts of a terminal trace: end-of-stream requests followed by the
      report and the two shutdowns. */
  lemma {:induction false} TerminalCounts(n: nat, info: EgressInfo)
    ensures var t := Repeat(SendEOS, n) + [UpdateEgress(info), RpcShutdown, GrpcStop];
      && Reports(t) == 1 && Count(t, RpcShutdown) == 1 && Count(t, GrpcStop) == 1
  {
    var eos := Repeat(SendEOS, n);
    var tail: seq<Effect> := [UpdateEgress(info), RpcShutdown, GrpcStop];
    assert Reports(tail) == 1 && Count(tail, RpcShutdown) == 1 && Count(tail, GrpcStop) == 1 by {
      assert tail[1..] == [RpcShutdown, GrpcStop];
      assert tail[1..][1..] == [GrpcStop];
      assert tail[1..][1..][1..] == [];
      assert Reports([GrpcStop]) == 0 && Count([GrpcStop], GrpcStop) == 1;
      assert Count([GrpcStop], RpcShutdown) == 0;
    }
    RepeatHoldsOnly(SendEOS, n, RpcShutdown);
    RepeatHoldsOnly(SendEOS, n, GrpcStop);
    CountsAppend(eos, tail, RpcShutdown);
    CountsAppend(eos, tail, GrpcStop);
  }

  /** Up to and including a result at r that no earlier result precedes, the
      effects are the end-of-stream requests followed by the result's own. */
  lemma {:induction false} EffectsThroughResult(s: seq<Happening>, r: nat)
    requires r < |s| && s[r].IsResult()
    requires forall k :: 0 <= k < r ==> !s[k].IsResult()
    ensures ScheduleEffects(s[..r + 1]) == Repeat(SendEOS, KillSignals(s[..r])) + StepEffects(s[r].ev)
  {
    var pre := s[..r];
    assert s[..r + 1][..r] == pre && s[..r + 1][r] == s[r];
    assert forall k :: 0 <= k < |pre| ==> !pre[k].IsResult();
    KillsOnlySendEOS(pre);
  }

  /** The loop's whole effect up to and including the result: end-of-stream
      for every kill taken, then exactly one status report of the result,
      then the bus server's shutdown, then the local server's stop. */
  lemma {:induction false} RunEffectsShape(s: seq<Happening>)
    requires FirstResult(s) < |s|
    ensures ScheduleEffects(s[..FirstResult(s) + 1])
         == Repeat(SendEOS, KillSignals(s[..FirstResult(s)]))
            + [UpdateEgress(s[FirstResult(s)].ev.info), RpcShutdown, GrpcStop]
    ensures Reports(ScheduleEffects(s[..FirstResult(s) + 1])) == 1
    ensures Count(ScheduleEffects(s[..FirstResult(s) + 1]), RpcShutdown) == 1
    ensures Count(ScheduleEffects(s[..FirstResult(s) + 1]), GrpcStop) == 1
  {
    var r := FirstResult(s);
    EffectsThroughResult(s, r);
    TerminalCounts(KillSignals(s[..r]), s[r].ev.info);
  }

  /** Nothing stops the select from taking the kill case again once the fuse
      is broken: one Kill can be followed by several end-of-stream requests. */
  lemma {:induction false} KillCaseRepeats(info: EgressInfo)
    ensures var s := [KillCalled, Select(KillSignal), Select(KillSignal), Select(Result(info))];
      && Enabled(false, s)
      && FirstResult(s) == 3
      && ScheduleEffects(s) == [SendEOS, SendEOS, UpdateEgress(info), RpcShutdown, GrpcStop]
  {
    var s := [KillCalled, Select(KillSignal), Select(KillSignal), Select(Result(info))];
    assert s[..3] == [KillCalled, Select(KillSignal), Select(KillSignal)];
    assert s[..3][..2] == [KillCalled, Select(KillSignal)];
    assert s[..3][..2][..1] == [KillCalled];
    assert ScheduleEffects([KillCalled]) == [];
    assert ScheduleEffects(s[..3][..2]) == [SendEOS];
    assert ScheduleEffects(s[..3]) == [SendEOS, SendEOS];
  }
}

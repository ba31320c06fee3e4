/** The per-job egress handler (package service): its construction and
    startup error classification, its Run event loop, Kill, and the handlers
    of the bus and local introspection services. */
module Service {
  import opened Errors
  import opened Protocol
  import opened Metrics
  import opened Lifecycle

  /** config.PipelineConfig, reduced to the job descriptor that NewHandler
      stamps in place when the pipeline rejects the request. */
  class PipelineConfig {
    var info: EgressInfo

    constructor (info: EgressInfo)
      ensures this.info == info
    {
      this.info := info;
    }
  }

  /** The outcomes of the transport setup steps, in the order NewHandler
      performs them: creating the bus server, registering the UpdateStream
      topic, registering the StopEgress topic, listening on the local socket. */
  datatype SetupOutcome = SetupOutcome(
    newServer: Option<Error>,
    registerUpdateTopic: Option<Error>,
    registerStopTopic: Option<Error>,
    listen: Option<Error>)

  /** The failure of the earliest setup step that failed, if any. */
  function SetupError(s: SetupOutcome): Option<Error> {
    if s.newServer.Some? then s.newServer
    else if s.registerUpdateTopic.Some? then s.registerUpdateTopic
    else if s.registerStopTopic.Some? then s.registerStopTopic
    else s.listen
  }

  /** What pipeline.New returns: a controller exposing its job descriptor,
      or an error. */
  datatype BuildOutcome = Built(info: EgressInfo) | BuildFailed(err: Error)

  /** The race in GetPipelineDot between the controller's dot string and a
      two-second timer. */
  datatype DotRace = DotArrived(dot: string) | TimedOut

  const DOT_TIMEOUT_MESSAGE := "timed out requesting pipeline debug info"

  class Handler {
    /** h.pipeline != nil */
    var pipelinePresent: bool
    /** h.pipeline.Info, the descriptor the controller exposes */
    var pipelineInfo: EgressInfo
    /** the kill fuse is broken */
    var killed: bool
    /** Run has taken the result and shut both servers down */
    var finished: bool
    /** the calls made on collaborators, in order */
    ghost var trace: seq<Effect>

    /** A finished handler had a pipeline, and has reported its result and
        shut each server down exactly once; an unfinished one has done none
        of these. */
    ghost predicate Valid()
      reads this`pipelinePresent, this`finished, this`trace
    {
      && (finished ==> pipelinePresent)
      && Reports(trace) == (if finished then 1 else 0)
      && Count(trace, RpcShutdown) == (if finished then 1 else 0)
      && Count(trace, GrpcStop) == (if finished then 1 else 0)
    }

    /** &Handler{...}: a fresh, unbroken kill fuse and no pipeline yet. */
    constructor ()
      ensures Valid()
      ensures !pipelinePresent && !killed && !finished && trace == []
    {
      pipelinePresent := false;
      killed := false;
      finished := false;
      trace := [];
    }

    /** Kill: break the fuse.  Breaking it again changes nothing. */
    method Kill()
      modifies this`killed
      ensures killed
    {
      killed := true;
    }

    /** One pass of Run's select.  The kill case is only ready once the fuse
        is broken; it asks the pipeline for end-of-stream and loops again.
        The result case reports the terminal descriptor, shuts the bus server
        down, stops the local server and makes Run return. */
    method Step(ev: Selected) returns (returned: bool)
      requires Valid() && pipelinePresent && !finished
      requires ev.KillSignal? ==> killed
      modifies this`trace, this`finished
      ensures Valid()
      ensures returned == ev.Result? && finished == returned
      ensures trace == old(trace) + StepEffects(ev)
    {
      match ev
      case KillSignal =>
        QuietAppend(trace, SendEOS);
        trace := trace + [SendEOS];
        returned := false;
      case Result(res) =>
        ghost var tail := [UpdateEgress(res), RpcShutdown, GrpcStop];
        TerminalCounts(0, res);
        assert Repeat(SendEOS, 0) + tail == tail;
        CountsAppend(trace, tail, RpcShutdown);
        CountsAppend(trace, tail, GrpcStop);
        trace := trace + tail;
        finished := true;
        returned := true;
    }

    /** Run: start the pipeline, then take the select's cases as the
        schedule delivers them, calling Kill where another caller does.  Run
        returns exactly when the schedule delivers the result; until then it
        only sends end-of-stream.  `used` is how much of the schedule it
        consumed; when `done` is false Run is still waiting. */
    method Run(schedule: seq<Happening>) returns (done: bool, used: nat)
      requires Valid() && pipelinePresent && !finished
      requires Enabled(killed, schedule)
      modifies this`trace, this`finished, this`killed
      ensures Valid()
      ensures done <==> FirstResult(schedule) < |schedule|
      ensures used == if done then FirstResult(schedule) + 1 else |schedule|
      ensures finished == done
      ensures killed == FuseBroken(old(killed), schedule[..used])
      ensures old(killed) ==> killed
      ensures trace == old(trace) + [PipelineRun] + ScheduleEffects(schedule[..used])
    {
      QuietAppend(trace, PipelineRun);
      trace := trace + [PipelineRun];
      ghost var started := trace;
      var i := 0;
      while i < |schedule|
        invariant 0 <= i <= FirstResult(schedule)
        invariant Valid() && !finished
        invariant killed == FuseBroken(old(killed), schedule[..i])
        invariant trace == started + ScheduleEffects(schedule[..i])
      {
        var next := schedule[i];
        ghost var before := trace;
        ScheduleStep(schedule, i, old(killed));
        assert (started + ScheduleEffects(schedule[..i])) + HappeningEffects(next)
            == started + (ScheduleEffects(schedule[..i]) + HappeningEffects(next));
        if next == KillCalled {
          Kill();
        } else {
          var returned := Step(next.ev);
          if returned {
            assert FirstResult(schedule) == i;
            assert trace == started + ScheduleEffects(schedule[..i + 1]);
            FuseStaysBroken(schedule[..i + 1]);
            return true, i + 1;
          }
        }
        assert trace == before + HappeningEffects(next);
        i := i + 1;
      }
      FuseStaysBroken(schedule[..i]);
      return false, i;
    }

    /** UpdateStream: without a pipeline, not found; otherwise forward the
        request, and return the pipeline's error unchanged or, on success,
        the pipeline's current descriptor. */
    method UpdateStream(req: UpdateStreamRequest, pipelineErr: Option<Error>)
      returns (info: Option<EgressInfo>, err: Option<Error>)
      requires Valid()
      modifies this`trace
      ensures Valid()
      ensures !pipelinePresent ==> info == None && err == Some(EgressNotFound) && trace == old(trace)
      ensures pipelinePresent ==> trace == old(trace) + [ForwardUpdate(req)]
      ensures pipelinePresent && pipelineErr.Some? ==> info == None && err == pipelineErr
      ensures pipelinePresent && pipelineErr.None? ==> info == Some(pipelineInfo) && err == None
    {
      if !pipelinePresent {
        return None, Some(EgressNotFound);
      }
      QuietAppend(trace, ForwardUpdate(req));
      trace := trace + [ForwardUpdate(req)];
      if pipelineErr.Some? {
        return None, pipelineErr;
      }
      return Some(pipelineInfo), None;
    }

    /** StopEgress: without a pipeline, not found; otherwise ask for
        end-of-stream once and return the current descriptor at once,
        without waiting for the pipeline to end. */
    method StopEgress() returns (info: Option<EgressInfo>, err: Option<Error>)
      requires Valid()
      modifies this`trace
      ensures Valid()
      ensures !pipelinePresent ==> info == None && err == Some(EgressNotFound) && trace == old(trace)
      ensures pipelinePresent ==> info == Some(pipelineInfo) && err == None
      ensures pipelinePresent ==> trace == old(trace) + [SendEOS]
    {
      if !pipelinePresent {
        return None, Some(EgressNotFound);
      }
      QuietAppend(trace, SendEOS);
      trace := trace + [SendEOS];
      return Some(pipelineInfo), None;
    }

    /** GetPipelineDot: without a pipeline, not found; otherwise ask the
        pipeline for its graph and answer with it if it arrives before the
        two-second timer, else with a deadline-exceeded error. */
    method GetPipelineDot(race: DotRace) returns (resp: Option<DotResponse>, err: Option<Error>)
      requires Valid()
      modifies this`trace
      ensures Valid()
      ensures !pipelinePresent ==> resp == None && err == Some(EgressNotFound) && trace == old(trace)
      ensures pipelinePresent ==> trace == old(trace) + [DebugDotRequested]
      ensures pipelinePresent && race.DotArrived? ==> resp == Some(DotResponse(race.dot)) && err == None
      ensures pipelinePresent && race.TimedOut? ==>
        resp == None && err == Some(DeadlineExceeded(DOT_TIMEOUT_MESSAGE))
    {
      if !pipelinePresent {
        return None, Some(EgressNotFound);
      }
      QuietAppend(trace, DebugDotRequested);
      trace := trace + [DebugDotRequested];
      match race
      case DotArrived(dot) =>
        return Some(DotResponse(dot)), None;
      case TimedOut =>
        return None, Some(DeadlineExceeded(DOT_TIMEOUT_MESSAGE));
    }

    /** GetPProf: without a pipeline, not found; otherwise ask the profiler
        for the named profile and return its data or its error unchanged. */
    method GetPProf(profileName: string, timeout: int, debug: int, profile: Result<seq<Byte>>)
      returns (resp: Option<PProfResponse>, err: Option<Error>)
      requires Valid()
      modifies this`trace
      ensures Valid()
      ensures !pipelinePresent ==> resp == None && err == Some(EgressNotFound) && trace == old(trace)
      ensures pipelinePresent ==> trace == old(trace) + [ProfileRequested(profileName, timeout, debug)]
      ensures pipelinePresent && profile.Err? ==> resp == None && err == Some(profile.error)
      ensures pipelinePresent && profile.Ok? ==> resp == Some(PProfResponse(profile.value)) && err == None
    {
      if !pipelinePresent {
        return None, Some(EgressNotFound);
      }
      QuietAppend(trace, ProfileRequested(profileName, timeout, debug));
      trace := trace + [ProfileRequested(profileName, timeout, debug)];
      if profile.Err? {
        return None, Some(profile.error);
      }
      return Some(PProfResponse(profile.value)), None;
    }

    /** GetMetrics: gather the process's metric families and render them.
        A gathering error is returned alone; a render error comes with an
        empty response; otherwise the response holds the rendered text.
        Whether the handler has a pipeline plays no part. */
    method GetMetrics<F>(gathered: seq<F>, gatherErr: Option<Error>, toText: F -> Serialized)
      returns (resp: Option<MetricsResponse>, err: Option<Error>)
      ensures gatherErr.Some? ==> resp == None && err == gatherErr
      ensures gatherErr.None? && Render(gathered, toText).RenderFailed? ==>
        resp == Some(MetricsResponse("")) && err == Some(Render(gathered, toText).err)
      ensures gatherErr.None? && Render(gathered, toText).Rendered? ==>
        resp == Some(MetricsResponse(Render(gathered, toText).text)) && err == None
    {
      if gatherErr.Some? {
        return None, gatherErr;
      }
      var text, count, renderErr, _ := RenderMetrics(gathered, toText);
      if renderErr.Some? {
        return Some(MetricsResponse("")), renderErr;
      }
      return Some(MetricsResponse(text)), None;
    }
  }

  /** NewHandler: set up the bus server and its two topics and the local
      listener, each failure returned as fatal before any pipeline exists;
      then build the pipeline.  A fatal build error is returned as is; any
      other build error is a user error: the descriptor is stamped failed
      at `now` with the error's text and reported once before the error is
      returned.  `calls` lists the collaborator calls made. */
  method NewHandler(conf: PipelineConfig, setup: SetupOutcome, build: BuildOutcome, now: int)
    returns (h: Handler?, err: Option<Error>, ghost calls: seq<Effect>)
    modifies conf
    ensures SetupError(setup).Some? ==>
      && h == null && err == Some(Fatal(SetupError(setup).value))
      && calls == [] && conf.info == old(conf.info)
    ensures SetupError(setup).None? && build.BuildFailed? && IsFatal(build.err) ==>
      && h == null && err == Some(build.err)
      && calls == [BuildPipeline] && conf.info == old(conf.info)
    ensures SetupError(setup).None? && build.BuildFailed? && !IsFatal(build.err) ==>
      && h == null && err == Some(build.err)
      && conf.info == old(conf.info).(status := EgressFailed, updatedAt := now, endedAt := now,
                                      error := ErrorText(build.err))
      && calls == [BuildPipeline, UpdateEgress(conf.info)]
    ensures SetupError(setup).None? && build.Built? ==>
      && h != null && fresh(h) && h.Valid() && err == None
      && h.pipelinePresent && h.pipelineInfo == build.info
      && !h.killed && !h.finished && h.trace == []
      && calls == [BuildPipeline] && conf.info == old(conf.info)
  {
    var handler := new Handler();
    calls := [];
    if setup.newServer.Some? {
      return null, Some(Fatal(setup.newServer.value)), calls;
    }
    if setup.registerUpdateTopic.Some? {
      return null, Some(Fatal(setup.registerUpdateTopic.value)), calls;
    }
    if setup.registerStopTopic.Some? {
      return null, Some(Fatal(setup.registerStopTopic.value)), calls;
    }
    if setup.listen.Some? {
      return null, Some(Fatal(setup.listen.value)), calls;
    }
    calls := calls + [BuildPipeline];
    match build
    case BuildFailed(e) =>
      if !IsFatal(e) {
        conf.info := conf.info.(updatedAt := now, endedAt := now, status := EgressFailed,
                                error := ErrorText(e));
        calls := calls + [UpdateEgress(conf.info)];
      }
      return null, Some(e), calls;
    case Built(info) =>
      handler.pipelinePresent := true;
      handler.pipelineInfo := info;
      return handler, None, calls;
  }
}

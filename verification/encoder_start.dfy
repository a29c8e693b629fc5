/** How the server gets from power-on to service, and what that means for the codec rule. */
module EncoderStart {
  import opened EncoderControl

  // ---------------------------------------------------- starts that keep the rule

  /** No request of the run throws. */
  ghost predicate NoneThrows(s: State, requests: seq<Request>)
    decreases |requests|
  {
    requests == [] || (!Execute(s, requests[0]).thrown && NoneThrows(Execute(s, requests[0]), requests[1..]))
  }

  /** Request k sets stream i. */
  predicate Sets(requests: seq<Request>, k: nat, i: Id) {
    k < |requests| && requests[k].command.DoSetStream? && requests[k].command.stream.id == i
  }

  ghost predicate SetsStream(requests: seq<Request>, i: Id) { exists k: nat :: Sets(requests, k, i) }

  // A stream that is set somewhere in a run that does not throw ends with a codec.
  lemma {:induction false} SetIsGiven(s: State, requests: seq<Request>, k: nat, i: Id)
    requires Sound(s) && NoneThrows(s, requests) && Sets(requests, k, i)
    ensures Given(Run(s, requests), i) && Run(s, requests).setup.initialized
    decreases |requests|
  {
    var t := Execute(s, requests[0]);
    ExecuteKeeps(s, requests[0]);
    if k == 0 {
      SetGives(s, requests[0]);
      GivenStays(t, requests[1..], i);
    } else {
      SetIsGiven(t, requests[1..], k - 1, i);
    }
  }

  lemma SetGives(s: State, r: Request)
    requires Sound(s) && r.command.DoSetStream? && !Execute(s, r).thrown
    ensures Given(Execute(s, r), r.command.stream.id) && Execute(s, r).setup.initialized
  {
    BeginIsSound(s, r.budget);
    SetStreamKeeps(Begin(s, r.budget), r.command.stream);
  }

  lemma {:induction false} GivenStays(s: State, requests: seq<Request>, i: Id)
    requires Sound(s) && s.setup.initialized && Given(s, i)
    ensures Given(Run(s, requests), i) && Run(s, requests).setup.initialized
    decreases |requests|
  {
    if requests != [] {
      ExecuteKeeps(s, requests[0]);
      ExecuteKeepsGiven(s, requests[0], i);
      GivenStays(Execute(s, requests[0]), requests[1..], i);
    }
  }

  /** After a reset that did not throw, every stream has the codec of its setting. */
  predicate HasCodecsOf(s: State, streams: Streams) {
    forall i: Id :: s.streams[i].codec == streams[i].encoder
  }

  lemma AfterReset(s: State, reset: Request)
    requires Sound(s) && Configured(s) && reset.command.DoReset?
    requires !Execute(s, reset).thrown
    ensures var t := Execute(s, reset);
      Sound(t) && Configured(t) && t.setup.initialized && HasCodecsOf(t, reset.command.streams)
  {
    var c := reset.command;
    BeginIsSound(s, reset.budget);
    ResetKeeps(Begin(s, reset.budget), c.sensorRate, c.calls, c.initCalls, c.streams);
  }

  lemma HasCodecsIsReady(s: State, streams: Streams)
    requires s.setup.initialized && HasCodecsOf(s, streams)
    ensures Ready(s)
  {
  }

  lemma EnableAsAsked(s: State, streams: Streams, enable: Switches)
    requires Inv(s) && Configured(s) && HasCodecsOf(s, streams)
    ensures var t := EnableEncoders(s, true, enable, 0);
      && Configured(t) && t.setup == s.setup
      && (!t.thrown ==> forall i: Id :: Replay(t.log).units[i] == Unit(enable[i], streams[i].encoder))
  {
    EnableEncodersKeeps(s, true, enable, 0);
  }

  lemma ReadyToServe(s: State, streams: Streams, budget: nat)
    requires Sound(s) && Configured(s) && HasCodecsOf(s, streams)
    ensures var t := Begin(Execute(s, Request(Serve, 0)), budget);
      Inv(t) && Configured(t) && HasCodecsOf(t, streams) && t.setup.serving
  {
    BeginIsSound(s, 0);
    ServingIsSound(Begin(s, 0));
  }

  lemma ServeAndEnable(s: State, streams: Streams, enable: Switches, budget: nat)
    requires Sound(s) && Configured(s) && HasCodecsOf(s, streams)
    ensures var t := Execute(Execute(s, Request(Serve, 0)), Request(DoEnableEncoders(true, enable), budget));
      && Configured(t) && t.setup.serving
      && (!t.thrown ==> forall i: Id :: Replay(t.log).units[i] == Unit(enable[i], streams[i].encoder))
  {
    ReadyToServe(s, streams, budget);
    EnableAsAsked(Begin(Execute(s, Request(Serve, 0)), budget), streams, enable);
  }

  /** The start the server takes after an invalid state file, from whatever state reading it
      has left: reset, then serve, then enable. If neither throws, exactly the streams that
      ask for it are on, each with its codec. Once the reset has not thrown, the codec rule is
      kept for ever, whatever commands follow and whatever fails. */
  lemma StartByReset(s: State, reset: Request, enable: Switches, budget: nat, later: seq<Request>)
    requires Sound(s) && Configured(s) && reset.command.DoReset?
    requires !Execute(s, reset).thrown
    ensures var up := Execute(s, reset);
      var t := Execute(Execute(up, Request(Serve, 0)), Request(DoEnableEncoders(true, enable), budget));
      && Configured(t) && t.setup.serving
      && (!t.thrown ==> forall i: Id :: Replay(t.log).units[i] == Unit(enable[i], reset.command.streams[i].encoder))
      && CodecsLegal(Run(up, later).log)
  {
    AfterReset(s, reset);
    ServeAndEnable(Execute(s, reset), reset.command.streams, enable, budget);
    HasCodecsIsReady(Execute(s, reset), reset.command.streams);
    RunIsSafe(Execute(s, reset), later);
  }

  // ------------------------------------------------------ where the rule breaks

  lemma {:induction false} OthersBudget(s: State, n: nat)
    requires !s.thrown && s.budget >= n
    ensures !Others(s, n).thrown && Others(s, n).setup == s.setup && Others(s, n).budget == s.budget - n
    decreases n
  {
    if n > 0 { OthersBudget(Sdk(s, Other), n - 1); }
  }

  lemma {:induction false} EnoughBudget(s: State, on: bool, enable: Switches, i: nat)
    requires Inv(s) && s.setup.initialized && !s.thrown && s.budget >= COUNT - i
    ensures !EnableEncoders(s, on, enable, i).thrown
    decreases COUNT - i
  {
    if i < COUNT {
      EnableStreamKeeps(s, i, on && enable[i]);
      EnoughBudget(EnableStream(s, i, on && enable[i]), on, enable, i + 1);
    }
  }

  // An image command brings the SDK up if its calls succeed.
  lemma ImageComesUp(s: State, sensorRate: nat, calls: nat, initCalls: nat)
    requires !s.setup.initialized && !s.thrown && s.budget >= 2 + initCalls + calls
    ensures var t := SetImage(s, sensorRate, calls, initCalls);
      !t.thrown && t.setup == s.setup.(initialized := true, sensorRate := sensorRate)
  {
    var u := Sdk(Sdk(s.(setup := s.setup.(sensorRate := sensorRate)), Connect(sensorRate)), CreateChannel);
    OthersBudget(u.(streams := Blank()), initCalls);
    OthersBudget(Init(s, sensorRate, initCalls), calls);
  }

  /** The SDK is up with this setup, and no stream was ever configured. */
  ghost predicate Bare(s: State, setup: Setup) {
    Inv(s) && CodecsLegal(s.log) && s.setup == setup && s.streams == Blank()
  }

  lemma UpWithoutStream(s: State, image: Request)
    requires Sound(s) && CodecsLegal(s.log) && !s.setup.initialized && image.command.DoSetImage?
    requires image.budget >= 2 + image.command.initCalls + image.command.calls
    ensures Bare(Execute(s, image), s.setup.(initialized := true, sensorRate := image.command.sensorRate))
  {
    var c := image.command;
    ImageComesUp(Begin(s, image.budget), c.sensorRate, c.calls, c.initCalls);
    SetImageKeeps(Begin(s, image.budget), c.sensorRate, c.calls, c.initCalls);
  }

  lemma ServingWithoutStream(s: State, setup: Setup)
    requires Bare(s, setup)
    ensures Bare(Execute(s, Request(Serve, 0)), setup.(serving := true))
  {
  }

  lemma EnabledStream(s: State, enable: Switches, budget: nat)
    requires Inv(s) && CodecsLegal(s.log) && s.setup.initialized && budget >= COUNT
    ensures var t := Execute(s, Request(DoEnableEncoders(true, enable), budget));
      && Inv(t) && CodecsLegal(t.log) && t.setup == s.setup
      && forall j: Id :: t.streams[j] == Unit(enable[j], s.streams[j].codec)
  {
    EnoughBudget(Begin(s, budget), true, enable, 0);
    EnableEncodersKeeps(Begin(s, budget), true, enable, 0);
  }

  lemma FirstSetBreaks(s: State, stream: Stream, budget: nat)
    requires Inv(s) && CodecsLegal(s.log) && s.streams[stream.id] == Unit(true, NoCodec)
    requires s.setup.initialized && stream.id < s.setup.encoders && budget > OsdCalls(s)
    ensures !CodecsLegal(Execute(s, Request(DoSetStream(stream), budget)).log)
  {
    BreaksRuleIff(Begin(s, budget), stream);
  }

  lemma RunOfTwo(s: State, q0: Request, q1: Request)
    ensures Run(s, [q0, q1]) == Execute(Execute(s, q0), q1)
  {
    assert [q0, q1][1..] == [q1] && [q1][1..] == [];
    assert Run(Execute(s, q0), [q1]) == Execute(Execute(s, q0), q1);
  }

  // A stream without a codec that is switched on and then set.
  lemma EnableThenSetBreaks(s: State, enable: Switches, stream: Stream, enableBudget: nat, budget: nat)
    requires Inv(s) && CodecsLegal(s.log) && s.setup.initialized && !Given(s, stream.id) && enable[stream.id]
    requires stream.id < s.setup.encoders && enableBudget >= COUNT && budget > OsdCalls(s)
    ensures !CodecsLegal(Run(s, [Request(DoEnableEncoders(true, enable), enableBudget),
                                 Request(DoSetStream(stream), budget)]).log)
  {
    var q0, q1 := Request(DoEnableEncoders(true, enable), enableBudget), Request(DoSetStream(stream), budget);
    EnabledStream(s, enable, enableBudget);
    FirstSetBreaks(Execute(s, q0), stream, budget);
    RunOfTwo(s, q0, q1);
  }

  /** A start that breaks it, whatever calls bringing the SDK up takes: no command names the
      stream, but its own setting enables it. Then the first command for the stream changes
      the codec while the stream is on. */
  lemma StartWithoutStream(s: State, image: Request, enable: Switches, stream: Stream,
                           enableBudget: nat, budget: nat)
    requires Fresh(s) && image.command.DoSetImage?
    requires image.budget >= 2 + image.command.initCalls + image.command.calls
    requires stream.id < s.setup.encoders && enable[stream.id]
    requires enableBudget >= COUNT && budget > OsdCalls(s)
    ensures !CodecsLegal(Run(s, [image, Request(Serve, 0)]
                                + [Request(DoEnableEncoders(true, enable), enableBudget),
                                   Request(DoSetStream(stream), budget)]).log)
  {
    var setup := s.setup.(initialized := true, sensorRate := image.command.sensorRate);
    UpWithoutStream(s, image);
    ServingWithoutStream(Execute(s, image), setup);
    RunOfTwo(s, image, Request(Serve, 0));
    EnableThenSetBreaks(Run(s, [image, Request(Serve, 0)]), enable, stream, enableBudget, budget);
    RunConcat(s, [image, Request(Serve, 0)],
              [Request(DoEnableEncoders(true, enable), enableBudget), Request(DoSetStream(stream), budget)]);
  }

  // ------------------------------------------------------------- the whole future

  /** Every request that switches encoders on asks only for streams of `e`. */
  predicate AllWithin(requests: seq<Request>, e: Switches) {
    forall k :: 0 <= k < |requests| ==> Within(requests[k].command, e)
  }

  predicate Within(c: Command, e: Switches) {
    c.DoEnableEncoders? && c.on ==> forall i: Id :: c.enable[i] ==> e[i]
  }

  /** ... or for streams that have a codec by then. A stream's setting asks for it to be on
      from the start, or since a command that has set the stream. */
  ghost predicate Asked(s: State, c: Command, e: Switches) {
    c.DoEnableEncoders? && c.on ==> forall i: Id :: c.enable[i] ==> e[i] || Given(s, i)
  }

  ghost predicate AskedRun(s: State, requests: seq<Request>, e: Switches)
    decreases |requests|
  {
    requests == []
    || (Asked(s, requests[0].command, e) && AskedRun(Execute(s, requests[0]), requests[1..], e))
  }

  lemma {:induction false} WithinIsAsked(s: State, requests: seq<Request>, e: Switches)
    requires AllWithin(requests, e)
    ensures AskedRun(s, requests, e)
    decreases |requests|
  {
    if requests != [] {
      assert Within(requests[0].command, e);
      WithinIsAsked(Execute(s, requests[0]), requests[1..], e);
    }
  }

  /** Stream i has a codec if it is on or may be asked to be; a stream the board has no
      encoder for never gets one. */
  predicate StreamCovered(s: State, e: Switches, i: Id) {
    i < s.setup.encoders && (e[i] || s.streams[i].enabled) ==> Given(s, i)
  }

  ghost predicate Covered(s: State, e: Switches) {
    forall i: Id :: StreamCovered(s, e, i)
  }

  // One set_stream, whatever fails.
  lemma SetStreamStaysCovered(s: State, stream: Stream, e: Switches)
    requires Inv(s) && CodecsLegal(s.log) && Covered(s, e)
    ensures var t := SetStream(s, stream);
      Inv(t) && CodecsLegal(t.log) && Covered(t, e) && t.setup == s.setup
  {
    SetStreamKeeps(s, stream);
    if s.thrown {
      SetStreamThrown(s, stream);
    } else if !s.setup.initialized || stream.id >= s.setup.encoders {
      NothingCarried(s, stream);
      SameIsCovered(s, SetStream(s, stream), e);
    } else {
      assert StreamCovered(s, e, stream.id);
      BreaksRuleIff(s, stream);
      forall i: Id ensures StreamCovered(SetStream(s, stream), e, i) {
        assert StreamCovered(s, e, i);
        SetStreamCovers(s, stream, e, i);
      }
    }
  }

  lemma SameIsCovered(s: State, t: State, e: Switches)
    requires Covered(s, e) && t.streams == s.streams && t.setup.encoders == s.setup.encoders
    ensures Covered(t, e)
  {
    forall i: Id ensures StreamCovered(t, e, i) { assert StreamCovered(s, e, i); }
  }

  lemma SetStreamCovers(s: State, stream: Stream, e: Switches, i: Id)
    requires Inv(s) && !s.thrown && StreamCovered(s, e, i)
    ensures StreamCovered(SetStream(s, stream), e, i)
  {
    var t := SetStream(s, stream);
    SetStreamKeeps(s, stream);
    if Given(s, i) { SetStreamKeepsGiven(s, stream, i); }
    if i == stream.id && t.thrown { ThrowNeverEnables(s, stream); }
  }

  lemma {:induction false} ResetStreamsStayCovered(s: State, streams: Streams, k: nat, e: Switches)
    requires Inv(s) && CodecsLegal(s.log) && Covered(s, e)
    ensures var t := ResetStreams(s, streams, k); CodecsLegal(t.log) && Covered(t, e)
    decreases COUNT - k
  {
    if k < COUNT {
      var stream := Reduced(streams[k], s.setup.sensorRate);
      SetStreamStaysCovered(s, stream, e);
      ResetStreamsStayCovered(SetStream(s, stream), streams, k + 1, e);
    }
  }

  lemma EnableStreamOnly(s: State, i: Id, on: bool, j: Id)
    requires Inv(s)
    ensures EnableStream(s, i, on).streams[j].enabled ==> s.streams[j].enabled || (on && j == i)
  {
    SwitchInStep(Check(s, !s.setup.initialized), i, on);
  }

  lemma {:induction false} EnableEncodersOnly(s: State, on: bool, enable: Switches, k: nat, j: Id)
    requires Inv(s)
    ensures EnableEncoders(s, on, enable, k).streams[j].enabled ==> s.streams[j].enabled || (on && enable[j])
    decreases COUNT - k
  {
    if k < COUNT {
      EnableStreamKeeps(s, k, on && enable[k]);
      EnableStreamOnly(s, k, on && enable[k], j);
      EnableEncodersOnly(EnableStream(s, k, on && enable[k]), on, enable, k + 1, j);
    }
  }

  lemma EnableEncodersStayCovered(s: State, on: bool, enable: Switches, e: Switches)
    requires Inv(s) && CodecsLegal(s.log) && Covered(s, e)
    requires Asked(s, DoEnableEncoders(on, enable), e)
    ensures var t := EnableEncoders(s, on, enable, 0); CodecsLegal(t.log) && Covered(t, e)
  {
    EnableEncodersKeeps(s, on, enable, 0);
    forall i: Id ensures StreamCovered(EnableEncoders(s, on, enable, 0), e, i) {
      assert StreamCovered(s, e, i);
      EnableEncodersOnly(s, on, enable, 0, i);
    }
  }

  lemma SetImageStaysCovered(s: State, sensorRate: nat, calls: nat, initCalls: nat, e: Switches)
    requires Sound(s) && !s.thrown && CodecsLegal(s.log) && Covered(s, e)
    ensures var t := SetImage(s, sensorRate, calls, initCalls);
      Sound(t) && CodecsLegal(t.log) && Covered(t, e)
  {
    SetImageKeeps(s, sensorRate, calls, initCalls);
    SetImageKeepsBoard(s, sensorRate, calls, initCalls);
    SetImageKeepsLegal(s, sensorRate, calls, initCalls);
    SameIsCovered(s, SetImage(s, sensorRate, calls, initCalls), e);
  }

  lemma SetImageKeepsLegal(s: State, sensorRate: nat, calls: nat, initCalls: nat)
    requires Sound(s) && !s.thrown && CodecsLegal(s.log)
    ensures CodecsLegal(SetImage(s, sensorRate, calls, initCalls).log)
  {
    if s.setup.initialized {
      OthersKeep(s, calls);
    } else {
      InitKeeps(s, sensorRate, initCalls);
      OthersKeep(Init(s, sensorRate, initCalls), calls);
    }
  }

  lemma SetImageKeepsBoard(s: State, sensorRate: nat, calls: nat, initCalls: nat)
    ensures SetImage(s, sensorRate, calls, initCalls).setup.encoders == s.setup.encoders
  {
    InitKeepsBoard(s, sensorRate, initCalls);
    OthersSetup(if s.setup.initialized then s else Init(s, sensorRate, initCalls), calls);
  }

  lemma InitKeepsBoard(s: State, sensorRate: nat, calls: nat)
    ensures Init(s, sensorRate, calls).setup.encoders == s.setup.encoders
  {
    var t := Sdk(Sdk(s.(setup := s.setup.(sensorRate := sensorRate)), Connect(sensorRate)), CreateChannel);
    OthersSetup(if t.thrown then t else t.(streams := Blank()), calls);
  }

  lemma {:induction false} OthersSetup(s: State, n: nat)
    ensures Others(s, n).setup == s.setup
    decreases n
  {
    if n > 0 { OthersSetup(Sdk(s, Other), n - 1); }
  }

  lemma ApplyStaysCovered(s: State, c: Command, e: Switches)
    requires Sound(s) && !s.thrown && CodecsLegal(s.log) && Covered(s, e) && Asked(s, c, e)
    ensures CodecsLegal(Apply(s, c).log) && Covered(Apply(s, c), e)
  {
    match c
    case DoSetImage(rate, calls, initCalls) => SetImageStaysCovered(s, rate, calls, initCalls, e);
    case DoSetStream(stream) => SetStreamStaysCovered(s, stream, e);
    case DoReset(rate, calls, initCalls, streams) =>
      var now := if s.setup.initialized then s.setup.sensorRate else rate;
      SetImageStaysCovered(s, now, calls, initCalls, e);
      ResetStreamsStayCovered(SetImage(s, now, calls, initCalls), streams, 0, e);
    case DoEnableEncoders(on, enable) => EnableEncodersStayCovered(s, on, enable, e);
    case Serve => SameIsCovered(s, StartServing(s), e);
  }

  lemma ExecuteStaysCovered(s: State, r: Request, e: Switches)
    requires Sound(s) && CodecsLegal(s.log) && Covered(s, e) && Asked(s, r.command, e)
    ensures CodecsLegal(Execute(s, r).log) && Covered(Execute(s, r), e)
  {
    var b := Begin(s, r.budget);
    BeginIsSound(s, r.budget);
    SameIsCovered(s, b, e);
    assert forall i: Id :: Given(b, i) <==> Given(s, i);
    ApplyStaysCovered(b, r.command, e);
  }

  lemma {:induction false} CoveredRunIsLegal(s: State, requests: seq<Request>, e: Switches)
    requires Sound(s) && CodecsLegal(s.log) && Covered(s, e) && AskedRun(s, requests, e)
    ensures CodecsLegal(Run(s, requests).log)
    decreases |requests|
  {
    if requests != [] {
      ExecuteKeeps(s, requests[0]);
      ExecuteStaysCovered(s, requests[0], e);
      CoveredRunIsLegal(Execute(s, requests[0]), requests[1..], e);
    }
  }

  /** The other way round: a run within the settings that breaks the rule. */
  lemma UncoveredBreaks(s: State, e: Switches, i: Id) returns (requests: seq<Request>)
    requires Sound(s) && CodecsLegal(s.log) && !StreamCovered(s, e, i)
    ensures AllWithin(requests, e) && !CodecsLegal(Run(s, requests).log)
  {
    var stream, budget := Stream(i, true, H264, 1, true), OsdCalls(s) + 1;
    var enable, change := Request(DoEnableEncoders(true, e), COUNT), Request(DoSetStream(stream), budget);
    if !s.setup.initialized {
      var image := Request(DoSetImage(25, 0, 0), 2);
      UpWithoutStream(s, image);
      EnableThenSetBreaks(Execute(s, image), e, stream, COUNT, budget);
      requests := [image] + [enable, change];
      RunConcat(s, [image], [enable, change]);
      assert Run(s, [image]) == Execute(s, image);
    } else if s.streams[i].enabled {
      FirstSetBreaks(s, stream, budget);
      requests := [change];
      assert Run(s, [change]) == Execute(s, change);
    } else {
      EnableThenSetBreaks(s, e, stream, COUNT, budget);
      requests := [enable, change];
    }
  }

  /** Exactly when the codec rule, kept so far, is kept in every future in which encoders are
      switched on as the settings `e` ask, whatever calls fail: when every stream that is on, or
      that the settings ask to be on, has a codec, as far as the board has encoders. It makes no
      difference whether streams that have got a codec later may be asked for as well. */
  lemma SafeForeverIff(s: State, e: Switches)
    requires Sound(s) && CodecsLegal(s.log)
    ensures (forall requests :: AllWithin(requests, e) ==> CodecsLegal(Run(s, requests).log)) <==> Covered(s, e)
    ensures (forall requests :: AskedRun(s, requests, e) ==> CodecsLegal(Run(s, requests).log)) <==> Covered(s, e)
  {
    if Covered(s, e) {
      forall requests | AskedRun(s, requests, e) ensures CodecsLegal(Run(s, requests).log) {
        CoveredRunIsLegal(s, requests, e);
      }
      forall requests | AllWithin(requests, e) ensures CodecsLegal(Run(s, requests).log) {
        WithinIsAsked(s, requests, e);
      }
    } else {
      var i: Id :| !StreamCovered(s, e, i);
      var requests := UncoveredBreaks(s, e, i);
      WithinIsAsked(s, requests, e);
    }
  }

  // ------------------------------------------------------ the start from a state file

  lemma ResetKeepsBoard(s: State, sensorRate: nat, calls: nat, initCalls: nat, streams: Streams)
    requires Sound(s) && !s.thrown
    ensures Reset(s, sensorRate, calls, initCalls, streams).setup.encoders == s.setup.encoders
  {
    var rate := if s.setup.initialized then s.setup.sensorRate else sensorRate;
    SetImageKeeps(s, rate, calls, initCalls);
    SetImageKeepsBoard(s, rate, calls, initCalls);
    ResetStreamsKeep(SetImage(s, rate, calls, initCalls), streams, 0);
  }

  lemma ApplyKeepsBoard(s: State, c: Command)
    requires Sound(s) && !s.thrown
    ensures Apply(s, c).setup.encoders == s.setup.encoders
  {
    match c
    case DoSetImage(rate, calls, initCalls) => SetImageKeepsBoard(s, rate, calls, initCalls);
    case DoSetStream(stream) => SetStreamKeeps(s, stream);
    case DoReset(rate, calls, initCalls, streams) => ResetKeepsBoard(s, rate, calls, initCalls, streams);
    case DoEnableEncoders(on, enable) => EnableEncodersKeeps(s, on, enable, 0);
    case Serve =>
  }

  lemma ExecuteKeepsBoard(s: State, r: Request)
    requires Sound(s)
    ensures Execute(s, r).setup.encoders == s.setup.encoders
  {
    BeginIsSound(s, r.budget);
    ApplyKeepsBoard(Begin(s, r.budget), r.command);
  }

  lemma {:induction false} RunKeepsBoard(s: State, requests: seq<Request>)
    requires Sound(s)
    ensures Run(s, requests).setup.encoders == s.setup.encoders
    decreases |requests|
  {
    if requests != [] {
      ExecuteKeeps(s, requests[0]);
      ExecuteKeepsBoard(s, requests[0]);
      RunKeepsBoard(Execute(s, requests[0]), requests[1..]);
    }
  }

  // What such a start leaves.
  lemma StateFileRead(s: State, start: seq<Request>, e: Switches)
    requires Fresh(s) && NoneThrows(s, start) && Quiet(start)
    requires forall i: Id :: i < s.setup.encoders && e[i] ==> SetsStream(start, i)
    ensures var t := Run(s, start); Sound(t) && Configured(t) && Covered(t, e)
  {
    var t := Run(s, start);
    QuietIsGuarded(s, start);
    RunIsSafe(s, start);
    RunKeepsBoard(s, start);
    forall i: Id ensures StreamCovered(t, e, i) {
      assert HasCodec(t.streams[i]);
      if i < s.setup.encoders && e[i] {
        assert SetsStream(start, i);
        var k: nat :| Sets(start, k, i);
        SetIsGiven(s, start, k, i);
      }
    }
  }

  /** The start from a state file: requests none of which throws or switches encoders on, and
      which set, in any order, every stream that the settings `e` ask to be on. Then the codec
      rule is kept in every future within the settings, whatever fails; if they set every
      stream, in every future at all. */
  lemma StartByStateFile(s: State, start: seq<Request>, later: seq<Request>, e: Switches)
    requires Fresh(s) && NoneThrows(s, start) && Quiet(start)
    requires forall i: Id :: i < s.setup.encoders && e[i] ==> SetsStream(start, i)
    ensures AskedRun(Run(s, start), later, e) ==> CodecsLegal(Run(s, start + later).log)
    ensures (forall i: Id :: SetsStream(start, i)) ==> Ready(Run(s, start)) && CodecsLegal(Run(s, start + later).log)
  {
    RunConcat(s, start, later);
    StateFileRead(s, start, e);
    if AskedRun(Run(s, start), later, e) { CoveredRunIsLegal(Run(s, start), later, e); }
    if forall i: Id :: SetsStream(start, i) {
      AllSetIsReady(s, start);
      SafeFromStart(s, start, later);
    }
  }

  lemma AllSetIsReady(s: State, start: seq<Request>)
    requires Sound(s) && NoneThrows(s, start) && forall i: Id :: SetsStream(start, i)
    ensures Ready(Run(s, start))
  {
    forall i: Id ensures Given(Run(s, start), i) && Run(s, start).setup.initialized {
      assert SetsStream(start, i);
      var k: nat :| Sets(start, k, i);
      SetIsGiven(s, start, k, i);
    }
    var first: Id := 0;
    assert Given(Run(s, start), first);
  }
}

/** Control of the camera's encoders: what SDKManager remembers of every stream, and what the
    firmware was told. Every SDK call either succeeds or throws without effect; `budget` is
    the number of calls that succeed before one throws, so every pattern of failures of one
    command is some budget. */
module EncoderControl {

  const COUNT: nat := 4

  type Id = i: nat | i < COUNT

  datatype Codec = NoCodec | H264 | Jpeg | Mpeg4

  type Encoder = c: Codec | c != NoCodec witness H264

  // ----------------------------------------------------------- the firmware

  datatype Call =
    | Connect(sensorRate: nat)
    | CreateChannel
    | EnableEncoder(stream: Id, on: bool)
    | SetCodec(stream: Id, codec: Encoder)
    | SetParams(stream: Id, frameRate: nat)
    | Other

  /** What matters of one stream, to the firmware and to the manager. */
  datatype Unit = Unit(enabled: bool, codec: Codec)

  type Units = u: seq<Unit> | |u| == COUNT witness Blank()

  function Blank(): seq<Unit> {
    [Unit(false, NoCodec), Unit(false, NoCodec), Unit(false, NoCodec), Unit(false, NoCodec)]
  }

  /** Frame rates per stream; 0 before one is set. */
  type Rates = r: seq<nat> | |r| == COUNT witness [0, 0, 0, 0]

  datatype Firmware = Firmware(sensorRate: nat, units: Units, rates: Rates)

  function Effect(f: Firmware, c: Call): Firmware {
    match c
    case Connect(rate) => f.(sensorRate := rate)
    case CreateChannel => f.(units := Blank(), rates := [0, 0, 0, 0])
    case EnableEncoder(i, on) => f.(units := f.units[i := f.units[i].(enabled := on)])
    case SetCodec(i, codec) => f.(units := f.units[i := f.units[i].(codec := codec)])
    case SetParams(i, rate) => f.(rates := f.rates[i := rate])
    case Other => f
  }

  /** What the successful calls have made of the firmware. */
  function Replay(log: seq<Call>): Firmware {
    if log == [] then Firmware(0, Blank(), [0, 0, 0, 0]) else Effect(Replay(log[..|log| - 1]), log[|log| - 1])
  }

  /** The codec of a stream can be changed only while the stream is disabled. */
  predicate CodecRule(f: Firmware, c: Call) {
    c.SetCodec? ==> !f.units[c.stream].enabled
  }

  predicate RateRule(f: Firmware, c: Call) {
    c.SetParams? ==> c.frameRate <= f.sensorRate
  }

  /** Every call kept the rule when it was made. */
  predicate CodecsLegal(log: seq<Call>) {
    log == [] || (CodecsLegal(log[..|log| - 1]) && CodecRule(Replay(log[..|log| - 1]), log[|log| - 1]))
  }

  predicate RatesLegal(log: seq<Call>) {
    log == [] || (RatesLegal(log[..|log| - 1]) && RateRule(Replay(log[..|log| - 1]), log[|log| - 1]))
  }

  // ------------------------------------------------------------ the manager

  datatype Setup = Setup(
    initialized: bool,     // the SDK is up
    serving: bool,         // the server has finished its own initialization
    sensorRate: nat,
    fosd: bool,            // option: OSD drawn by the firmware
    encoders: nat)         // encoders the board has per camera

  datatype State = State(setup: Setup, streams: Units, log: seq<Call>, budget: nat, thrown: bool)

  datatype Stream = Stream(id: Id, enable: bool, encoder: Encoder, fps: nat, validSize: bool)

  function Check(s: State, bad: bool): State { if bad then s.(thrown := true) else s }

  function Sdk(s: State, c: Call): State {
    if s.thrown || s.budget == 0 then s.(thrown := true)
    else s.(log := s.log + [c], budget := s.budget - 1)
  }

  function Put(s: State, i: Id, unit: Unit): State {
    if s.thrown then s else s.(streams := s.streams[i := unit])
  }

  function Others(s: State, n: nat): State
    decreases n
  {
    if n == 0 then s else Others(Sdk(s, Other), n - 1)
  }

  function SwitchEncoder(s: State, i: Id, on: bool): State {
    Put(Sdk(s, EnableEncoder(i, on)), i, s.streams[i].(enabled := on))
  }

  function GiveCodec(s: State, i: Id, encoder: Encoder): State {
    Put(Sdk(s, SetCodec(i, encoder)), i, s.streams[i].(codec := encoder))
  }

  /** change_encoder_if_needed */
  function ChangeEncoder(s: State, i: Id, encoder: Encoder): State {
    var unit := s.streams[i];
    if unit.codec == encoder then s
    else GiveCodec(if unit.codec != NoCodec && unit.enabled then SwitchEncoder(s, i, false) else s, i, encoder)
  }

  /** The frame rate set_stream uses: reduced to the sensor rate while the server starts. */
  function LimitedRate(setup: Setup, fps: nat): nat {
    if fps <= setup.sensorRate || setup.serving then fps else setup.sensorRate
  }

  /** set_stream up to the encoder: OSD calls, if the firmware draws it. */
  function Prepare(s: State, id: Id): State {
    var t := Check(s, !s.setup.initialized || id >= s.setup.encoders);
    if s.setup.fosd then Others(t, 2) else t
  }

  /** set_stream from the encoder parameters on; only a server in service switches. */
  function SetParameters(s: State, stream: Stream): State {
    var t := Check(s, (stream.fps > s.setup.sensorRate && s.setup.serving) || !stream.validSize);
    var u := Sdk(t, SetParams(stream.id, LimitedRate(s.setup, stream.fps)));
    if s.setup.serving && s.streams[stream.id].enabled != stream.enable then SwitchEncoder(u, stream.id, stream.enable)
    else u
  }

  function SetStream(s: State, stream: Stream): State {
    SetParameters(ChangeEncoder(Prepare(s, stream.id), stream.id, stream.encoder), stream)
  }

  function EnableStream(s: State, id: nat, on: bool): State {
    var t := Check(s, !s.setup.initialized || id >= COUNT);
    if id >= COUNT then t else SwitchEncoder(t, id, on)
  }

  /** enable_encoders from stream i on; `enable` are the streams' own settings. */
  function EnableEncoders(s: State, on: bool, enable: seq<bool>, i: nat): State
    requires |enable| == COUNT
    decreases COUNT - i
  {
    if i >= COUNT then s else EnableEncoders(EnableStream(s, i, on && enable[i]), on, enable, i + 1)
  }

  /** init, with the sensor rate of the image; the manager forgets all streams. */
  function Init(s: State, sensorRate: nat, calls: nat): State {
    var t := Sdk(Sdk(s.(setup := s.setup.(sensorRate := sensorRate)), Connect(sensorRate)), CreateChannel);
    var u := Others(if t.thrown then t else t.(streams := Blank()), calls);
    if u.thrown then u else u.(setup := u.setup.(initialized := true))
  }

  /** `calls` other SDK calls are made for the image, `initCalls` when the SDK is brought up. */
  function SetImage(s: State, sensorRate: nat, calls: nat, initCalls: nat): State {
    Others(if s.setup.initialized then s else Init(s, sensorRate, initCalls), calls)
  }

  type Streams = q: seq<Stream> | |q| == COUNT && forall i :: 0 <= i < COUNT ==> q[i].id == i
    witness [Stream(0, true, H264, 25, true), Stream(1, false, H264, 25, true),
             Stream(2, false, H264, 25, true), Stream(3, false, H264, 25, true)]

  function Reduced(stream: Stream, sensorRate: nat): Stream {
    if stream.fps > sensorRate then stream.(fps := sensorRate) else stream
  }

  /** The loop of reset, from stream i on. */
  function ResetStreams(s: State, streams: Streams, i: nat): State
    decreases COUNT - i
  {
    if i >= COUNT then s
    else ResetStreams(SetStream(s, Reduced(streams[i], s.setup.sensorRate)), streams, i + 1)
  }

  function Reset(s: State, sensorRate: nat, calls: nat, initCalls: nat, streams: Streams): State {
    var rate := if s.setup.initialized then s.setup.sensorRate else sensorRate;
    ResetStreams(SetImage(s, rate, calls, initCalls), streams, 0)
  }

  // ------------------------------------------------------------------- runs

  datatype Command =
    | DoSetImage(sensorRate: nat, calls: nat, initCalls: nat)
    | DoSetStream(stream: Stream)
    | DoReset(sensorRate: nat, calls: nat, initCalls: nat, streams: Streams)
    | DoEnableEncoders(on: bool, enable: Switches)   // start of service, firmware upload
    | Serve                                           // the server has finished initializing

  type Switches = e: seq<bool> | |e| == COUNT witness [false, false, false, false]

  datatype Request = Request(command: Command, budget: nat)

  function Begin(s: State, budget: nat): State { s.(budget := budget, thrown := false) }

  function StartServing(s: State): State { s.(setup := s.setup.(serving := true)) }

  function Apply(s: State, c: Command): State {
    match c
    case DoSetImage(rate, calls, initCalls) => SetImage(s, rate, calls, initCalls)
    case DoSetStream(stream) => SetStream(s, stream)
    case DoReset(rate, calls, initCalls, streams) => Reset(s, rate, calls, initCalls, streams)
    case DoEnableEncoders(on, enable) => EnableEncoders(s, on, enable, 0)
    case Serve => StartServing(s)
  }

  function Execute(s: State, r: Request): State { Apply(Begin(s, r.budget), r.command) }

  function Run(s: State, requests: seq<Request>): State
    decreases |requests|
  {
    if requests == [] then s else Run(Execute(s, requests[0]), requests[1..])
  }

  predicate Fresh(s: State) {
    !s.setup.initialized && !s.setup.serving && s.streams == Blank() && s.log == []
  }

  // -------------------------------------------------------------- invariants

  lemma LogGrows(s: State, c: Call)
    requires !Sdk(s, c).thrown
    ensures Replay(Sdk(s, c).log) == Effect(Replay(s.log), c)
    ensures CodecsLegal(Sdk(s, c).log) <==> CodecsLegal(s.log) && CodecRule(Replay(s.log), c)
    ensures RatesLegal(Sdk(s, c).log) <==> RatesLegal(s.log) && RateRule(Replay(s.log), c)
  {
    assert (s.log + [c])[..|s.log|] == s.log;
  }

  /** Holds after every command, whatever calls fail: what the manager remembers is what the
      firmware does, and no frame rate above the sensor rate was sent. */
  ghost predicate Inv(s: State) {
    && s.streams == Replay(s.log).units
    && (s.setup.initialized ==> Replay(s.log).sensorRate == s.setup.sensorRate)
    && RatesLegal(s.log)
  }

  predicate HasCodec(u: Unit) { u.enabled ==> u.codec != NoCodec }

  ghost predicate AllHaveCodecs(s: State) {
    forall i: Id :: HasCodec(s.streams[i])
  }

  /** Every enabled stream has a codec, and the codec rule was never broken. */
  ghost predicate Configured(s: State) {
    AllHaveCodecs(s) && CodecsLegal(s.log)
  }

  /** A piece of a command keeps both, and the setup; nothing happens behind a throw. */
  ghost predicate Kept(s: State, t: State) {
    && Inv(t) && t.setup == s.setup && (s.thrown ==> t == s)
    && (AllHaveCodecs(s) ==> AllHaveCodecs(t)) && (CodecsLegal(t.log) <==> CodecsLegal(s.log))
  }

  lemma {:induction false} OthersKeep(s: State, n: nat)
    requires Inv(s)
    ensures Kept(s, Others(s, n)) && Others(s, n).streams == s.streams
    ensures Replay(Others(s, n).log) == Replay(s.log)
    decreases n
  {
    if n > 0 {
      OtherKeeps(s);
      OthersKeep(Sdk(s, Other), n - 1);
    }
  }

  lemma OtherKeeps(s: State)
    requires Inv(s)
    ensures Kept(s, Sdk(s, Other)) && Sdk(s, Other).streams == s.streams
    ensures Replay(Sdk(s, Other).log) == Replay(s.log)
  {
    if !Sdk(s, Other).thrown { LogGrows(s, Other); }
  }

  lemma SwitchKeeps(s: State, i: Id, on: bool)
    requires Inv(s) && (on ==> s.streams[i].codec != NoCodec)
    ensures Kept(s, SwitchEncoder(s, i, on))
  {
    SwitchInStep(s, i, on);
    if !Sdk(s, EnableEncoder(i, on)).thrown { LogGrows(s, EnableEncoder(i, on)); }
  }

  lemma SwitchInStep(s: State, i: Id, on: bool)
    requires Inv(s)
    ensures var t := SwitchEncoder(s, i, on);
      && Inv(t) && t.setup == s.setup && (s.thrown ==> t == s)
      && (CodecsLegal(t.log) <==> CodecsLegal(s.log))
      && t.streams == if t.thrown then s.streams else s.streams[i := s.streams[i].(enabled := on)]
  {
    if !Sdk(s, EnableEncoder(i, on)).thrown { LogGrows(s, EnableEncoder(i, on)); }
  }

  lemma CodecInStep(s: State, i: Id, encoder: Encoder)
    requires Inv(s)
    ensures var t := GiveCodec(s, i, encoder);
      && Inv(t) && t.setup == s.setup && (s.thrown ==> t == s)
      && t.streams == (if t.thrown then s.streams else s.streams[i := s.streams[i].(codec := encoder)])
      && (CodecsLegal(t.log) <==> CodecsLegal(s.log) && (t.thrown || !s.streams[i].enabled))
  {
    if !Sdk(s, SetCodec(i, encoder)).thrown { LogGrows(s, SetCodec(i, encoder)); }
  }

  lemma CodecKeeps(s: State, i: Id, encoder: Encoder)
    requires Inv(s) && !s.streams[i].enabled
    ensures Kept(s, GiveCodec(s, i, encoder))
    ensures !GiveCodec(s, i, encoder).thrown ==> GiveCodec(s, i, encoder).streams[i].codec == encoder
    ensures forall j: Id :: j != i ==> GiveCodec(s, i, encoder).streams[j] == s.streams[j]
  {
    CodecInStep(s, i, encoder);
  }

  lemma ChangeEncoderKeeps(s: State, i: Id, encoder: Encoder)
    requires Inv(s)
    ensures Inv(ChangeEncoder(s, i, encoder)) && ChangeEncoder(s, i, encoder).setup == s.setup
    ensures HasCodec(s.streams[i]) ==> Kept(s, ChangeEncoder(s, i, encoder))
    ensures !ChangeEncoder(s, i, encoder).thrown ==> ChangeEncoder(s, i, encoder).streams[i].codec == encoder
    ensures forall j: Id :: j != i ==> ChangeEncoder(s, i, encoder).streams[j] == s.streams[j]
    ensures s.thrown ==> ChangeEncoder(s, i, encoder) == s
  {
    var unit := s.streams[i];
    if unit.codec != encoder {
      if unit.codec != NoCodec && unit.enabled {
        SwitchKeeps(s, i, false);
        SwitchInStep(s, i, false);
        var t := SwitchEncoder(s, i, false);
        if t.thrown {
          assert GiveCodec(t, i, encoder) == t;
        } else {
          CodecKeeps(t, i, encoder);
        }
      } else if unit.enabled {
        CodecInStep(s, i, encoder);
      } else {
        CodecKeeps(s, i, encoder);
      }
    }
  }

  lemma PrepareKeeps(s: State, i: Id)
    requires Inv(s)
    ensures Kept(s, Prepare(s, i)) && Prepare(s, i).streams == s.streams
    ensures !s.setup.initialized ==> Prepare(s, i).thrown
  {
    var t := Check(s, !s.setup.initialized || i >= s.setup.encoders);
    assert Kept(s, t);
    OthersKeep(t, 2);
  }

  lemma ParamsKeep(s: State, i: Id, rate: nat)
    requires Inv(s) && (s.thrown || (s.setup.initialized && rate <= s.setup.sensorRate))
    ensures Kept(s, Sdk(s, SetParams(i, rate))) && Sdk(s, SetParams(i, rate)).streams == s.streams
  {
    if !Sdk(s, SetParams(i, rate)).thrown { LogGrows(s, SetParams(i, rate)); }
  }

  lemma SetParametersKeeps(s: State, stream: Stream)
    requires Inv(s) && (s.setup.initialized || s.thrown)
    requires s.thrown || s.streams[stream.id].codec != NoCodec
    ensures Kept(s, SetParameters(s, stream))
  {
    var t := Check(s, (stream.fps > s.setup.sensorRate && s.setup.serving) || !stream.validSize);
    ParamsKeep(t, stream.id, LimitedRate(s.setup, stream.fps));
    var u := Sdk(t, SetParams(stream.id, LimitedRate(s.setup, stream.fps)));
    if !u.thrown { SwitchKeeps(u, stream.id, stream.enable); }
  }

  // Parameters and switching concern one stream, and not its codec.
  lemma SetParametersTouches(s: State, stream: Stream)
    ensures forall j: Id :: j != stream.id ==> SetParameters(s, stream).streams[j] == s.streams[j]
    ensures SetParameters(s, stream).streams[stream.id].codec == s.streams[stream.id].codec
  {
  }

  lemma SetStreamKeeps(s: State, stream: Stream)
    requires Inv(s)
    ensures Inv(SetStream(s, stream)) && SetStream(s, stream).setup == s.setup
    ensures HasCodec(s.streams[stream.id]) ==> Kept(s, SetStream(s, stream))
    ensures forall j: Id :: j != stream.id ==> SetStream(s, stream).streams[j] == s.streams[j]
    ensures !SetStream(s, stream).thrown ==> SetStream(s, stream).streams[stream.id].codec == stream.encoder
    ensures s.thrown || !s.setup.initialized ==>
              SetStream(s, stream).thrown && SetStream(s, stream).streams == s.streams
  {
    PrepareKeeps(s, stream.id);
    var t := Prepare(s, stream.id);
    ChangeEncoderKeeps(t, stream.id, stream.encoder);
    SetParametersKeeps(ChangeEncoder(t, stream.id, stream.encoder), stream);
    SetParametersTouches(ChangeEncoder(t, stream.id, stream.encoder), stream);
  }

  lemma EnableStreamKeeps(s: State, i: Id, on: bool)
    requires Inv(s)
    ensures var t := EnableStream(s, i, on);
      && Inv(t) && t.setup == s.setup && (CodecsLegal(t.log) <==> CodecsLegal(s.log))
      && ((on ==> s.streams[i].codec != NoCodec) ==> Kept(s, t))
      && (forall j: Id :: t.streams[j].codec == s.streams[j].codec)
      && (forall j: Id :: j != i ==> t.streams[j] == s.streams[j])
      && (!t.thrown ==> t.streams[i].enabled == on)
      && (s.thrown || !s.setup.initialized ==> t.thrown && t.streams == s.streams)
  {
    var t := Check(s, !s.setup.initialized);
    assert Kept(s, t);
    SwitchInStep(t, i, on);
    if on ==> s.streams[i].codec != NoCodec { SwitchKeeps(t, i, on); }
  }

  /** enable_encoders switches on only streams with a codec. */
  ghost predicate Guarded(s: State, on: bool, enable: Switches) {
    forall i: Id :: on && enable[i] ==> s.streams[i].codec != NoCodec
  }

  lemma {:induction false} EnableEncodersKeeps(s: State, on: bool, enable: Switches, i: nat)
    requires Inv(s)
    ensures var t := EnableEncoders(s, on, enable, i);
      && Inv(t) && t.setup == s.setup && (CodecsLegal(t.log) <==> CodecsLegal(s.log))
      && (Guarded(s, on, enable) && Configured(s) ==> Configured(t))
      && (s.thrown ==> t.thrown)
      && (s.thrown || !s.setup.initialized ==> t.streams == s.streams)
      && (forall j: Id :: t.streams[j].codec == s.streams[j].codec)
      && (!t.thrown ==> forall j: Id :: t.streams[j].enabled == if j < i then s.streams[j].enabled else on && enable[j])
    decreases COUNT - i
  {
    if i < COUNT {
      EnableStreamKeeps(s, i, on && enable[i]);
      EnableEncodersKeeps(EnableStream(s, i, on && enable[i]), on, enable, i + 1);
    }
  }

  lemma InitKeeps(s: State, sensorRate: nat, calls: nat)
    requires Inv(s) && !s.setup.initialized && s.streams == Blank() && !s.thrown
    ensures var t := Init(s, sensorRate, calls);
      Inv(t) && t.streams == Blank() && (Configured(s) ==> Configured(t)) && (t.setup.initialized <==> !t.thrown)
      && t.setup.serving == s.setup.serving
  {
    var r := s.(setup := s.setup.(sensorRate := sensorRate));
    var t := Sdk(r, Connect(sensorRate));
    if !t.thrown {
      LogGrows(r, Connect(sensorRate));
      if !Sdk(t, CreateChannel).thrown { LogGrows(t, CreateChannel); }
    }
    var u := Sdk(t, CreateChannel);
    OthersKeep(if u.thrown then u else u.(streams := Blank()), calls);
  }

  lemma SetImageKeeps(s: State, sensorRate: nat, calls: nat, initCalls: nat)
    requires Sound(s) && !s.thrown
    ensures var t := SetImage(s, sensorRate, calls, initCalls);
      && Sound(t) && t.streams == s.streams && t.setup.serving == s.setup.serving
      && (!t.thrown ==> t.setup.initialized) && (Configured(s) ==> Configured(t))
  {
    var t := s;
    if !s.setup.initialized {
      InitKeeps(s, sensorRate, initCalls);
      t := Init(s, sensorRate, initCalls);
    }
    OthersKeep(t, calls);
  }

  lemma {:induction false} ResetStreamsKeep(s: State, streams: Streams, i: nat)
    requires Sound(s)
    ensures var t := ResetStreams(s, streams, i);
      && Sound(t) && t.setup == s.setup && (Configured(s) ==> Configured(t)) && (s.thrown ==> t.thrown)
      && (!t.thrown ==> forall j: Id :: t.streams[j].codec == if j < i then s.streams[j].codec else streams[j].encoder)
    decreases COUNT - i
  {
    if i < COUNT {
      var stream := Reduced(streams[i], s.setup.sensorRate);
      SetStreamKeeps(s, stream);
      ResetStreamsKeep(SetStream(s, stream), streams, i + 1);
    }
  }

  /** Holds between commands: also, nothing is remembered before the SDK is up. */
  ghost predicate Sound(s: State) {
    Inv(s) && (!s.setup.initialized ==> s.streams == Blank())
  }

  /** A reset that does not throw leaves every stream with the codec it asks for. */
  lemma ResetKeeps(s: State, sensorRate: nat, calls: nat, initCalls: nat, streams: Streams)
    requires Sound(s) && !s.thrown
    ensures var t := Reset(s, sensorRate, calls, initCalls, streams);
      && Sound(t) && t.setup.serving == s.setup.serving && (Configured(s) ==> Configured(t))
      && (!t.thrown ==> t.setup.initialized && forall j: Id :: t.streams[j].codec == streams[j].encoder)
  {
    var rate := if s.setup.initialized then s.setup.sensorRate else sensorRate;
    SetImageKeeps(s, rate, calls, initCalls);
    ResetStreamsKeep(SetImage(s, rate, calls, initCalls), streams, 0);
  }

  ghost predicate GuardedCommand(s: State, c: Command) {
    c.DoEnableEncoders? ==> Guarded(s, c.on, c.enable)
  }

  ghost predicate GuardedRun(s: State, requests: seq<Request>)
    decreases |requests|
  {
    requests == [] || (GuardedCommand(s, requests[0].command) && GuardedRun(Execute(s, requests[0]), requests[1..]))
  }

  // The commands on streams keep what holds between commands.
  lemma SetStreamIsSound(s: State, stream: Stream)
    requires Sound(s)
    ensures Sound(SetStream(s, stream)) && (Configured(s) ==> Configured(SetStream(s, stream)))
  {
    SetStreamKeeps(s, stream);
  }

  lemma EnableEncodersIsSound(s: State, on: bool, enable: Switches)
    requires Sound(s)
    ensures var t := EnableEncoders(s, on, enable, 0);
      Sound(t) && (Configured(s) && Guarded(s, on, enable) ==> Configured(t))
  {
    EnableEncodersKeeps(s, on, enable, 0);
  }

  lemma BeginIsSound(s: State, budget: nat)
    requires Sound(s)
    ensures Sound(Begin(s, budget)) && (Configured(s) ==> Configured(Begin(s, budget)))
  {
  }

  lemma ServingIsSound(s: State)
    requires Sound(s)
    ensures Sound(StartServing(s)) && (Configured(s) ==> Configured(StartServing(s)))
  {
  }

  lemma ApplyKeeps(s: State, c: Command)
    requires Sound(s) && !s.thrown
    ensures Sound(Apply(s, c))
    ensures Configured(s) && GuardedCommand(s, c) ==> Configured(Apply(s, c))
  {
    match c
    case DoSetImage(rate, calls, initCalls) => SetImageKeeps(s, rate, calls, initCalls);
    case DoSetStream(stream) => SetStreamIsSound(s, stream);
    case DoReset(rate, calls, initCalls, streams) => ResetKeeps(s, rate, calls, initCalls, streams);
    case DoEnableEncoders(on, enable) => EnableEncodersIsSound(s, on, enable);
    case Serve => ServingIsSound(s);
  }

  lemma ExecuteKeeps(s: State, r: Request)
    requires Sound(s)
    ensures Sound(Execute(s, r))
    ensures Configured(s) && GuardedCommand(s, r.command) ==> Configured(Execute(s, r))
  {
    BeginIsSound(s, r.budget);
    ApplyKeeps(Begin(s, r.budget), r.command);
    assert GuardedCommand(s, r.command) <==> GuardedCommand(Begin(s, r.budget), r.command);
  }

  // Nothing happens behind a throw.
  lemma {:induction false} OthersThrown(s: State, n: nat)
    requires s.thrown
    ensures Others(s, n) == s
    decreases n
  {
    if n > 0 { OthersThrown(s, n - 1); }
  }

  lemma SetStreamThrown(s: State, stream: Stream)
    requires s.thrown
    ensures SetStream(s, stream) == s
  {
    OthersThrown(s, 2);
    assert Prepare(s, stream.id) == s;
    assert ChangeEncoder(s, stream.id, stream.encoder) == s;
  }

  lemma {:induction false} EnableThrown(s: State, on: bool, enable: Switches, i: nat)
    requires s.thrown
    ensures EnableEncoders(s, on, enable, i) == s
    decreases COUNT - i
  {
    if i < COUNT { EnableThrown(s, on, enable, i + 1); }
  }

  // ------------------------------------------------- a codec, once given, stays

  /** is_stream_initialized */
  predicate Given(s: State, i: Id) { s.streams[i].codec != NoCodec }

  /** The SDK is up and every stream was given a codec. */
  ghost predicate Ready(s: State) {
    s.setup.initialized && forall i: Id :: Given(s, i)
  }

  lemma SetStreamKeepsGiven(s: State, stream: Stream, i: Id)
    requires Inv(s) && Given(s, i)
    ensures Given(SetStream(s, stream), i)
  {
    PrepareKeeps(s, stream.id);
    var t := Prepare(s, stream.id);
    ChangeEncoderKeeps(t, stream.id, stream.encoder);
    if !t.thrown { EncoderTurns(t, stream.id, stream.encoder); }
    SetParametersTouches(ChangeEncoder(t, stream.id, stream.encoder), stream);
  }

  lemma {:induction false} ResetStreamsKeepGiven(s: State, streams: Streams, k: nat, i: Id)
    requires Inv(s) && Given(s, i)
    ensures Given(ResetStreams(s, streams, k), i) && ResetStreams(s, streams, k).setup == s.setup
    decreases COUNT - k
  {
    if k < COUNT {
      var stream := Reduced(streams[k], s.setup.sensorRate);
      SetStreamKeeps(s, stream);
      SetStreamKeepsGiven(s, stream, i);
      ResetStreamsKeepGiven(SetStream(s, stream), streams, k + 1, i);
    }
  }

  lemma ResetKeepsGiven(s: State, c: Command, i: Id)
    requires Inv(s) && s.setup.initialized && c.DoReset? && Given(s, i)
    ensures Given(Apply(s, c), i) && Apply(s, c).setup.initialized
  {
    OthersKeep(s, c.calls);
    ResetStreamsKeepGiven(Others(s, c.calls), c.streams, 0, i);
  }

  /** No command takes a codec away again, whatever fails, and the SDK stays up. */
  lemma ApplyKeepsGiven(s: State, c: Command, i: Id)
    requires Inv(s) && s.setup.initialized && Given(s, i)
    ensures Given(Apply(s, c), i) && Apply(s, c).setup.initialized
  {
    match c
    case DoSetImage(_, calls, _) => OthersKeep(s, calls);
    case DoSetStream(stream) =>
      SetStreamKeeps(s, stream);
      SetStreamKeepsGiven(s, stream, i);
    case DoReset(_, _, _, _) => ResetKeepsGiven(s, c, i);
    case DoEnableEncoders(on, enable) => EnableEncodersKeeps(s, on, enable, 0);
    case Serve =>
  }

  lemma ExecuteKeepsGiven(s: State, r: Request, i: Id)
    requires Sound(s) && s.setup.initialized && Given(s, i)
    ensures Given(Execute(s, r), i) && Execute(s, r).setup.initialized
  {
    BeginIsSound(s, r.budget);
    ApplyKeepsGiven(Begin(s, r.budget), r.command, i);
  }

  lemma ExecuteKeepsReady(s: State, r: Request)
    requires Sound(s) && Ready(s)
    ensures Ready(Execute(s, r)) && (Configured(s) ==> Configured(Execute(s, r)))
  {
    ExecuteKeeps(s, r);
    GuardedIfReady(s, r.command);
    var first: Id := 0;
    assert Given(s, first);
    ExecuteKeepsGiven(s, r, first);
    forall i: Id ensures Given(Execute(s, r), i) {
      assert Given(s, i);
      ExecuteKeepsGiven(s, r, i);
    }
  }

  lemma GuardedIfReady(s: State, c: Command)
    requires Ready(s)
    ensures GuardedCommand(s, c)
  {
    forall i: Id ensures s.streams[i].codec != NoCodec { assert Given(s, i); }
  }

  // ---------------------------------------------------------------- main results

  /** Over every run of commands and every pattern of failing calls: what the manager
      remembers is what the firmware does, and no frame rate above the sensor rate is sent.
      Once every stream has a codec the codec of an enabled stream is never changed, whatever
      commands follow; before, if enable_encoders only switches on streams that have one. */
  lemma {:induction false} RunIsSafe(s: State, requests: seq<Request>)
    requires Sound(s)
    ensures Sound(Run(s, requests))
    ensures Configured(s) && GuardedRun(s, requests) ==> Configured(Run(s, requests))
    ensures Configured(s) && Ready(s) ==> Configured(Run(s, requests)) && Ready(Run(s, requests))
    decreases |requests|
  {
    if requests != [] {
      ExecuteKeeps(s, requests[0]);
      if Ready(s) { ExecuteKeepsReady(s, requests[0]); }
      RunIsSafe(Execute(s, requests[0]), requests[1..]);
    }
  }

  lemma {:induction false} RunConcat(s: State, a: seq<Request>, b: seq<Request>)
    ensures Run(s, a + b) == Run(Run(s, a), b)
    decreases |a|
  {
    if a == [] {
      assert a + b == b;
    } else {
      assert (a + b)[1..] == a[1..] + b;
      RunConcat(Execute(s, a[0]), a[1..], b);
    }
  }

  /** No command of the start switches encoders on. */
  predicate Quiet(start: seq<Request>) {
    forall k :: 0 <= k < |start| ==> start[k].command.DoEnableEncoders? ==> !start[k].command.on
  }

  lemma {:induction false} QuietIsGuarded(s: State, start: seq<Request>)
    requires Quiet(start)
    ensures GuardedRun(s, start)
    decreases |start|
  {
    if start != [] { QuietIsGuarded(Execute(s, start[0]), start[1..]); }
  }

  lemma ReadyStart(s: State, start: seq<Request>, later: seq<Request>)
    requires Sound(s) && Configured(s) && Quiet(start) && Ready(Run(s, start))
    ensures Configured(Run(Run(s, start), later))
  {
    QuietIsGuarded(s, start);
    RunIsSafe(s, start);
    RunIsSafe(Run(s, start), later);
  }

  /** From the moment the program starts: a start that switches nothing on, after which every
      stream has a codec, makes every run behind it keep the codec rule. */
  lemma SafeFromStart(s: State, start: seq<Request>, later: seq<Request>)
    requires Fresh(s)
    ensures var t := Run(s, start + later);
      && t.streams == Replay(t.log).units
      && RatesLegal(t.log)
      && (GuardedRun(s, start + later) ==> CodecsLegal(t.log))
      && (Quiet(start) && Ready(Run(s, start)) ==> CodecsLegal(t.log))
  {
    RunIsSafe(s, start + later);
    if Quiet(start) && Ready(Run(s, start)) {
      RunConcat(s, start, later);
      ReadyStart(s, start, later);
    }
  }

  // ------------------------------------------------------ where the rule breaks

  lemma PreparedBudget(s: State, i: Id)
    requires Inv(s) && !s.thrown
    ensures Prepare(s, i).thrown <==> !s.setup.initialized || i >= s.setup.encoders || s.budget < OsdCalls(s)
    ensures !Prepare(s, i).thrown ==> Prepare(s, i).budget == s.budget - OsdCalls(s)
  {
    var t := Check(s, !s.setup.initialized || i >= s.setup.encoders);
    assert Others(t, 2) == Others(Sdk(t, Other), 1) == Others(Sdk(Sdk(t, Other), Other), 0);
  }

  function OsdCalls(s: State): nat { if s.setup.fosd then 2 else 0 }

  /** set_stream changes the codec of an enabled stream exactly if the stream was enabled
      without ever having been given a codec, and the calls before the change succeed. */
  lemma BreaksRuleIff(s: State, stream: Stream)
    requires Inv(s) && CodecsLegal(s.log) && !s.thrown
    ensures !CodecsLegal(SetStream(s, stream).log) <==>
              && s.streams[stream.id].enabled && s.streams[stream.id].codec == NoCodec
              && s.setup.initialized && stream.id < s.setup.encoders && s.budget > OsdCalls(s)
  {
    PreparedBudget(s, stream.id);
    PrepareKeeps(s, stream.id);
    var t := Prepare(s, stream.id);
    ChangeEncoderKeeps(t, stream.id, stream.encoder);
    CodecInStep(t, stream.id, stream.encoder);
    SetParametersKeeps(ChangeEncoder(t, stream.id, stream.encoder), stream);
  }

  // ------------------------------------------------------ what one request does

  function OsdPlan(s: State): seq<Call> { if s.setup.fosd then [Other, Other] else [] }

  function Turned(unit: Unit, encoder: Encoder): bool {
    unit.codec != encoder && unit.codec != NoCodec && unit.enabled
  }

  /** The calls a change to `encoder` takes. */
  function EncoderPlan(unit: Unit, i: Id, encoder: Encoder): seq<Call> {
    (if Turned(unit, encoder) then [EnableEncoder(i, false)] else [])
    + (if unit.codec != encoder then [SetCodec(i, encoder)] else [])
  }

  predicate Acceptable(setup: Setup, stream: Stream) {
    stream.validSize && (stream.fps <= setup.sensorRate || !setup.serving)
  }

  /** The calls for the parameters of a stream that is on or off by then. */
  function ParamsPlan(setup: Setup, on: bool, stream: Stream): seq<Call> {
    if !Acceptable(setup, stream) then []
    else
      [SetParams(stream.id, LimitedRate(setup, stream.fps))]
      + (if setup.serving && on != stream.enable then [EnableEncoder(stream.id, stream.enable)] else [])
  }

  /** All calls of set_stream, in order, when nothing fails. */
  function Plan(s: State, stream: Stream): seq<Call> {
    var unit := s.streams[stream.id];
    if !s.setup.initialized || stream.id >= s.setup.encoders then []
    else
      OsdPlan(s) + EncoderPlan(unit, stream.id, stream.encoder)
      + ParamsPlan(s.setup, unit.enabled && !Turned(unit, stream.encoder), stream)
  }

  /** From s to t the calls were made in order, until one failed: t has thrown if one did or
      if the plan was not acceptable to begin with. */
  ghost predicate Carried(s: State, t: State, calls: seq<Call>, ok: bool) {
    && t.log == s.log + (if s.budget < |calls| then calls[..s.budget] else calls)
    && (!t.thrown <==> ok && |calls| <= s.budget)
    && (!t.thrown ==> t.budget == s.budget - |calls|)
  }

  lemma CarriedBoth(s: State, t: State, u: State, a: seq<Call>, b: seq<Call>, ok: bool)
    requires Carried(s, t, a, true) && (if t.thrown then u == t else Carried(t, u, b, ok))
    ensures Carried(s, u, a + b, ok)
  {
    if t.thrown {
      assert (a + b)[..s.budget] == a[..s.budget];
    } else if t.budget < |b| {
      assert (a + b)[..s.budget] == a + b[..t.budget];
    }
  }

  lemma OsdCarried(s: State, i: Id)
    requires !s.thrown && s.setup.initialized && i < s.setup.encoders
    ensures Carried(s, Prepare(s, i), OsdPlan(s), true)
  {
    if s.setup.fosd {
      var t := Sdk(s, Other);
      assert Prepare(s, i) == Others(s, 2) == Others(t, 1) == Others(Sdk(t, Other), 0);
    }
  }

  lemma EncoderCarried(s: State, i: Id, encoder: Encoder)
    requires !s.thrown
    ensures Carried(s, ChangeEncoder(s, i, encoder), EncoderPlan(s.streams[i], i, encoder), true)
  {
  }

  // A change switches an enabled stream off first, and that is all a failing one does.
  lemma EncoderTurns(s: State, i: Id, encoder: Encoder)
    requires !s.thrown
    ensures var t := ChangeEncoder(s, i, encoder);
      var off := Turned(s.streams[i], encoder);
      && (!t.thrown ==> t.streams == s.streams[i := Unit(s.streams[i].enabled && !off, encoder)])
      && (t.thrown && t.streams[i] != s.streams[i] ==> off && t.streams[i] == s.streams[i].(enabled := false))
  {
  }

  lemma ParamsCarried(s: State, stream: Stream)
    requires !s.thrown
    ensures var t := SetParameters(s, stream);
      && Carried(s, t, ParamsPlan(s.setup, s.streams[stream.id].enabled, stream), Acceptable(s.setup, stream))
      && (!t.thrown && s.setup.serving ==> t.streams[stream.id].enabled == stream.enable)
      && (!t.thrown && !s.setup.serving ==> t.streams == s.streams)
  {
  }

  // Up to the encoder parameters.
  lemma FirstCarried(s: State, stream: Stream)
    requires Inv(s) && !s.thrown && s.setup.initialized && stream.id < s.setup.encoders
    ensures var t, unit := ChangeEncoder(Prepare(s, stream.id), stream.id, stream.encoder), s.streams[stream.id];
      && Carried(s, t, OsdPlan(s) + EncoderPlan(unit, stream.id, stream.encoder), true)
      && t.setup == s.setup
      && (!t.thrown ==> t.streams[stream.id].enabled == (unit.enabled && !Turned(unit, stream.encoder)))
  {
    PrepareKeeps(s, stream.id);
    var t := Prepare(s, stream.id);
    ChangeEncoderKeeps(t, stream.id, stream.encoder);
    OsdCarried(s, stream.id);
    if !t.thrown {
      EncoderCarried(t, stream.id, stream.encoder);
      EncoderTurns(t, stream.id, stream.encoder);
    }
    CarriedBoth(s, t, ChangeEncoder(t, stream.id, stream.encoder), OsdPlan(s),
                EncoderPlan(s.streams[stream.id], stream.id, stream.encoder), true);
  }

  // Nothing is called when the SDK is down or the board has no such encoder.
  lemma NothingCarried(s: State, stream: Stream)
    requires !s.thrown && (!s.setup.initialized || stream.id >= s.setup.encoders)
    ensures SetStream(s, stream) == s.(thrown := true)
  {
    var t := s.(thrown := true);
    assert Others(t, 2) == Others(t, 1) == Others(t, 0) == t;
    assert Prepare(s, stream.id) == t && ChangeEncoder(t, stream.id, stream.encoder) == t;
  }

  /** What set_stream tells the firmware: exactly the calls of its plan, in order, up to the
      first that fails; and it succeeds exactly if the SDK is up, the board has the encoder,
      the frame size is valid, the rate is not above the sensor's (while the server starts it
      is reduced instead), and all calls of the plan succeed. */
  lemma SetStreamCalls(s: State, stream: Stream)
    requires Inv(s) && !s.thrown
    ensures Carried(s, SetStream(s, stream), Plan(s, stream),
                    s.setup.initialized && stream.id < s.setup.encoders && stream.validSize
                    && (stream.fps <= s.setup.sensorRate || !s.setup.serving))
  {
    if s.setup.initialized && stream.id < s.setup.encoders {
      var unit, u := s.streams[stream.id], ChangeEncoder(Prepare(s, stream.id), stream.id, stream.encoder);
      FirstCarried(s, stream);
      if !u.thrown { ParamsCarried(u, stream); }
      CarriedBoth(s, u, SetParameters(u, stream), OsdPlan(s) + EncoderPlan(unit, stream.id, stream.encoder),
                  ParamsPlan(s.setup, unit.enabled && !Turned(unit, stream.encoder), stream),
                  Acceptable(s.setup, stream));
    } else {
      NothingCarried(s, stream);
    }
  }

  /** After a set_stream that did not throw the firmware encodes what was asked for, and only
      a server in service has switched it. */
  lemma SetStreamDoes(s: State, stream: Stream)
    requires Inv(s) && !s.thrown && !SetStream(s, stream).thrown
    ensures var unit := Replay(SetStream(s, stream).log).units[stream.id];
      && unit.codec == stream.encoder
      && unit.enabled == if s.setup.serving then stream.enable
                         else s.streams[stream.id].enabled && !Turned(s.streams[stream.id], stream.encoder)
    ensures forall j: Id :: j != stream.id ==>
              Replay(SetStream(s, stream).log).units[j] == Replay(s.log).units[j]
  {
    PrepareKeeps(s, stream.id);
    var t := Prepare(s, stream.id);
    SetStreamKeeps(s, stream);
    ChangeEncoderKeeps(t, stream.id, stream.encoder);
    EncoderTurns(t, stream.id, stream.encoder);
    ParamsCarried(ChangeEncoder(t, stream.id, stream.encoder), stream);
  }

  /** A set_stream that throws never switches its stream on; a codec change under way may
      have left it switched off. */
  lemma ThrowNeverEnables(s: State, stream: Stream)
    requires Inv(s) && !s.thrown && SetStream(s, stream).thrown
    ensures var unit := SetStream(s, stream).streams[stream.id];
      && (unit.enabled ==> s.streams[stream.id].enabled)
      && (unit.enabled != s.streams[stream.id].enabled ==> s.streams[stream.id].codec != stream.encoder)
      && (unit.codec != s.streams[stream.id].codec ==> unit.codec == stream.encoder)
  {
    PrepareKeeps(s, stream.id);
    var t := Prepare(s, stream.id);
    ChangeEncoderKeeps(t, stream.id, stream.encoder);
    if !t.thrown { EncoderTurns(t, stream.id, stream.encoder); }
  }
}

/** What requests make of the firmware: frame rates, codecs and switches of all streams, and the
    calls that bring the SDK up. */
module EncoderRates {
  import opened EncoderControl

  /** The smaller one. */
  function Lower(a: nat, b: nat): (m: nat)
    ensures m <= a && m <= b && (m == a || m == b)
  {
    if a <= b then a else b
  }

  function RateIn(s: State, i: Id): nat { Replay(s.log).rates[i] }

  // ---------------------------------------------------------------- set_stream

  lemma SwitchKeepsRates(s: State, i: Id, on: bool)
    ensures Replay(SwitchEncoder(s, i, on).log).rates == Replay(s.log).rates
  {
    if !Sdk(s, EnableEncoder(i, on)).thrown { LogGrows(s, EnableEncoder(i, on)); }
  }

  lemma CodecKeepsRates(s: State, i: Id, encoder: Encoder)
    ensures Replay(GiveCodec(s, i, encoder).log).rates == Replay(s.log).rates
  {
    if !Sdk(s, SetCodec(i, encoder)).thrown { LogGrows(s, SetCodec(i, encoder)); }
  }

  lemma ChangeKeepsRates(s: State, i: Id, encoder: Encoder)
    ensures Replay(ChangeEncoder(s, i, encoder).log).rates == Replay(s.log).rates
  {
    SwitchKeepsRates(s, i, false);
    CodecKeepsRates(s, i, encoder);
    CodecKeepsRates(SwitchEncoder(s, i, false), i, encoder);
  }

  lemma {:induction false} OthersKeepFirmware(s: State, n: nat)
    ensures Replay(Others(s, n).log) == Replay(s.log)
    decreases n
  {
    if n > 0 {
      if !Sdk(s, Other).thrown { LogGrows(s, Other); }
      OthersKeepFirmware(Sdk(s, Other), n - 1);
    }
  }

  lemma PrepareKeepsRates(s: State, i: Id)
    ensures Replay(Prepare(s, i).log) == Replay(s.log)
  {
    OthersKeepFirmware(Check(s, !s.setup.initialized || i >= s.setup.encoders), 2);
  }

  lemma ParamsSetRate(s: State, i: Id, rate: nat)
    ensures var t := Sdk(s, SetParams(i, rate));
      Replay(t.log).rates == if t.thrown then Replay(s.log).rates else Replay(s.log).rates[i := rate]
  {
    if !Sdk(s, SetParams(i, rate)).thrown { LogGrows(s, SetParams(i, rate)); }
  }

  // The parameters carry the rate, and only that of their stream.
  lemma ParametersSetRate(s: State, stream: Stream)
    ensures var t, rates := SetParameters(s, stream), Replay(s.log).rates;
      var limited := rates[stream.id := Lower(stream.fps, s.setup.sensorRate)];
      && (!t.thrown ==> Replay(t.log).rates == limited)
      && (t.thrown ==> Replay(t.log).rates == rates || Replay(t.log).rates == limited)
  {
    var t := Check(s, (stream.fps > s.setup.sensorRate && s.setup.serving) || !stream.validSize);
    var u := Sdk(t, SetParams(stream.id, LimitedRate(s.setup, stream.fps)));
    ParamsSetRate(t, stream.id, LimitedRate(s.setup, stream.fps));
    SwitchKeepsRates(u, stream.id, stream.enable);
  }

  /** The frame rate a set_stream leaves in the firmware: the one asked for, or the sensor rate if
      that is lower. Other streams keep theirs. One that throws leaves the old rate, or the new
      one if only the switching failed. */
  lemma SetStreamSetsRate(s: State, stream: Stream)
    requires Inv(s) && !s.thrown
    ensures var t := SetStream(s, stream);
      && (forall j: Id :: j != stream.id ==> RateIn(t, j) == RateIn(s, j))
      && (!t.thrown ==> RateIn(t, stream.id) == Lower(stream.fps, s.setup.sensorRate))
      && (t.thrown ==> RateIn(t, stream.id) == RateIn(s, stream.id)
                       || RateIn(t, stream.id) == Lower(stream.fps, s.setup.sensorRate))
  {
    var t := Prepare(s, stream.id);
    var u := ChangeEncoder(t, stream.id, stream.encoder);
    PrepareKeeps(s, stream.id);
    PrepareKeepsRates(s, stream.id);
    ChangeEncoderKeeps(t, stream.id, stream.encoder);
    ChangeKeepsRates(t, stream.id, stream.encoder);
    ParametersSetRate(u, stream);
  }

  // --------------------------------------------------------------------- reset

  /** Stream i of the firmware is as its setting asks, at a rate the sensor can deliver. */
  predicate AsAsked(s: State, stream: Stream, i: Id) {
    && Replay(s.log).units[i].codec == stream.encoder
    && RateIn(s, i) == Lower(stream.fps, s.setup.sensorRate)
    && (s.setup.serving ==> Replay(s.log).units[i].enabled == stream.enable)
  }

  /** ... and so are the first `i` streams. */
  ghost predicate FirstAsAsked(s: State, streams: Streams, i: nat) {
    forall j: Id :: j < i ==> AsAsked(s, streams[j], j)
  }

  lemma SetStreamAsAsked(s: State, stream: Stream)
    requires Inv(s) && !SetStream(s, stream).thrown
    ensures AsAsked(SetStream(s, stream), stream, stream.id)
  {
    SetStreamKeeps(s, stream);
    SetStreamDoes(s, stream);
    SetStreamSetsRate(s, stream);
  }

  lemma SetStreamLeaves(s: State, stream: Stream, other: Stream, j: Id)
    requires Inv(s) && !SetStream(s, stream).thrown && j != stream.id && AsAsked(s, other, j)
    ensures AsAsked(SetStream(s, stream), other, j)
  {
    SetStreamKeeps(s, stream);
    SetStreamDoes(s, stream);
    SetStreamSetsRate(s, stream);
  }

  // One turn of the loop of reset.
  lemma OneMoreAsAsked(s: State, streams: Streams, i: Id)
    requires Inv(s) && FirstAsAsked(s, streams, i)
    requires !SetStream(s, Reduced(streams[i], s.setup.sensorRate)).thrown
    ensures FirstAsAsked(SetStream(s, Reduced(streams[i], s.setup.sensorRate)), streams, i + 1)
  {
    var stream := Reduced(streams[i], s.setup.sensorRate);
    SetStreamKeeps(s, stream);
    SetStreamAsAsked(s, stream);
    forall j: Id | j < i ensures AsAsked(SetStream(s, stream), streams[j], j) {
      SetStreamLeaves(s, stream, streams[j], j);
    }
  }

  lemma ResetStep(s: State, streams: Streams, i: Id) returns (t: State)
    requires Sound(s) && !ResetStreams(s, streams, i).thrown && FirstAsAsked(s, streams, i)
    ensures ResetStreams(s, streams, i) == ResetStreams(t, streams, i + 1)
    ensures Sound(t) && t.setup == s.setup && FirstAsAsked(t, streams, i + 1)
  {
    var stream := Reduced(streams[i], s.setup.sensorRate);
    t := SetStream(s, stream);
    SetStreamIsSound(s, stream);
    SetStreamKeeps(s, stream);
    ResetStreamsKeep(t, streams, i + 1);
    OneMoreAsAsked(s, streams, i);
  }

  lemma {:induction false} ResetStreamsDo(s: State, streams: Streams, i: nat)
    requires Sound(s) && !ResetStreams(s, streams, i).thrown && i <= COUNT && FirstAsAsked(s, streams, i)
    ensures var t := ResetStreams(s, streams, i); t.setup == s.setup && FirstAsAsked(t, streams, COUNT)
    decreases COUNT - i
  {
    if i < COUNT {
      var t := ResetStep(s, streams, i);
      ResetStreamsDo(t, streams, i + 1);
    }
  }

  /** After a reset that does not throw every stream has the codec and the frame rate of its
      setting, the rate reduced to the sensor's, and is on in service exactly if its setting says
      so. The sensor rate is that of the image if the SDK was not up before. */
  lemma ResetDoes(s: State, sensorRate: nat, calls: nat, initCalls: nat, streams: Streams)
    requires Sound(s) && !s.thrown && !Reset(s, sensorRate, calls, initCalls, streams).thrown
    ensures var t := Reset(s, sensorRate, calls, initCalls, streams);
      && t.setup == (if s.setup.initialized then s.setup else s.setup.(initialized := true, sensorRate := sensorRate))
      && Replay(t.log).sensorRate == t.setup.sensorRate
      && forall j: Id :: AsAsked(t, streams[j], j)
  {
    var rate := if s.setup.initialized then s.setup.sensorRate else sensorRate;
    var t := SetImage(s, rate, calls, initCalls);
    SetImageKeeps(s, rate, calls, initCalls);
    ResetStreamsKeep(t, streams, 0);
    SetImageSetup(s, rate, calls, initCalls);
    ResetStreamsDo(t, streams, 0);
  }

  // -------------------------------------------------------- image, enabling

  function OtherPlan(n: nat): seq<Call> { if n == 0 then [] else [Other] + OtherPlan(n - 1) }

  lemma {:induction false} OthersCarried(s: State, n: nat)
    requires !s.thrown
    ensures Carried(s, Others(s, n), OtherPlan(n), true) && Others(s, n).setup == s.setup
    decreases n
  {
    if n > 0 {
      var t := Sdk(s, Other);
      if t.thrown {
        OthersThrown(t, n - 1);
      } else {
        OthersCarried(t, n - 1);
      }
      CarriedBoth(s, t, Others(t, n - 1), [Other], OtherPlan(n - 1), true);
    }
  }

  /** The calls of an image command: bringing the SDK up, once, and then those of the image. */
  function ImagePlan(setup: Setup, sensorRate: nat, calls: nat, initCalls: nat): seq<Call> {
    (if setup.initialized then [] else [Connect(sensorRate), CreateChannel] + OtherPlan(initCalls)) + OtherPlan(calls)
  }

  lemma InitCarried(s: State, sensorRate: nat, calls: nat)
    requires !s.thrown
    ensures var t := Init(s, sensorRate, calls);
      && Carried(s, t, [Connect(sensorRate), CreateChannel] + OtherPlan(calls), true)
      && (!t.thrown ==> t.setup == s.setup.(initialized := true, sensorRate := sensorRate))
  {
    var r := s.(setup := s.setup.(sensorRate := sensorRate));
    var t := Sdk(Sdk(r, Connect(sensorRate)), CreateChannel);
    var u := if t.thrown then t else t.(streams := Blank());
    assert Carried(s, u, [Connect(sensorRate), CreateChannel], true);
    if u.thrown { OthersThrown(u, calls); } else { OthersCarried(u, calls); }
    CarriedBoth(s, u, Others(u, calls), [Connect(sensorRate), CreateChannel], OtherPlan(calls), true);
  }

  /** What an image command tells the firmware: exactly these calls, up to the first that fails. */
  lemma SetImageCalls(s: State, sensorRate: nat, calls: nat, initCalls: nat)
    requires !s.thrown
    ensures Carried(s, SetImage(s, sensorRate, calls, initCalls),
                    ImagePlan(s.setup, sensorRate, calls, initCalls), true)
  {
    if s.setup.initialized {
      OthersCarried(s, calls);
      assert [] + OtherPlan(calls) == OtherPlan(calls);
    } else {
      var t := Init(s, sensorRate, initCalls);
      InitCarried(s, sensorRate, initCalls);
      if t.thrown { OthersThrown(t, calls); } else { OthersCarried(t, calls); }
      CarriedBoth(s, t, Others(t, calls), [Connect(sensorRate), CreateChannel] + OtherPlan(initCalls),
                  OtherPlan(calls), true);
    }
  }

  lemma SetImageSetup(s: State, sensorRate: nat, calls: nat, initCalls: nat)
    requires !s.thrown && !SetImage(s, sensorRate, calls, initCalls).thrown
    ensures SetImage(s, sensorRate, calls, initCalls).setup ==
            if s.setup.initialized then s.setup else s.setup.(initialized := true, sensorRate := sensorRate)
  {
    var t := if s.setup.initialized then s else Init(s, sensorRate, initCalls);
    InitCarried(s, sensorRate, initCalls);
    if t.thrown { OthersThrown(t, calls); } else { OthersCarried(t, calls); }
  }

  /** The calls of enable_encoders from stream i on. */
  function EnablePlan(on: bool, enable: Switches, i: nat): seq<Call>
    decreases COUNT - i
  {
    if i >= COUNT then [] else [EnableEncoder(i, on && enable[i])] + EnablePlan(on, enable, i + 1)
  }

  lemma EnableStreamCarried(s: State, i: Id, on: bool)
    requires !s.thrown && s.setup.initialized
    ensures Carried(s, EnableStream(s, i, on), [EnableEncoder(i, on)], true)
    ensures EnableStream(s, i, on).setup == s.setup
  {
  }

  /** What enable_encoders tells the firmware: one call for every stream, up to the first that
      fails. */
  lemma {:induction false} EnableEncodersCalls(s: State, on: bool, enable: Switches, i: nat)
    requires !s.thrown && s.setup.initialized
    ensures Carried(s, EnableEncoders(s, on, enable, i), EnablePlan(on, enable, i), true)
    decreases COUNT - i
  {
    if i < COUNT {
      var t := EnableStream(s, i, on && enable[i]);
      EnableStreamCarried(s, i, on && enable[i]);
      if t.thrown {
        EnableThrown(t, on, enable, i + 1);
      } else {
        EnableEncodersCalls(t, on, enable, i + 1);
      }
      CarriedBoth(s, t, EnableEncoders(t, on, enable, i + 1), [EnableEncoder(i, on && enable[i])],
                  EnablePlan(on, enable, i + 1), true);
    }
  }

  // --------------------------------------------------------------- the two rules

  /** The codec rule over a whole log: every codec was set while its stream was off. */
  lemma {:induction false} CodecsLegalIff(log: seq<Call>)
    ensures CodecsLegal(log) <==>
              forall k :: 0 <= k < |log| && log[k].SetCodec? ==> !Replay(log[..k]).units[log[k].stream].enabled
  {
    if log != [] {
      var init := log[..|log| - 1];
      CodecsLegalIff(init);
      assert forall k :: 0 <= k < |init| ==> init[k] == log[k] && init[..k] == log[..k];
    }
  }

  /** The rate rule: no frame rate sent was above the sensor's. */
  lemma {:induction false} RatesLegalIff(log: seq<Call>)
    ensures RatesLegal(log) <==>
              forall k :: 0 <= k < |log| && log[k].SetParams? ==> log[k].frameRate <= Replay(log[..k]).sensorRate
  {
    if log != [] {
      var init := log[..|log| - 1];
      RatesLegalIff(init);
      assert forall k :: 0 <= k < |init| ==> init[k] == log[k] && init[..k] == log[..k];
    }
  }
}

/** SDKManager itself: the fields it updates around SDK calls that may throw. Every method is
    the command of the same name in EncoderControl. */
module SdkManagement {
  import Control = EncoderControl
  import opened EncoderControl

  lemma {:induction false} ResetThrown(s: State, streams: Streams, i: nat)
    requires s.thrown
    ensures ResetStreams(s, streams, i) == s
    decreases COUNT - i
  {
    if i < COUNT {
      SetStreamThrown(s, Reduced(streams[i], s.setup.sensorRate));
      ResetThrown(s, streams, i + 1);
    }
  }

  /** The rate set_stream leaves in the stream's parameters. */
  function RateAfter(s: State, stream: Stream): nat {
    if ChangeEncoder(Prepare(s, stream.id), stream.id, stream.encoder).thrown then stream.fps
    else LimitedRate(s.setup, stream.fps)
  }

  class SdkManager {
    const streamInfo: array<Unit>
    const fosd: bool
    const encoders: nat
    var initialized: bool
    var serving: bool          // Server::initialized() of the server the manager works for
    var sensorRate: nat
    var budget: nat
    ghost var log: seq<Call>

    ghost predicate Valid() { streamInfo.Length == COUNT }

    constructor (fosd: bool, encoders: nat)
      ensures Valid() && fresh(streamInfo) && Fresh(Value(false))
      ensures Value(false).setup.fosd == fosd && Value(false).setup.encoders == encoders
    {
      streamInfo := new Unit[COUNT](_ => Unit(false, NoCodec));
      this.fosd, this.encoders := fosd, encoders;
      initialized, serving, sensorRate, budget, log := false, false, 0, 0, [];
      new;
      assert streamInfo[..] == Blank();
    }

    ghost function Value(thrown: bool): State
      requires Valid()
      reads this, streamInfo
    {
      State(Setup(initialized, serving, sensorRate, fosd, encoders), streamInfo[..], log, budget, thrown)
    }

    /** SDK_CALL */
    method SdkCall(c: Call) returns (thrown: bool)
      requires Valid()
      modifies `budget, `log
      ensures Value(thrown) == Sdk(old(Value(false)), c)
    {
      if budget == 0 { return true; }
      budget := budget - 1;
      log := log + [c];
      return false;
    }

    method OtherCalls(n: nat) returns (thrown: bool)
      requires Valid()
      modifies `budget, `log
      ensures Value(thrown) == Others(old(Value(false)), n)
    {
      for i := 0 to n
        invariant Others(Value(false), n - i) == Others(old(Value(false)), n)
      {
        thrown := SdkCall(Other);
        if thrown {
          OthersThrown(Value(true), n - i - 1);
          return;
        }
      }
      return false;
    }

    method ChangeEncoderIfNeeded(i: Id, encoder: Encoder) returns (thrown: bool)
      requires Valid()
      modifies `budget, `log, streamInfo
      ensures Value(thrown) == ChangeEncoder(old(Value(false)), i, encoder)
    {
      if streamInfo[i].codec == NoCodec || encoder != streamInfo[i].codec {
        if streamInfo[i].codec != NoCodec && streamInfo[i].enabled {
          thrown := SdkCall(EnableEncoder(i, false));
          if thrown { return; }
          streamInfo[i] := streamInfo[i].(enabled := false);
        }
        thrown := SdkCall(SetCodec(i, encoder));
        if thrown { return; }
        streamInfo[i] := streamInfo[i].(codec := encoder);
      }
      return false;
    }

    /** `fps` is the rate of the stream's parameters afterwards: the one used, once the codec
        is in place, even if something throws behind that. */
    method SetStream(stream: Stream) returns (thrown: bool, fps: nat)
      requires Valid()
      modifies `budget, `log, streamInfo
      ensures Value(thrown) == Control.SetStream(old(Value(false)), stream)
      ensures fps == RateAfter(old(Value(false)), stream)
      ensures !thrown ==> fps == if stream.fps <= sensorRate then stream.fps else sensorRate
      ensures fps != stream.fps ==> !serving && fps == sensorRate < stream.fps
    {
      fps := stream.fps;
      ghost var s := Value(false);
      if !initialized || stream.id >= encoders {
        SetStreamThrown(Value(true), stream);
        return true, fps;
      }
      if fosd {
        thrown := OtherCalls(2);
        if thrown { return; }
      }
      thrown := ChangeEncoderIfNeeded(stream.id, stream.encoder);
      if thrown { return; }
      if stream.fps > sensorRate {
        if serving { return true, fps; }
        fps := sensorRate;
      }
      if !stream.validSize { return true, fps; }
      thrown := SdkCall(SetParams(stream.id, fps));
      if thrown { return; }
      if serving {
        if streamInfo[stream.id].enabled != stream.enable {
          thrown := SdkCall(EnableEncoder(stream.id, stream.enable));
          if thrown { return; }
        }
        streamInfo[stream.id] := streamInfo[stream.id].(enabled := stream.enable);
      }
      return false, fps;
    }

    method EnableStream(id: nat, on: bool) returns (thrown: bool)
      requires Valid()
      modifies `budget, `log, streamInfo
      ensures Value(thrown) == Control.EnableStream(old(Value(false)), id, on)
    {
      if !initialized || id >= COUNT { return true; }
      thrown := SdkCall(EnableEncoder(id, on));
      if thrown { return; }
      streamInfo[id] := streamInfo[id].(enabled := on);
    }

    /** Server::enable_encoders, over the streams' own settings. */
    method EnableEncoders(on: bool, enable: Switches) returns (thrown: bool)
      requires Valid()
      modifies `budget, `log, streamInfo
      ensures Value(thrown) == Control.EnableEncoders(old(Value(false)), on, enable, 0)
    {
      for i := 0 to COUNT
        invariant Control.EnableEncoders(Value(false), on, enable, i)
               == Control.EnableEncoders(old(Value(false)), on, enable, 0)
      {
        thrown := EnableStream(i, on && enable[i]);
        if thrown {
          EnableThrown(Value(true), on, enable, i + 1);
          return;
        }
      }
      return false;
    }

    /** init: brings the SDK up and forgets every stream. */
    method Init(calls: nat) returns (thrown: bool)
      requires Valid()
      modifies this, streamInfo
      ensures Value(thrown) == Control.Init(old(Value(false)), old(sensorRate), calls)
    {
      thrown := SdkCall(Connect(sensorRate));
      if thrown {
        OthersThrown(Value(true), calls);
        return;
      }
      thrown := SdkCall(CreateChannel);
      if thrown {
        OthersThrown(Value(true), calls);
        return;
      }
      forall i | 0 <= i < COUNT { streamInfo[i] := Unit(false, NoCodec); }
      assert streamInfo[..] == Blank();
      thrown := OtherCalls(calls);
      if thrown { return; }
      initialized := true;
    }

    method SetImage(imageRate: nat, calls: nat, initCalls: nat) returns (thrown: bool)
      requires Valid()
      modifies this, streamInfo
      ensures Value(thrown) == Control.SetImage(old(Value(false)), imageRate, calls, initCalls)
    {
      if !initialized {
        sensorRate := imageRate;
        thrown := Init(initCalls);
        if thrown {
          OthersThrown(Value(true), calls);
          return;
        }
      }
      thrown := OtherCalls(calls);
    }

    method Reset(imageRate: nat, calls: nat, initCalls: nat, streams: Streams) returns (thrown: bool)
      requires Valid()
      modifies this, streamInfo
      ensures Value(thrown) == Control.Reset(old(Value(false)), imageRate, calls, initCalls, streams)
    {
      thrown := SetImage(if initialized then sensorRate else imageRate, calls, initCalls);
      if thrown {
        ResetThrown(Value(true), streams, 0);
        return;
      }
      thrown := ResetAll(streams);
    }

    /** The loop of reset. */
    method ResetAll(streams: Streams) returns (thrown: bool)
      requires Valid()
      modifies `budget, `log, streamInfo
      ensures Value(thrown) == ResetStreams(old(Value(false)), streams, 0)
    {
      for i := 0 to COUNT
        invariant ResetStreams(Value(false), streams, i) == ResetStreams(old(Value(false)), streams, 0)
      {
        var stream := streams[i];
        if stream.fps > sensorRate { stream := stream.(fps := sensorRate); }
        assert stream == Reduced(streams[i], Value(false).setup.sensorRate);
        var fps;
        thrown, fps := SetStream(stream);
        if thrown {
          ResetThrown(Value(true), streams, i + 1);
          return;
        }
      }
      return false;
    }
  }
}

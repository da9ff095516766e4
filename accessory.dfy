/**
 * The accessory object itself (src/DacpAccessory.js:12-167): its fields and
 * its event handlers, each of which changes the fields in place. Every handler
 * is proved to take the object's state exactly where `Session.Next` says the
 * event takes it, so the properties proved of `Session` hold of the object.
 */
module Accessory {
  import opened Wrappers
  import opened Endpoints
  import opened Updates
  import opened Services
  import RetryPolicy
  import Session

  class DacpAccessory {
    /** `this.pairing`, the configured pairing code. */
    const pairing: string
    /** `this.features`. */
    const features: Features
    /** `this._services`, built once by the constructor. */
    const services: seq<ServiceKind>
    /** Whether `this._speakerService` was created. */
    const hasSpeaker: bool

    /** `this._remoteHost` and `this._remotePort`; unset before the first discovery event. */
    var remote: Option<Endpoint>
    /** `this._dacpErrors`, counted from zero. */
    var dacpErrors: nat
    /** The outstanding client requests, one per running promise chain, in issue order. */
    var inFlight: seq<Session.Request>
    /** The pending reconnect timers (their delays), in the order they were scheduled. */
    var timers: seq<nat>
    /** Every call made on the client and the projectors, and every timer scheduled. */
    var effects: seq<Session.Effect>

    function Snapshot(): Session.State
      reads this
    {
      Session.State(pairing, hasSpeaker, remote, dacpErrors, inFlight, timers, effects)
    }

    constructor (pairing: string, configFeatures: Option<Features>)
      ensures features == EffectiveFeatures(configFeatures)
      ensures services == CreateServices(features)
      ensures hasSpeaker <==> !VolumeControlOff(features)
      ensures Snapshot() == Session.Initial(pairing, hasSpeaker)
    {
      this.pairing := pairing;
      var f := EffectiveFeatures(configFeatures);
      features := f;
      services := CreateServices(f);
      hasSpeaker := !VolumeControlOff(f);
      remote := None;
      dacpErrors := 0;
      inFlight := [];
      timers := [];
      effects := [];
    }

    // ---- Steps shared by the handlers ------------------------------------

    /** `_connectToDacpDevice`: log in against the endpoint known now. */
    method ConnectToDacpDevice()
      modifies this`inFlight, this`effects
      ensures inFlight == old(inFlight) + [Session.LoginRequest]
      ensures effects == old(effects) + [Session.Login(remote, pairing)]
    {
      inFlight := inFlight + [Session.LoginRequest];
      effects := effects + [Session.Login(remote, pairing)];
    }

    /** `_startRetrievingUpdates`: issue one `getUpdate`. */
    method StartRetrievingUpdates()
      modifies this`inFlight, this`effects
      ensures inFlight == old(inFlight) + [Session.UpdateRequest]
      ensures effects == old(effects) + [Session.GetUpdate]
    {
      inFlight := inFlight + [Session.UpdateRequest];
      effects := effects + [Session.GetUpdate];
    }

    /** `_updateNowPlaying`: hand the now-playing slice of `cmst` to its projector. */
    method UpdateNowPlaying(st: Status)
      modifies this`effects
      ensures effects == old(effects) + [Session.UpdateNowPlaying(NowPlayingOf(st))]
    {
      var state := NowPlayingOf(st);
      effects := effects + [Session.UpdateNowPlaying(state)];
    }

    /** `_updatePlayerControlService`: hand the play status of `cmst` to its projector. */
    method UpdatePlayerControlService(st: Status)
      modifies this`effects
      ensures effects == old(effects) + [Session.UpdatePlayerState(PlayerStateOf(st))]
    {
      var state := PlayerStateOf(st);
      effects := effects + [Session.UpdatePlayerState(state)];
    }

    method Retire(i: nat)
      requires i < |inFlight|
      modifies this`inFlight
      ensures inFlight == old(inFlight[..i] + inFlight[i + 1..])
    {
      inFlight := inFlight[..i] + inFlight[i + 1..];
    }

    /** The catch of the connect chain: log out and connect again at once. */
    method ConnectionFailed(i: nat)
      requires i < |inFlight|
      modifies this`inFlight, this`effects
      ensures inFlight == old(inFlight[..i] + inFlight[i + 1..]) + [Session.LoginRequest]
      ensures effects == old(effects) + [Session.Logout, Session.Login(remote, pairing)]
    {
      Retire(i);
      effects := effects + [Session.Logout];
      ConnectToDacpDevice();
    }

    // ---- Events ------------------------------------------------------------

    /** `serviceUp`: record the discovered endpoint and connect. */
    method ServiceUp(host: string, port: nat)
      modifies this
      ensures Snapshot() == Session.Next(old(Snapshot()), Session.ServiceUp(host, port))
    {
      remote := Some(Endpoint(host, port));
      ConnectToDacpDevice();
    }

    /** `serviceDown`: log out; nothing else changes. */
    method ServiceDown()
      modifies this
      ensures Snapshot() == Session.Next(old(Snapshot()), Session.ServiceDown)
      ensures effects == old(effects) + [Session.Logout]
      ensures remote == old(remote) && dacpErrors == old(dacpErrors)
      ensures inFlight == old(inFlight) && timers == old(timers)
    {
      effects := effects + [Session.Logout];
    }

    /** The login of chain `i` succeeded: ask for the server info. */
    method LoginSucceeded(i: nat)
      requires Session.Outstanding(Snapshot(), i, Session.LoginRequest)
      modifies this
      ensures Snapshot() == Session.Next(old(Snapshot()), Session.LoginOk(i))
    {
      Retire(i);
      inFlight := inFlight + [Session.ServerInfoRequest];
      effects := effects + [Session.GetServerInfo];
    }

    method LoginFailed(i: nat)
      requires Session.Outstanding(Snapshot(), i, Session.LoginRequest)
      modifies this
      ensures Snapshot() == Session.Next(old(Snapshot()), Session.LoginFail(i))
    {
      ConnectionFailed(i);
    }

    /**
     * The server info of chain `i` arrived: logging its `msrv.minm` throws when
     * `msrv` is missing, which reaches the catch; otherwise polling starts.
     */
    method ServerInfoReceived(i: nat, info: Session.ServerInfo)
      requires Session.Outstanding(Snapshot(), i, Session.ServerInfoRequest)
      modifies this
      ensures Snapshot() == Session.Next(old(Snapshot()), Session.ServerInfoOk(i, info))
    {
      if info.msrv.Some? {
        Retire(i);
        StartRetrievingUpdates();
      } else {
        ConnectionFailed(i);
      }
    }

    method ServerInfoFailed(i: nat)
      requires Session.Outstanding(Snapshot(), i, Session.ServerInfoRequest)
      modifies this
      ensures Snapshot() == Session.Next(old(Snapshot()), Session.ServerInfoFail(i))
    {
      ConnectionFailed(i);
    }

    /**
     * The `getUpdate` of chain `i` resolved: forward the slices when the
     * response has a status record, tick the speaker, then poll again.
     */
    method UpdateReceived(i: nat, response: UpdateResponse)
      requires Session.Outstanding(Snapshot(), i, Session.UpdateRequest)
      modifies this
      ensures Snapshot() == Session.Next(old(Snapshot()), Session.UpdateOk(i, response))
    {
      Retire(i);
      ghost var before := effects;
      if response.cmst.Some? {
        UpdateNowPlaying(response.cmst.value);
        UpdatePlayerControlService(response.cmst.value);
      }
      if hasSpeaker {
        effects := effects + [Session.SpeakerUpdate];
      }
      assert effects == before + Session.PollEffects(response, hasSpeaker);
      StartRetrievingUpdates();
    }

    /** The `getUpdate` of chain `i` was rejected: the chain ends, with only a log line. */
    method UpdateFailed(i: nat)
      requires Session.Outstanding(Snapshot(), i, Session.UpdateRequest)
      modifies this
      ensures Snapshot() == Session.Next(old(Snapshot()), Session.UpdateFail(i))
      ensures effects == old(effects) && dacpErrors == old(dacpErrors) && timers == old(timers)
    {
      Retire(i);
    }

    /**
     * `_onDacpFailure`, run on the client's `error` event: count the failure,
     * log out, and schedule a reconnect while fewer than five are counted.
     */
    method OnDacpFailure()
      modifies this
      ensures Snapshot() == Session.Next(old(Snapshot()), Session.ClientError)
      ensures dacpErrors == old(dacpErrors) + 1
      ensures timers == old(timers) + (if dacpErrors < RetryPolicy.MaxFailures then [RetryPolicy.RetryDelayMs] else [])
    {
      dacpErrors := dacpErrors + 1;
      effects := effects + [Session.Logout];
      if dacpErrors < RetryPolicy.MaxFailures {
        var timeout := RetryPolicy.RetryDelayMs;
        effects := effects + [Session.SetTimeout(timeout)];
        timers := timers + [timeout];
      }
    }

    /** The oldest reconnect timer fires: connect again. */
    method ReconnectTimerFired()
      requires timers != []
      modifies this
      ensures Snapshot() == Session.Next(old(Snapshot()), Session.TimerFired)
    {
      timers := timers[1..];
      ConnectToDacpDevice();
    }
  }
}

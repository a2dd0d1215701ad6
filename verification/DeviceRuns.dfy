/**
 * The whole device under every sequence of requests, through every handler:
 * its commissioning state moves as the four stores' own transitions say, so
 * what holds of those holds of the device.
 */
module DeviceRuns {
  import opened Bytes
  import opened SecureOd
  import C = Commissioning
  import Rpk
  import RpkRuns
  import SodRuns
  import opened CommissioningRuns
  import opened DeviceModel

  datatype Input = Input(q: Incoming, t: Tick)

  function RunDevice(c: Config, st: State, inputs: seq<Input>): (r: State)
    requires st.sod.Shaped()
    ensures r.sod.Shaped()
  {
    if inputs == [] then st
    else
      var n := |inputs| - 1;
      Serve(c, RunDevice(c, st, inputs[..n]), inputs[n].q, inputs[n].t).0
  }

  function MovesOf(c: Config, st: State, inputs: seq<Input>): (r: seq<Move>)
    requires st.sod.Shaped()
    ensures |r| == |inputs|
  {
    if inputs == [] then []
    else
      var n := |inputs| - 1;
      MovesOf(c, st, inputs[..n]) + [MoveOf(c, RunDevice(c, st, inputs[..n]), inputs[n].q, inputs[n].t)]
  }

  /** No write poll on the key set commits while the slot of the last single write's key is empty. */
  ghost predicate NoStaleCommit(c: Config, st: State, inputs: seq<Input>)
    requires st.sod.Shaped()
  {
    forall k :: 0 <= k < |inputs| ==> !StalePollCommits(c, RunDevice(c, st, inputs[..k]), inputs[k].q, inputs[k].t)
  }

  lemma {:induction false} MovesOfPrefix(c: Config, st: State, inputs: seq<Input>, k: nat)
    requires st.sod.Shaped() && k <= |inputs|
    ensures MovesOf(c, st, inputs)[..k] == MovesOf(c, st, inputs[..k])
    ensures k < |inputs| ==> MovesOf(c, st, inputs)[k] == MoveOf(c, RunDevice(c, st, inputs[..k]), inputs[k].q, inputs[k].t)
  {
    hide MoveOf, Serve;
    var n := |inputs| - 1;
    if k < n {
      MovesOfPrefix(c, st, inputs[..n], k);
      assert inputs[..n][..k] == inputs[..k];
    } else if k == n + 1 {
      assert inputs[..k] == inputs;
    }
  }

  /** The commissioning view of a device run is the run of its moves. */
  lemma {:induction false} DeviceRunIsMoveRun(c: Config, st: State, inputs: seq<Input>)
    requires st.sod.Shaped()
    ensures Commissioned(RunDevice(c, st, inputs).sod) == RunMoves(c.origin, Commissioned(st.sod), MovesOf(c, st, inputs))
  {
    hide Serve, MoveOf, Apply, StalePollCommits, Installed, Authorized;
    if inputs != [] {
      var n := |inputs| - 1;
      DeviceRunIsMoveRun(c, st, inputs[..n]);
      ServeIsOneMove(c, RunDevice(c, st, inputs[..n]), inputs[n].q, inputs[n].t);
      assert MovesOf(c, st, inputs)[..n] == MovesOf(c, st, inputs[..n]);
    }
  }

  /** Every rung of it is in place, and all are authorized by a key in place exactly when no stale poll commits. */
  lemma DeviceMovesAreAuthorized(c: Config, st: State, inputs: seq<Input>)
    requires st.sod.Shaped()
    ensures AllInstalled(c.origin, Commissioned(st.sod), MovesOf(c, st, inputs))
    ensures AllAuthorized(c.origin, Commissioned(st.sod), MovesOf(c, st, inputs)) <==> NoStaleCommit(c, st, inputs)
  {
    hide Serve, MoveOf, Apply, StalePollCommits, Installed, Authorized, RunMoves, MovesOf, RunDevice;
    var d, moves := Commissioned(st.sod), MovesOf(c, st, inputs);
    forall k | 0 <= k < |inputs|
      ensures Installed(RunMoves(c.origin, d, moves[..k]), moves[k])
      ensures Authorized(RunMoves(c.origin, d, moves[..k]), moves[k])
                == !StalePollCommits(c, RunDevice(c, st, inputs[..k]), inputs[k].q, inputs[k].t)
    {
      MovesOfPrefix(c, st, inputs, k);
      DeviceRunIsMoveRun(c, st, inputs[..k]);
      ServeIsOneMove(c, RunDevice(c, st, inputs[..k]), inputs[k].q, inputs[k].t);
    }
  }

  /**
   * From boot, whatever requests arrive, as long as no stale poll commits:
   * C001h:01h agrees with owner and keys, and after a keyless boot the ladder
   * stands and stage Operational means all three tiers are installed.
   */
  lemma DeviceStaysConsistent(c: Config, st: State, loaded: KeyStore, inputs: seq<Input>)
    requires st.sod.Shaped() && Commissioned(st.sod) == C.Boot(c.origin, loaded) && NoStaleCommit(c, st, inputs)
    ensures Consistent(Commissioned(RunDevice(c, st, inputs).sod))
    ensures !C.HasSessionKey(loaded) ==> LadderStands(Commissioned(RunDevice(c, st, inputs).sod))
  {
    DeviceRunIsMoveRun(c, st, inputs);
    DeviceMovesAreAuthorized(c, st, inputs);
    RunConsistent(c.origin, loaded, MovesOf(c, st, inputs));
  }

  /** And exactly as long: from a keyless boot the ladder stands after every prefix of a run if and only if no stale poll commits in it. */
  lemma DeviceLadderStandsIff(c: Config, st: State, loaded: KeyStore, inputs: seq<Input>)
    requires st.sod.Shaped() && Commissioned(st.sod) == C.Boot(c.origin, loaded) && !C.HasSessionKey(loaded)
    ensures (forall n :: 0 <= n <= |inputs| ==> LadderStands(Commissioned(RunDevice(c, st, inputs[..n]).sod)))
              <==> NoStaleCommit(c, st, inputs)
  {
    hide MovesOf, RunMoves, RunDevice, LadderStands, C.Boot, StalePollCommits;
    var d, moves := Commissioned(st.sod), MovesOf(c, st, inputs);
    forall n | 0 <= n <= |inputs|
      ensures Commissioned(RunDevice(c, st, inputs[..n]).sod) == RunMoves(c.origin, d, moves[..n])
    {
      MovesOfPrefix(c, st, inputs, n);
      DeviceRunIsMoveRun(c, st, inputs[..n]);
    }
    DeviceMovesAreAuthorized(c, st, inputs);
    LadderStandsIffAuthorized(c.origin, loaded, moves);
  }

  /** The first stale poll that commits breaks the ladder, and the commissioned byte too unless it brings the Operator key or the device is owned. */
  lemma FirstStaleCommit(c: Config, st: State, loaded: KeyStore, inputs: seq<Input>, x: Input)
    requires st.sod.Shaped() && Commissioned(st.sod) == C.Boot(c.origin, loaded) && !C.HasSessionKey(loaded)
    requires NoStaleCommit(c, st, inputs) && StalePollCommits(c, RunDevice(c, st, inputs), x.q, x.t)
    ensures var before := RunDevice(c, st, inputs);
            var after := Commissioned(RunDevice(c, st, inputs + [x]).sod);
            var rung := KeyPollRung(c, before.sod, x.q, x.t);
            && !LadderStands(after) && rung != []
            && (StageAgrees(after) <==> rung[0] == C.SLOT_OPERATOR || before.sod.app.own.ownerSet)
  {
    hide Serve, Dispatch, Apply, C.Boot, LadderStands, Consistent, StageAgrees, C.HandleKeySet;
    var before := RunDevice(c, st, inputs);
    assert (inputs + [x])[..|inputs|] == inputs;
    DeviceStaysConsistent(c, st, loaded, inputs);
    ServeIsOneMove(c, before, x.q, x.t);
    var m := MoveOf(c, before, x.q, x.t);
    StaleMoveIsRung(c, before, x.q, x.t);
    RungNeedsItsKey(c.origin, Commissioned(before.sod), m.authorizing, m.body);
    RungHasBody(Commissioned(before.sod), m.authorizing, m.body);
  }

  lemma StaleMoveIsRung(c: Config, st: State, q: Incoming, t: Tick)
    requires st.sod.Shaped() && StalePollCommits(c, st, q, t)
    ensures q.dataId == KEY_SET_ID
    ensures MoveOf(c, st, q, t) == Rung(st.sod.lastKid, KeyPollRung(c, st.sod, q, t))
  {
    hide Dispatch, RouteOf, KeyPollAdmitted, KeyPollRung;
    KeyPollDecides(c, st.sod, q, t);
  }

  lemma RungHasBody(d: C.Device, authorizing: byte, body: seq<byte>)
    requires Installed(d, Rung(authorizing, body))
    ensures |body| == C.KEY_SET_BODY_LEN
  {
  }

  /** The rung that the n-th request installs was opened under the key of the tier that it needs. */
  predicate ProvedByItsTier(c: Config, st: State, inputs: seq<Input>, n: nat)
    requires st.sod.Shaped() && n < |inputs|
  {
    var before, x := RunDevice(c, st, inputs[..n]), inputs[n];
    var m := MoveOf(c, before, x.q, x.t);
    m.Rung? ==>
      && OpensAs(c, before.sod, x.q, x.t, m.body)
      && m.body != [] && C.NeededFor(m.body[0]) == Some(OpeningBase(before.sod, x.q, x.t))
  }

  /** No poll of the key set commits in a session of another key than that of the last single write. */
  ghost predicate NoMisnamedCommit(c: Config, st: State, inputs: seq<Input>)
    requires st.sod.Shaped()
  {
    forall k :: 0 <= k < |inputs| ==> !MisnamedPollCommits(c, RunDevice(c, st, inputs[..k]), inputs[k].q, inputs[k].t)
  }

  /**
   * Over every run of the device: each rung is proved by the tag of the tier
   * below it if and only if no poll commits on the key set in a session of
   * another key than that of the last single write.
   */
  lemma DeviceRungsAreProved(c: Config, st: State, inputs: seq<Input>)
    requires st.sod.Shaped()
    ensures (forall n :: 0 <= n < |inputs| ==> ProvedByItsTier(c, st, inputs, n)) <==> NoMisnamedCommit(c, st, inputs)
  {
    hide RunDevice, MoveOf, OpensAs, OpeningBase, MisnamedPollCommits;
    forall n | 0 <= n < |inputs|
      ensures ProvedByItsTier(c, st, inputs, n) == !MisnamedPollCommits(c, RunDevice(c, st, inputs[..n]), inputs[n].q, inputs[n].t)
    {
      var before, x := RunDevice(c, st, inputs[..n]), inputs[n];
      MisnamedIsUnproved(c, before, x.q, x.t);
    }
  }

  /** The claim token is seated after any requests whatsoever, and the ownership flags agree. */
  lemma DeviceKeepsToken(c: Config, st: State, loaded: KeyStore, inputs: seq<Input>)
    requires st.sod.Shaped() && Commissioned(st.sod) == C.Boot(c.origin, loaded)
    ensures var d := RunDevice(c, st, inputs).sod;
            C.SLOT_CLAIM_TOKEN in d.keys && (d.app.own.ownerSet <==> !d.app.own.uncommissioned)
  {
    DeviceRunIsMoveRun(c, st, inputs);
    TokenStaysSeated(c.origin, loaded, MovesOf(c, st, inputs));
  }

  /** No request but a signed reset changes a filled key slot. */
  lemma DeviceKeysAreWriteOnce(c: Config, st: State, inputs: seq<Input>)
    requires st.sod.Shaped() && Restore !in MovesOf(c, st, inputs)
    ensures KeysKept(st.sod.keys, RunDevice(c, st, inputs).sod.keys)
  {
    DeviceRunIsMoveRun(c, st, inputs);
    KeysChangeOnlyByReset(c.origin, Commissioned(st.sod), MovesOf(c, st, inputs));
  }

  /** The vouchers a device run accepts have strictly rising epochs, across resets too, so none is accepted twice. */
  lemma DeviceEpochsRise(c: Config, st: State, inputs: seq<Input>)
    requires st.sod.Shaped()
    ensures var vouchers := AcceptedVouchers(c.origin, Commissioned(st.sod), MovesOf(c, st, inputs));
            && Rising(vouchers, st.sod.app.own.epoch, RunDevice(c, st, inputs).sod.app.own.epoch)
            && forall j, k :: 0 <= j < k < |vouchers| ==> vouchers[j] != vouchers[k]
  {
    DeviceRunIsMoveRun(c, st, inputs);
    EpochsRise(c.origin, Commissioned(st.sod), MovesOf(c, st, inputs));
  }

  /* ---- The secure dictionary inside the device ---- */

  /** What a device request is to the secure dictionary: a request of its own, or something going on elsewhere. */
  function EventOf(c: Config, st: State, q: Incoming, t: Tick): SodRuns.Event<App>
    requires st.sod.Shaped()
  {
    if c.constants(st.sod, q.dataId, q.body).Some? || IsHandover(q.dataId)
       || Rpk.Try(HostOf(c), st.challenge, st.sod, SignedRequest(q, t)).Some?
    then
      var after := Serve(c, st, q, t).0.sod;
      SodRuns.Elsewhere(after.app, after.keys)
    else SodRuns.Ask(SodRuns.Input(q.dataId, SodRequest(q, t)))
  }

  function EventsOf(c: Config, st: State, inputs: seq<Input>): (r: seq<SodRuns.Event<App>>)
    requires st.sod.Shaped()
    ensures |r| == |inputs|
  {
    if inputs == [] then []
    else
      var n := |inputs| - 1;
      EventsOf(c, st, inputs[..n]) + [EventOf(c, RunDevice(c, st, inputs[..n]), inputs[n].q, inputs[n].t)]
  }

  lemma ServeIsOneEvent(c: Config, st: State, q: Incoming, t: Tick)
    requires st.sod.Shaped()
    ensures Serve(c, st, q, t).0.sod == SodRuns.Happen(PortOf(c), st.sod, EventOf(c, st, q, t))
  {
    hide Dispatch, Rpk.Try, HostOf, PortOf, C.HandleProvision, C.HandleVoucher;
    SignedTouchesHostOnly(c, st, q, t);
  }

  /** The slots of a device run are those of a run of its secure dictionary, so whatever holds of such runs holds here. */
  lemma {:induction false} DeviceRunIsSodRun(c: Config, st: State, inputs: seq<Input>)
    requires st.sod.Shaped()
    ensures RunDevice(c, st, inputs).sod == SodRuns.Run(PortOf(c), st.sod, EventsOf(c, st, inputs))
  {
    hide Serve, EventOf, SodRuns.Happen, PortOf;
    if inputs != [] {
      var n := |inputs| - 1;
      DeviceRunIsSodRun(c, st, inputs[..n]);
      ServeIsOneEvent(c, RunDevice(c, st, inputs[..n]), inputs[n].q, inputs[n].t);
      assert EventsOf(c, st, inputs)[..n] == EventsOf(c, st, inputs[..n]);
    }
  }

  /** For the whole device: no nonce twice since an arming, and the k-th committed poll of a session carries counter k. */
  lemma DeviceNoncesAndPolls(c: Config, st: State, i: nat, inputs: seq<Input>)
    requires st.sod.Valid() && i < |st.sod.entries|
    requires !st.sod.readSlots[i].inUse && !st.sod.writeSlots[i].inUse && st.sod.readSlots[i].counter == 0
    ensures var d, events := RunDevice(c, st, inputs).sod, EventsOf(c, st, inputs);
            var port := PortOf(c);
            && |d.readSlots| > i && SodRuns.ReadInv(d.readSlots[i], SodRuns.ReadHistory(port, st.sod, i, events))
            && |d.writeSlots| > i && SodRuns.WriteInv(port.gcm, d.writeSlots[i], SodRuns.WriteHistory(port, st.sod, i, events))
  {
    hide RunDevice, EventsOf, PortOf, SodRuns.ReadInv, SodRuns.WriteInv;
    DeviceRunIsSodRun(c, st, inputs);
    SodRuns.ReadNoncesNeverRepeat(PortOf(c), st.sod, i, EventsOf(c, st, inputs));
    SodRuns.PollsCommitInOrder(PortOf(c), st.sod, i, EventsOf(c, st, inputs));
  }

  /* ---- Signed access inside the device ---- */

  function HappeningOf(c: Config, st: State, q: Incoming, t: Tick): RpkRuns.Happening<Sod<App>>
    requires st.sod.Shaped()
  {
    if c.constants(st.sod, q.dataId, q.body).None? && !IsHandover(q.dataId)
       && Rpk.Try(HostOf(c), st.challenge, st.sod, SignedRequest(q, t)).Some?
    then RpkRuns.Ask(SignedRequest(q, t))
    else RpkRuns.Elsewhere(Serve(c, st, q, t).0.sod)
  }

  function HappeningsOf(c: Config, st: State, inputs: seq<Input>): (r: seq<RpkRuns.Happening<Sod<App>>>)
    requires st.sod.Shaped()
    ensures |r| == |inputs|
  {
    if inputs == [] then []
    else
      var n := |inputs| - 1;
      HappeningsOf(c, st, inputs[..n]) + [HappeningOf(c, RunDevice(c, st, inputs[..n]), inputs[n].q, inputs[n].t)]
  }

  lemma ServeIsOneHappening(c: Config, st: State, q: Incoming, t: Tick)
    requires st.sod.Shaped()
    ensures var r := RpkRuns.Happen(HostOf(c), RpkRuns.State(st.challenge, st.sod), HappeningOf(c, st, q, t));
            Serve(c, st, q, t).0 == State(r.app, r.challenge)
  {
    hide Dispatch, Rpk.Try, HostOf, PortOf, Handover;
  }

  /** Challenge and host state of a device run are those of a run of its signed-access automaton. */
  lemma {:induction false} DeviceRunIsSignedRun(c: Config, st: State, inputs: seq<Input>)
    requires st.sod.Shaped()
    ensures var r := RpkRuns.Run(HostOf(c), RpkRuns.State(st.challenge, st.sod), HappeningsOf(c, st, inputs));
            RunDevice(c, st, inputs) == State(r.app, r.challenge)
  {
    hide Serve, HappeningOf, RpkRuns.Happen, HostOf;
    if inputs != [] {
      var n := |inputs| - 1;
      DeviceRunIsSignedRun(c, st, inputs[..n]);
      ServeIsOneHappening(c, RunDevice(c, st, inputs[..n]), inputs[n].q, inputs[n].t);
      assert HappeningsOf(c, st, inputs)[..n] == HappeningsOf(c, st, inputs[..n]);
    }
  }

  /** For the whole device: signatures made or checked never outnumber the challenges it handed out. */
  lemma DeviceKeyUses(c: Config, st: State, inputs: seq<Input>)
    requires st.sod.Shaped() && !st.challenge.armed
    ensures var start, happenings := RpkRuns.State(st.challenge, st.sod), HappeningsOf(c, st, inputs);
            RpkRuns.KeyUses(HostOf(c), start, happenings) + (if RunDevice(c, st, inputs).challenge.armed then 1 else 0)
              <= RpkRuns.Arms(HostOf(c), start, happenings)
  {
    hide HappeningsOf, HostOf, RunDevice;
    DeviceRunIsSignedRun(c, st, inputs);
    RpkRuns.KeyUsesNeverOutnumberArms(HostOf(c), RpkRuns.State(st.challenge, st.sod), HappeningsOf(c, st, inputs));
  }
}

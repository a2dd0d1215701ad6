/**
 * Signed access under every sequence of requests, whatever the rest of the
 * device does in between: whose challenge an accepted signature answers, how
 * often keys are used, and that nothing is accepted twice.
 */
module RpkRuns {
  import opened Bytes
  import opened Aborts
  import opened Asym
  import opened Rpk

  datatype State<+A> = State(challenge: Challenge, app: A)

  function StepOf<A>(h: Host<A>, st: State<A>, q: SignedRequest): Step<A> {
    var r := Try(h, st.challenge, st.app, q);
    if r.Some? then r.value else Refuse(st.challenge, st.app, NO_OBJECT)
  }

  /** A request, or anything the rest of the device does in between to the host's state. */
  datatype Happening<+A> = Ask(q: SignedRequest) | Elsewhere(app: A)

  function Happen<A>(h: Host<A>, st: State<A>, x: Happening<A>): Step<A> {
    match x
    case Ask(q) => StepOf(h, st, q)
    case Elsewhere(app) => Refuse(st.challenge, app, NO_OBJECT)
  }

  function Run<A>(h: Host<A>, st: State<A>, inputs: seq<Happening<A>>): State<A> {
    if inputs == [] then st
    else
      var n := |inputs| - 1;
      var r := Happen(h, Run(h, st, inputs[..n]), inputs[n]);
      State(r.challenge, r.app)
  }

  /** The event of the n-th happening. */
  function EventAt<A>(h: Host<A>, st: State<A>, inputs: seq<Happening<A>>, n: nat): Event
    requires n < |inputs|
  {
    Happen(h, Run(h, st, inputs[..n]), inputs[n]).event
  }

  function Draw<A>(x: Happening<A>): Option<Rand16> { if x.Ask? then x.q.random else None }

  predicate UsesKey(e: Event) { e.Signed? || e.Verified? }

  predicate IsAccepted(e: Event) { e.Verified? && e.ok }

  /* ---- Whose challenge ---- */

  /** The challenge that the latest successful arming of the run handed out. */
  function LatestArm<A>(h: Host<A>, st: State<A>, inputs: seq<Happening<A>>): Option<Challenge> {
    if inputs == [] then None
    else
      var n := |inputs| - 1;
      if EventAt(h, st, inputs, n) == Armed && Draw(inputs[n]).Some?
      then Some(Challenge(true, inputs[n].q.client, inputs[n].q.objectId, inputs[n].q.random.value))
      else LatestArm(h, st, inputs[..n])
  }

  /** What a step does to the challenge, and what it needs of it. */
  lemma StepOnChallenge<A>(h: Host<A>, st: State<A>, q: SignedRequest)
    ensures var r := StepOf(h, st, q);
            && (r.event == Armed ==> q.random.Some? && r.challenge == Challenge(true, q.client, q.objectId, q.random.value))
            && (r.event != Armed ==> r.challenge == st.challenge || r.challenge == st.challenge.(armed := false))
            && (UsesKey(r.event) ==>
                  && Pending(st.challenge, q.client, q.objectId) && !r.challenge.armed
                  && r.event.access.serverNonce == st.challenge.nonce && r.event.access.client == q.client
                  && r.event.access.server == h.deviceId && |r.event.access.value| <= RPK_VALUE_MAX)
            && (r.event.Signed? ==> q.objectId == GENERIC_READ_ID)
            && (r.event.Verified? ==>
                  && (if r.event.role == RD_GENERIC_WRITE then q.objectId == GENERIC_WRITE_ID && r.event.access.mux == TargetOf(q.body)
                      else r.event.role == RD_FUNCTION_CMD && q.objectId == FUNCCMD_ID && r.event.access.mux == FUNCCMD_ID)
                  && h.peer.Some?
                  && r.event.ok == h.scheme.verify(h.peer.value, AccessTranscript(r.event.role, r.event.access), r.event.sig))
  {
    hide AccessTranscript;
  }

  lemma HappenOnChallenge<A>(h: Host<A>, st: State<A>, x: Happening<A>)
    ensures var r := Happen(h, st, x);
            && (r.event == Armed ==>
                  Draw(x).Some? && r.challenge == Challenge(true, x.q.client, x.q.objectId, x.q.random.value))
            && (r.event != Armed ==> r.challenge == st.challenge || r.challenge == st.challenge.(armed := false))
            && (UsesKey(r.event) ==>
                  && x.Ask? && Pending(st.challenge, x.q.client, x.q.objectId) && !r.challenge.armed
                  && r.event.access.serverNonce == st.challenge.nonce && r.event.access.client == x.q.client
                  && |r.event.access.value| <= RPK_VALUE_MAX)
            && (r.event.Verified? ==>
                  && h.peer.Some?
                  && r.event.ok == h.scheme.verify(h.peer.value, AccessTranscript(r.event.role, r.event.access), r.event.sig))
  {
    hide StepOf, AccessTranscript;
    if x.Ask? {
      StepOnChallenge(h, st, x.q);
    }
  }

  lemma {:induction false} ArmedIsLatest<A>(h: Host<A>, st: State<A>, inputs: seq<Happening<A>>)
    requires !st.challenge.armed
    ensures var c := Run(h, st, inputs).challenge; c.armed ==> LatestArm(h, st, inputs) == Some(c)
  {
    hide Happen;
    if inputs != [] {
      var n := |inputs| - 1;
      ArmedIsLatest(h, st, inputs[..n]);
      HappenOnChallenge(h, Run(h, st, inputs[..n]), inputs[n]);
    }
  }

  /**
   * In every run, whenever a signature is checked or made, it is over the nonce
   * of the latest challenge, which the same client armed for the same object.
   */
  lemma AnswersLatestChallenge<A>(h: Host<A>, st: State<A>, inputs: seq<Happening<A>>, n: nat)
    requires !st.challenge.armed && n < |inputs| && UsesKey(EventAt(h, st, inputs, n))
    ensures var e := EventAt(h, st, inputs, n);
            && inputs[n].Ask?
            && LatestArm(h, st, inputs[..n]) == Some(Challenge(true, inputs[n].q.client, inputs[n].q.objectId, e.access.serverNonce))
            && e.access.client == inputs[n].q.client
  {
    hide Happen;
    ArmedIsLatest(h, st, inputs[..n]);
    HappenOnChallenge(h, Run(h, st, inputs[..n]), inputs[n]);
  }

  /* ---- How often ---- */

  function Arms<A>(h: Host<A>, st: State<A>, inputs: seq<Happening<A>>): nat {
    if inputs == [] then 0
    else Arms(h, st, inputs[..|inputs| - 1]) + if EventAt(h, st, inputs, |inputs| - 1) == Armed then 1 else 0
  }

  function KeyUses<A>(h: Host<A>, st: State<A>, inputs: seq<Happening<A>>): nat {
    if inputs == [] then 0
    else KeyUses(h, st, inputs[..|inputs| - 1]) + if UsesKey(EventAt(h, st, inputs, |inputs| - 1)) then 1 else 0
  }

  /** Ed25519 operations never outnumber the challenges handed out. */
  lemma {:induction false} KeyUsesNeverOutnumberArms<A>(h: Host<A>, st: State<A>, inputs: seq<Happening<A>>)
    requires !st.challenge.armed
    ensures KeyUses(h, st, inputs) + (if Run(h, st, inputs).challenge.armed then 1 else 0) <= Arms(h, st, inputs)
  {
    hide Happen;
    if inputs != [] {
      var n := |inputs| - 1;
      KeyUsesNeverOutnumberArms(h, st, inputs[..n]);
      HappenOnChallenge(h, Run(h, st, inputs[..n]), inputs[n]);
    }
  }

  /* ---- Nothing twice ---- */

  /** The random source never repeats itself. */
  ghost predicate FreshDraws<A>(inputs: seq<Happening<A>>) {
    forall i, j :: 0 <= i < j < |inputs| && Draw(inputs[i]).Some? && Draw(inputs[j]).Some? ==>
      Draw(inputs[i]) != Draw(inputs[j])
  }

  /** The armed nonce was drawn by some earlier request and has not been used since. */
  lemma {:induction false} ArmedNonceIsUnused<A>(h: Host<A>, st: State<A>, inputs: seq<Happening<A>>)
    requires !st.challenge.armed && FreshDraws(inputs)
    ensures var c := Run(h, st, inputs).challenge;
            c.armed ==>
              && (exists i :: 0 <= i < |inputs| && Draw(inputs[i]) == Some(c.nonce))
              && (forall k :: 0 <= k < |inputs| && UsesKey(EventAt(h, st, inputs, k)) ==>
                    EventAt(h, st, inputs, k).access.serverNonce != c.nonce)
  {
    hide Happen, AccessTranscript;
    if inputs != [] {
      var n := |inputs| - 1;
      var before := inputs[..n];
      ArmedNonceIsUnused(h, st, before);
      HappenOnChallenge(h, Run(h, st, before), inputs[n]);
      forall k | 0 <= k < n ensures EventAt(h, st, inputs, k) == EventAt(h, st, before, k) {
        assert inputs[..k] == before[..k];
      }
      var c := Run(h, st, inputs).challenge;
      if c.armed {
        if EventAt(h, st, inputs, n) == Armed {
          assert Draw(inputs[n]) == Some(c.nonce);
          forall k | 0 <= k < n && UsesKey(EventAt(h, st, inputs, k))
            ensures EventAt(h, st, inputs, k).access.serverNonce != c.nonce
          {
            UsedNonceWasDrawn(h, st, inputs, k);
          }
        } else {
          var i :| 0 <= i < n && Draw(before[i]) == Some(c.nonce);
          assert Draw(inputs[i]) == Some(c.nonce);
        }
      }
    }
  }

  lemma UsedNonceWasDrawn<A>(h: Host<A>, st: State<A>, inputs: seq<Happening<A>>, k: nat)
    requires !st.challenge.armed && k < |inputs| && UsesKey(EventAt(h, st, inputs, k))
    ensures exists i :: 0 <= i < k && Draw(inputs[i]) == Some(EventAt(h, st, inputs, k).access.serverNonce)
  {
    hide Happen;
    AnswersLatestChallenge(h, st, inputs, k);
    LatestWasDrawn(h, st, inputs[..k]);
    var i :| 0 <= i < k && Draw(inputs[..k][i]) == Some(EventAt(h, st, inputs, k).access.serverNonce);
    assert Draw(inputs[i]) == Draw(inputs[..k][i]);
  }

  lemma {:induction false} LatestWasDrawn<A>(h: Host<A>, st: State<A>, inputs: seq<Happening<A>>)
    ensures LatestArm(h, st, inputs).Some? ==>
              exists i :: 0 <= i < |inputs| && Draw(inputs[i]) == Some(LatestArm(h, st, inputs).value.nonce)
  {
    if inputs != [] {
      var n := |inputs| - 1;
      LatestWasDrawn(h, st, inputs[..n]);
      if EventAt(h, st, inputs, n) == Armed && Draw(inputs[n]).Some? {
        assert Draw(inputs[n]) == Some(LatestArm(h, st, inputs).value.nonce);
      } else if LatestArm(h, st, inputs).Some? {
        var i :| 0 <= i < n && Draw(inputs[..n][i]) == Some(LatestArm(h, st, inputs[..n]).value.nonce);
        assert Draw(inputs[i]) == Draw(inputs[..n][i]);
      }
    }
  }

  /** Two uses of the device's or the integrator's key in a run are over different server nonces. */
  lemma UsesHaveDistinctNonces<A>(h: Host<A>, st: State<A>, inputs: seq<Happening<A>>, j: nat, k: nat)
    requires !st.challenge.armed && FreshDraws(inputs) && j < k < |inputs|
    requires UsesKey(EventAt(h, st, inputs, j)) && UsesKey(EventAt(h, st, inputs, k))
    ensures EventAt(h, st, inputs, j).access.serverNonce != EventAt(h, st, inputs, k).access.serverNonce
  {
    hide Happen;
    ArmedNonceIsUnused(h, st, inputs[..k]);
    HappenOnChallenge(h, Run(h, st, inputs[..k]), inputs[k]);
    assert inputs[..k][..j] == inputs[..j];
    assert EventAt(h, st, inputs, j) == EventAt(h, st, inputs[..k], j);
  }

  /**
   * No signature is accepted twice in a run, so no signed write or command is:
   * it would verify for two different transcripts.
   */
  lemma NothingIsAcceptedTwice<A>(h: Host<A>, st: State<A>, inputs: seq<Happening<A>>, j: nat, k: nat)
    requires !st.challenge.armed && FreshDraws(inputs) && j < k < |inputs|
    requires IsAccepted(EventAt(h, st, inputs, j)) && IsAccepted(EventAt(h, st, inputs, k))
    ensures var a, b := EventAt(h, st, inputs, j), EventAt(h, st, inputs, k);
            && h.peer.Some? && |a.access.value| <= RPK_VALUE_MAX && |b.access.value| <= RPK_VALUE_MAX
            && (a.sig == b.sig ==>
                  Clash(h.scheme, h.peer.value, AccessTranscript(a.role, a.access), AccessTranscript(b.role, b.access), a.sig))
  {
    hide Happen;
    var a, b := EventAt(h, st, inputs, j), EventAt(h, st, inputs, k);
    UsesHaveDistinctNonces(h, st, inputs, j, k);
    HappenOnChallenge(h, Run(h, st, inputs[..j]), inputs[j]);
    HappenOnChallenge(h, Run(h, st, inputs[..k]), inputs[k]);
    AccessTranscriptInjective(a.role, a.access, b.role, b.access);
  }

  /** Accepted requests with the same bytes for the same object carry the same signature. */
  lemma SameBytesSameSignature<A>(h: Host<A>, st: State<A>, q: SignedRequest, st': State<A>, q': SignedRequest)
    requires q.objectId == q'.objectId && q.body == q'.body
    requires IsAccepted(StepOf(h, st, q).event) && IsAccepted(StepOf(h, st', q').event)
    ensures StepOf(h, st, q).event.sig == StepOf(h, st', q').event.sig
  {
    hide AccessTranscript;
  }
}

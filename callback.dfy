/** The callback dispatch procedure `handleCallback` (task/main.js:98-145).
    Every outbound request takes its outcome from a script, one outcome per
    request in issue order; the run reports the requests issued and how the
    inbound request was answered. */
module Callback {
  import opened Configuration
  import opened Requests

  /** What an outbound request yields. `Ok` is a 2xx response; `ErrStatus`
      is an error carrying `error.response`; `NoResponse` is an error with only
      `error.request`; `OtherError` is any other rejection. */
  datatype Outcome = Ok | ErrStatus(status: int) | NoResponse | OtherError

  /** How the inbound request ends: answered with a status, never answered
      (the source only logs), or still waiting on a request whose outcome the
      script does not supply. */
  datatype Ending = Replied(status: int) | Silent | Unfinished

  datatype Run = Run(trace: seq<Request>, ending: Ending)

  /** The status the platform uses for an unknown device. */
  const UnknownDevice := 400

  function Prepend(reqs: seq<Request>, r: Run): Run
  {
    Run(reqs + r.trace, r.ending)
  }

  /** One full provisioning round, in the order the source issues it. */
  function Cycle(s: Settings, body: Body): (c: seq<Request>)
    ensures |c| == 4
  {
    [ ForwardRequest(s, body.device, body),
      CreateDeviceRequest(s, body.device),
      CreateBucketRequest(s, body.device),
      BindCallbackRequest(s, body.device, body.device) ]
  }

  /** How many of the three provisioning requests (device, bucket, binding)
      succeed in a row, given their outcomes: each request is only issued
      once the one before it succeeded. */
  function ProvisionedSteps(outcomes: seq<Outcome>): (n: nat)
    ensures n <= 3 && n <= |outcomes|
    ensures forall j :: 0 <= j < n ==> outcomes[j].Ok?
    ensures n < 3 ==> n == |outcomes| || !outcomes[n].Ok?
  {
    if |outcomes| == 0 || !outcomes[0].Ok? then 0
    else if |outcomes| == 1 || !outcomes[1].Ok? then 1
    else if |outcomes| == 2 || !outcomes[2].Ok? then 2
    else 3
  }

  /** `handleCallback(req, res)` under fixed settings. After a 400 with
      auto-provisioning on, it creates the device, the bucket and the
      callback binding, each only after the previous one succeeded, and then
      starts over (task/main.js:129). A failed step is only logged. */
  function HandleCallback(s: Settings, body: Body, script: seq<Outcome>): (r: Run)
    ensures 1 <= |r.trace| && r.trace[0] == ForwardRequest(s, body.device, body)
    ensures r.ending.Replied? ==> r.ending.status != UnknownDevice
    decreases |script|
  {
    var fwd := ForwardRequest(s, body.device, body);
    if |script| == 0 then Run([fwd], Unfinished)
    else match script[0]
      case Ok => Run([fwd], Replied(200))
      case NoResponse => Run([fwd], Silent)
      case OtherError => Run([fwd], Silent)
      case ErrStatus(status) =>
        if status != UnknownDevice then Run([fwd], Replied(status))
        else if !s.autoProvisionResources then Run([fwd], Replied(200))
        else
          var rest := script[1..];
          var n := ProvisionedSteps(rest);
          if n < 3 then Run(Cycle(s, body)[..n + 2], if n == |rest| then Unfinished else Silent)
          else Prepend(Cycle(s, body), HandleCallback(s, body, rest[3..]))
  }

  /** A successful first forward answers 200 and issues nothing else: the
      device-properties list is always empty. */
  lemma ForwardSucceeds(s: Settings, body: Body, script: seq<Outcome>)
    requires |script| > 0 && script[0] == Ok
    ensures HandleCallback(s, body, script)
              == Run([Forward(GetDeviceId(s, body.device), body)], Replied(200))
  {
  }

  /** An error response other than 400 is passed back verbatim and nothing
      is provisioned. */
  lemma ErrorStatusPassedThrough(s: Settings, body: Body, script: seq<Outcome>, status: int)
    requires |script| > 0 && script[0] == ErrStatus(status) && status != UnknownDevice
    ensures HandleCallback(s, body, script)
              == Run([ForwardRequest(s, body.device, body)], Replied(status))
  {
  }

  /** With auto-provisioning off, a 400 is answered 200 and nothing is created. */
  lemma UnknownDeviceWithoutProvisioning(s: Settings, body: Body, script: seq<Outcome>)
    requires |script| > 0 && script[0] == ErrStatus(UnknownDevice)
    requires !s.autoProvisionResources
    ensures HandleCallback(s, body, script)
              == Run([ForwardRequest(s, body.device, body)], Replied(200))
  {
  }

  /** An error with no response, or with neither response nor request, is
      only logged: the caller never gets a reply. */
  lemma TransportFailureNeverReplies(s: Settings, body: Body, script: seq<Outcome>)
    requires |script| > 0 && (script[0] == NoResponse || script[0] == OtherError)
    ensures HandleCallback(s, body, script)
              == Run([ForwardRequest(s, body.device, body)], Silent)
  {
  }

  /** With auto-provisioning on, a 400 followed by three successful steps
      issues create-device, create-bucket and bind-callback in that order and
      then runs the whole procedure again on the rest of the script. */
  lemma ProvisioningOrder(s: Settings, body: Body, script: seq<Outcome>)
    requires |script| >= 4 && script[0] == ErrStatus(UnknownDevice)
    requires s.autoProvisionResources
    requires script[1] == Ok && script[2] == Ok && script[3] == Ok
    ensures HandleCallback(s, body, script)
              == Prepend(Cycle(s, body), HandleCallback(s, body, script[4..]))
    ensures Cycle(s, body)[1] == CreateDevice(GetDeviceId(s, body.device), DeviceType, DeviceDescription)
    ensures Cycle(s, body)[2].bucket == Cycle(s, body)[2].name == GetBucketId(s, body.device)
    ensures Cycle(s, body)[3]
              == BindCallback(body.device, GetBucketId(s, body.device), GetDeviceTimeout(s))
  {
  }

  /** When provisioning step `k` (1: device, 2: bucket, 3: binding) fails,
      no later step is issued, there is no retry and no reply. */
  lemma ProvisioningStepFails(s: Settings, body: Body, script: seq<Outcome>, k: nat)
    requires 1 <= k <= 3 && |script| > k && script[0] == ErrStatus(UnknownDevice)
    requires s.autoProvisionResources
    requires forall j :: 1 <= j < k ==> script[j] == Ok
    requires !script[k].Ok?
    ensures HandleCallback(s, body, script) == Run(Cycle(s, body)[..k + 1], Silent)
  {
  }

  /** The script makes the procedure provision successfully and start over. */
  predicate Reenters(s: Settings, script: seq<Outcome>)
  {
    |script| >= 4 && script[0] == ErrStatus(UnknownDevice) && s.autoProvisionResources
    && script[1] == Ok && script[2] == Ok && script[3] == Ok
  }

  /** A run that does not start over issues at most one cycle, in order; it
      replies only after the single forward, and it is unfinished exactly
      when it used up the script. */
  lemma ShortRun(s: Settings, body: Body, script: seq<Outcome>)
    requires !Reenters(s, script)
    ensures var r := HandleCallback(s, body, script);
      |r.trace| <= 4 && r.trace == Cycle(s, body)[..|r.trace|] &&
      (r.ending.Replied? ==> |r.trace| == 1) &&
      (r.ending.Unfinished? <==> |r.trace| == |script| + 1) &&
      (!r.ending.Unfinished? ==> |r.trace| <= |script|)
  {
  }

  /** Every trace is a prefix of the provisioning cycle repeated: the only
      requests ever issued are these four, always in this order. */
  ghost predicate FollowsCycle(trace: seq<Request>, cycle: seq<Request>)
    requires |cycle| == 4
  {
    forall i :: 0 <= i < |trace| ==> trace[i] == cycle[i % 4]
  }

  lemma {:induction false} TraceFollowsCycle(s: Settings, body: Body, script: seq<Outcome>)
    ensures FollowsCycle(HandleCallback(s, body, script).trace, Cycle(s, body))
    decreases |script|
  {
    var r := HandleCallback(s, body, script);
    var c := Cycle(s, body);
    if Reenters(s, script) {
      ProvisioningOrder(s, body, script);
      var tail := HandleCallback(s, body, script[4..]).trace;
      TraceFollowsCycle(s, body, script[4..]);
      assert r.trace == c + tail;
      forall i | 4 <= i < |r.trace|
        ensures r.trace[i] == c[i % 4]
      {
        assert r.trace[i] == tail[i - 4];
        assert (i - 4) % 4 == i % 4;
      }
    } else {
      ShortRun(s, body, script);
    }
  }

  /** The run consumes one outcome per issued request: it is unfinished
      exactly when every outcome was used and one request is still pending. */
  lemma {:induction false} ScriptAccounting(s: Settings, body: Body, script: seq<Outcome>)
    ensures var r := HandleCallback(s, body, script);
      (r.ending.Unfinished? <==> |r.trace| == |script| + 1) &&
      (!r.ending.Unfinished? ==> |r.trace| <= |script|)
    decreases |script|
  {
    if Reenters(s, script) {
      ProvisioningOrder(s, body, script);
      ScriptAccounting(s, body, script[4..]);
    } else {
      ShortRun(s, body, script);
    }
  }

  /** A reply is only ever sent when the trace has gone round the cycle a
      whole number of times and then issued one more forward. */
  lemma {:induction false} ReplyAfterWholeCycles(s: Settings, body: Body, script: seq<Outcome>)
    ensures var r := HandleCallback(s, body, script);
      r.ending.Replied? ==> |r.trace| % 4 == 1
    decreases |script|
  {
    if Reenters(s, script) {
      ProvisioningOrder(s, body, script);
      ReplyAfterWholeCycles(s, body, script[4..]);
    } else {
      ShortRun(s, body, script);
    }
  }

  /** A reply is only ever sent right after a forward request. */
  lemma ReplyFollowsForward(s: Settings, body: Body, script: seq<Outcome>)
    ensures var r := HandleCallback(s, body, script);
      r.ending.Replied? ==> r.trace[|r.trace| - 1] == ForwardRequest(s, body.device, body)
  {
  }

  /** Without auto-provisioning only the single forward is ever issued. */
  lemma WithoutProvisioningOneRequest(s: Settings, body: Body, script: seq<Outcome>)
    requires !s.autoProvisionResources
    ensures HandleCallback(s, body, script).trace == [ForwardRequest(s, body.device, body)]
  {
  }

  /** `k` copies of `xs` one after the other. */
  function Repeat<T>(xs: seq<T>, k: nat): (r: seq<T>)
    ensures |r| == k * |xs|
  {
    if k == 0 then [] else xs + Repeat(xs, k - 1)
  }

  /** The outcomes of one provisioning round that all succeed but do not
      make the device known: 400, then three successes. */
  const FailedRound: seq<Outcome> := [ErrStatus(UnknownDevice), Ok, Ok, Ok]

  lemma PrependTwice(a: seq<Request>, b: seq<Request>, r: Run)
    ensures Prepend(a, Prepend(b, r)) == Prepend(a + b, r)
  {
  }

  lemma FailedRoundsSplit(k: nat, tail: seq<Outcome>)
    requires k > 0
    ensures var script := Repeat(FailedRound, k) + tail;
      |script| >= 4 && script[0] == ErrStatus(UnknownDevice) &&
      script[1] == Ok && script[2] == Ok && script[3] == Ok &&
      script[4..] == Repeat(FailedRound, k - 1) + tail
  {
  }

  /** There is no retry bound: each round that ends in a fresh 400 starts
      another full cycle, and the run after `k` rounds is the run on the rest. */
  lemma {:induction false} RetryRounds(s: Settings, body: Body, k: nat, tail: seq<Outcome>)
    requires s.autoProvisionResources
    ensures HandleCallback(s, body, Repeat(FailedRound, k) + tail)
              == Prepend(Repeat(Cycle(s, body), k), HandleCallback(s, body, tail))
  {
    var c := Cycle(s, body);
    var done := HandleCallback(s, body, tail);
    if k == 0 {
      assert Repeat(FailedRound, 0) + tail == tail;
      assert [] + done.trace == done.trace;
    } else {
      var script := Repeat(FailedRound, k) + tail;
      FailedRoundsSplit(k, tail);
      ProvisioningOrder(s, body, script);
      RetryRounds(s, body, k - 1, tail);
      PrependTwice(c, Repeat(c, k - 1), done);
    }
  }

  /** For every `k` there is a script on which the procedure issues `k + 1`
      forwards and is still not done. */
  lemma UnboundedRetry(s: Settings, body: Body, k: nat)
    requires s.autoProvisionResources
    ensures var r := HandleCallback(s, body, Repeat(FailedRound, k));
      |r.trace| == 4 * k + 1 && r.ending.Unfinished? &&
      forall j :: 0 <= j <= k ==> r.trace[4 * j] == ForwardRequest(s, body.device, body)
  {
    var script := Repeat(FailedRound, k);
    assert script + [] == script;
    RetryRounds(s, body, k, []);
    TraceFollowsCycle(s, body, script);
    var r := HandleCallback(s, body, script);
    forall j | 0 <= j <= k
      ensures r.trace[4 * j] == ForwardRequest(s, body.device, body)
    {
      assert (4 * j) % 4 == 0;
    }
  }

  /** The binding is issued for the raw id while the device was created
      under the prefixed id: with a device prefix set they name different
      devices. */
  lemma BindUsesRawDeviceId(s: Settings, body: Body, script: seq<Outcome>)
    requires |script| >= 3 && script[0] == ErrStatus(UnknownDevice)
    requires s.autoProvisionResources
    requires script[1] == Ok && script[2] == Ok
    ensures var r := HandleCallback(s, body, script);
      |r.trace| >= 4 &&
      r.trace[1].newDeviceId == GetDeviceId(s, body.device) &&
      r.trace[3].deviceId == body.device &&
      (IsSet(s.deviceIdPrefix) <==> r.trace[3].deviceId != r.trace[1].newDeviceId)
  {
  }

  /** A worked run: raw id "1A2B3C" with device prefix "sig-" and no bucket
      prefix, a 400, three successful provisioning steps, then a successful
      forward. The bucket keeps the raw id and the binding targets the raw id. */
  lemma ExampleRun()
    ensures var s := Settings(Some("sig-"), None, None, true);
      var body := Body("1A2B3C", map[]);
      HandleCallback(s, body, [ErrStatus(400), Ok, Ok, Ok, Ok])
        == Run([ Forward("sig-1A2B3C", body),
                 CreateDevice("sig-1A2B3C", "HTTP", "Auto provisioned Sigfox Device"),
                 CreateBucket("1A2B3C", "1A2B3C", "Auto provisioned Sigfox Bucket", true, "api"),
                 BindCallback("1A2B3C", "1A2B3C", 10),
                 Forward("sig-1A2B3C", body) ],
               Replied(200))
  {
    var s := Settings(Some("sig-"), None, None, true);
    var body := Body("1A2B3C", map[]);
    var script := [ErrStatus(400), Ok, Ok, Ok, Ok];
    ProvisioningOrder(s, body, script);
    assert script[4..] == [Ok];
    assert GetDeviceId(s, "1A2B3C") == "sig-1A2B3C";
    assert HandleCallback(s, body, [Ok]) == Run([Forward("sig-1A2B3C", body)], Replied(200));
  }
}

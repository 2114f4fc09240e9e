/** The module-level `settings` variable of the relay and the handlers that
    read or overwrite it (task/main.js:13, 147-174). */
module Relay {
  import opened Configuration
  import opened Requests
  import opened Callback

  /** The result of reading the stored `settings` plugin property at start-up:
      its `value`, or a failed request. */
  datatype Fetch = Fetched(value: Settings) | FetchFailed

  class SettingsStore {
    var settings: Settings

    /** `let settings = {}`. */
    constructor ()
      ensures settings == NoSettings
    {
      settings := NoSettings;
    }

    /** `PUT /settings`: the body becomes the settings as a whole; nothing of
        the previous value survives. */
    method Replace(body: Settings)
      modifies this
      ensures settings == body
    {
      settings := body;
    }

    /** Start-up: the fetched value replaces the settings, and a failed fetch
        installs `{auto_provision_resources: true}`. */
    method Bootstrap(fetched: Fetch)
      modifies this
      ensures fetched.Fetched? ==> settings == fetched.value
      ensures fetched.FetchFailed? ==> settings == FallbackSettings
    {
      match fetched
      case Fetched(value) =>
        settings := value;
      case FetchFailed =>
        settings := FallbackSettings;
    }

    /** `POST /callback`: dispatch the body under the current settings. The
        first request forwards the whole body to the device id those settings
        derive; a successful forward is answered 200, an error status other
        than 400 is answered verbatim, and a 400 is answered 200 when
        auto-provisioning is off and otherwise creates the device; every
        request follows the provisioning cycle in order; 400 is never replied. */
    method OnCallback(body: Body, script: seq<Outcome>) returns (r: Run)
      ensures |r.trace| >= 1 && r.trace[0] == Forward(GetDeviceId(settings, body.device), body)
      ensures |script| > 0 && script[0] == Ok ==> r.ending == Replied(200)
      ensures |script| > 0 && script[0].ErrStatus? && script[0].status != UnknownDevice ==>
                r.ending == Replied(script[0].status)
      ensures |script| > 0 && script[0] == ErrStatus(UnknownDevice) && !settings.autoProvisionResources ==>
                r.ending == Replied(200)
      ensures |script| > 0 && script[0] == ErrStatus(UnknownDevice) && settings.autoProvisionResources ==>
                |r.trace| >= 2 &&
                r.trace[1] == CreateDevice(GetDeviceId(settings, body.device), DeviceType, DeviceDescription)
      ensures !settings.autoProvisionResources ==> r.trace == [r.trace[0]]
      ensures FollowsCycle(r.trace, Cycle(settings, body))
      ensures r.ending.Replied? ==> r.ending.status != UnknownDevice
    {
      r := HandleCallback(settings, body, script);
      TraceFollowsCycle(settings, body, script);
      if !settings.autoProvisionResources {
        WithoutProvisioningOneRequest(settings, body, script);
      }
    }
  }

  /** After a failed bootstrap an unknown device is provisioned under its raw
      id: the first provisioning request creates exactly `body.device`. */
  lemma FallbackProvisionsRawId(body: Body, script: seq<Outcome>)
    requires |script| > 0 && script[0] == ErrStatus(UnknownDevice)
    ensures var r := HandleCallback(FallbackSettings, body, script);
      |r.trace| >= 2 &&
      r.trace[1] == CreateDevice(body.device, DeviceType, DeviceDescription)
  {
  }
}

/** The relay's run-time settings and the identifier and timeout helpers that
    read them (task/main.js:13-25). */
module Configuration {

  datatype Option<+T> = None | Some(value: T)

  /** The recognised keys of the settings object. JavaScript only ever tests
      `auto_provision_resources` for truthiness, so an absent key is `false`. */
  datatype Settings = Settings(
    deviceIdPrefix: Option<string>,         // device_id_prefix
    bucketIdPrefix: Option<string>,         // bucket_id_prefix
    deviceConnectionTimeout: Option<int>,   // device_connection_timeout, seconds
    autoProvisionResources: bool            // auto_provision_resources
  )

  /** `let settings = {}` before any update. */
  const NoSettings := Settings(None, None, None, false)

  /** What a failed bootstrap fetch installs: `{auto_provision_resources: true}`. */
  const FallbackSettings := Settings(None, None, None, true)

  /** The timeout used when none (or a falsy one) is configured. */
  const DefaultTimeout := 10

  /** JavaScript truthiness of an optional string: absent and `""` are falsy. */
  predicate IsSet(prefix: Option<string>)
  {
    prefix.Some? && prefix.value != ""
  }

  /** The prefix that is effectively prepended: the configured one, or nothing. */
  function PrefixOrEmpty(prefix: Option<string>): string
  {
    match prefix
    case None => ""
    case Some(p) => p
  }

  /** `getDeviceId`: the platform-side device id for a raw Sigfox id. */
  function GetDeviceId(s: Settings, raw: string): (r: string)
    ensures |raw| <= |r|
    ensures !IsSet(s.deviceIdPrefix) <==> r == raw
  {
    if IsSet(s.deviceIdPrefix) then s.deviceIdPrefix.value + raw else raw
  }

  /** `getBucketId`: the same derivation with the independent bucket prefix. */
  function GetBucketId(s: Settings, raw: string): (r: string)
    ensures |raw| <= |r|
    ensures !IsSet(s.bucketIdPrefix) <==> r == raw
  {
    if IsSet(s.bucketIdPrefix) then s.bucketIdPrefix.value + raw else raw
  }

  /** `getDeviceTimeout`: a configured timeout of 0 is falsy and yields the default. */
  function GetDeviceTimeout(s: Settings): (r: int)
    ensures r != 0
    ensures r == DefaultTimeout || s.deviceConnectionTimeout == Some(r)
    ensures (s.deviceConnectionTimeout.Some? && s.deviceConnectionTimeout.value != 0) ==>
              r == s.deviceConnectionTimeout.value
  {
    match s.deviceConnectionTimeout
    case Some(t) => if t != 0 then t else DefaultTimeout
    case None => DefaultTimeout
  }

  /** The truthiness test is the same as always prepending the configured
      prefix (or the empty string): an empty prefix gives the raw id back. */
  lemma DeviceIdIsPrefixed(s: Settings, raw: string)
    ensures GetDeviceId(s, raw) == PrefixOrEmpty(s.deviceIdPrefix) + raw
  {
  }

  /** The bucket counterpart of DeviceIdIsPrefixed. */
  lemma BucketIdIsPrefixed(s: Settings, raw: string)
    ensures GetBucketId(s, raw) == PrefixOrEmpty(s.bucketIdPrefix) + raw
  {
  }

  /** Under fixed settings distinct raw ids never collide on the platform. */
  lemma DeviceIdInjective(s: Settings, a: string, b: string)
    ensures GetDeviceId(s, a) == GetDeviceId(s, b) <==> a == b
  {
    if GetDeviceId(s, a) == GetDeviceId(s, b) {
      DeviceIdIsPrefixed(s, a);
      DeviceIdIsPrefixed(s, b);
      var p := PrefixOrEmpty(s.deviceIdPrefix);
      assert a == (p + a)[|p|..];
      assert b == (p + b)[|p|..];
    }
  }

  /** The bucket counterpart of DeviceIdInjective. */
  lemma BucketIdInjective(s: Settings, a: string, b: string)
    ensures GetBucketId(s, a) == GetBucketId(s, b) <==> a == b
  {
    if GetBucketId(s, a) == GetBucketId(s, b) {
      BucketIdIsPrefixed(s, a);
      BucketIdIsPrefixed(s, b);
      var p := PrefixOrEmpty(s.bucketIdPrefix);
      assert a == (p + a)[|p|..];
      assert b == (p + b)[|p|..];
    }
  }

  /** After a failed bootstrap no prefix is applied, the timeout is the
      default and auto-provisioning is on. */
  lemma FallbackBehaviour(raw: string)
    ensures GetDeviceId(FallbackSettings, raw) == raw
    ensures GetBucketId(FallbackSettings, raw) == raw
    ensures GetDeviceTimeout(FallbackSettings) == DefaultTimeout
    ensures FallbackSettings.autoProvisionResources
  {
  }
}

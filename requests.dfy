/** The outbound requests the relay issues to the device-management platform,
    as abstract records (task/main.js:27-79). Host, user, bearer token and the
    HTTP transport are not modelled: each request keeps only the id it puts in
    its URL and the body it sends. */
module Requests {
  import opened Configuration

  /** A parsed JSON value, as `express.json()` delivers it. */
  datatype Json =
    | JNull
    | JBool(b: bool)
    | JNumber(n: int)
    | JString(s: string)
    | JArray(items: seq<Json>)
    | JObject(members: map<string, Json>)

  /** The body of an inbound Sigfox callback: its `device` member (the raw
      hexadecimal id) and every other member, kept opaque. */
  datatype Body = Body(device: string, others: map<string, Json>)

  const DeviceType := "HTTP"
  const DeviceDescription := "Auto provisioned Sigfox Device"
  const BucketDescription := "Auto provisioned Sigfox Bucket"
  const BucketSource := "api"

  datatype Request =
    /** POST /v3/users/{user}/devices/{deviceId}/callback with the payload. */
    | Forward(deviceId: string, payload: Body)
    /** POST /v1/users/{user}/devices. */
    | CreateDevice(newDeviceId: string, deviceType: string, deviceDescription: string)
    /** POST /v1/users/{user}/buckets. */
    | CreateBucket(bucket: string, name: string, description: string, enabled: bool, source: string)
    /** PUT /v3/users/{user}/devices/{deviceId}/callback. */
    | BindCallback(deviceId: string, writeBucket: string, timeout: int)

  /** `callDeviceCallback(deviceId, payload)`: the id in the URL is prefixed. */
  function ForwardRequest(s: Settings, raw: string, payload: Body): (r: Request)
    ensures r.Forward? && r.payload == payload
    ensures r.deviceId == raw <==> !IsSet(s.deviceIdPrefix)
  {
    Forward(GetDeviceId(s, raw), payload)
  }

  /** `createDevice(deviceId)`: the new device carries the prefixed id. */
  function CreateDeviceRequest(s: Settings, raw: string): (r: Request)
    ensures r.CreateDevice? && r.deviceType == DeviceType
    ensures r.newDeviceId == raw <==> !IsSet(s.deviceIdPrefix)
  {
    CreateDevice(GetDeviceId(s, raw), DeviceType, DeviceDescription)
  }

  /** `createBucket(bucketId)`: bucket id and name are both the prefixed id. */
  function CreateBucketRequest(s: Settings, raw: string): (r: Request)
    ensures r.CreateBucket? && r.enabled && r.source == BucketSource
    ensures r.bucket == r.name
    ensures r.bucket == raw <==> !IsSet(s.bucketIdPrefix)
  {
    CreateBucket(GetBucketId(s, raw), GetBucketId(s, raw), BucketDescription, true, BucketSource)
  }

  /** `setDeviceCallback(deviceId, bucketId)`: the URL takes `deviceId` as
      given, with no prefix, while the write bucket is prefixed. */
  function BindCallbackRequest(s: Settings, deviceId: string, bucketRaw: string): (r: Request)
    ensures r.BindCallback? && r.deviceId == deviceId && r.timeout != 0
    ensures r.writeBucket == bucketRaw <==> !IsSet(s.bucketIdPrefix)
  {
    BindCallback(deviceId, GetBucketId(s, bucketRaw), GetDeviceTimeout(s))
  }

  /** The ids each request carries, in terms of the configured prefixes: the
      device prefix for the forward and the new device, the bucket prefix for
      the bucket and the write bucket, and none for the binding URL. */
  lemma RequestIds(s: Settings, raw: string, payload: Body)
    ensures ForwardRequest(s, raw, payload).deviceId == PrefixOrEmpty(s.deviceIdPrefix) + raw
    ensures CreateDeviceRequest(s, raw).newDeviceId == PrefixOrEmpty(s.deviceIdPrefix) + raw
    ensures CreateBucketRequest(s, raw).bucket == PrefixOrEmpty(s.bucketIdPrefix) + raw
    ensures BindCallbackRequest(s, raw, raw).deviceId == raw
    ensures BindCallbackRequest(s, raw, raw).writeBucket == PrefixOrEmpty(s.bucketIdPrefix) + raw
  {
    DeviceIdIsPrefixed(s, raw);
    BucketIdIsPrefixed(s, raw);
  }
}

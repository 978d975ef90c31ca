/** The request-id check of internal/api/helper/validation.go: the x-request-id
    must be a version-7 UUID (section 5.7 of RFC 9562) and, when the time check
    is enabled, its 48-bit millisecond timestamp must lie within five minutes
    of the current time, either way, both ends included. */
module Validation {
  import opened Wrappers

  newtype Byte = x: int | 0 <= x < 256

  /** The 16 bytes of a parsed UUID. */
  type Uuid = u: seq<Byte> | |u| == 16 witness seq(16, _ => 0)

  /** uuid.Version: the high nibble of byte 6 (section 4.2 of RFC 9562). */
  function Version(u: Uuid): (v: int)
    ensures 0 <= v < 16
  {
    (u[6] / 16) as int
  }

  function Pow256(n: nat): (p: nat)
    ensures p >= 1
  {
    if n == 0 then 1 else 256 * Pow256(n - 1)
  }

  /** The unsigned big-endian value of a byte string. */
  function BigEndian(bs: seq<Byte>): (v: nat)
    ensures v < Pow256(|bs|)
  {
    if bs == [] then 0 else BigEndian(bs[..|bs| - 1]) * 256 + bs[|bs| - 1] as int
  }

  /** The `n`-byte big-endian encoding of `v`. */
  function EncodeBigEndian(v: nat, n: nat): (bs: seq<Byte>)
    requires v < Pow256(n)
    ensures |bs| == n
  {
    if n == 0 then [] else EncodeBigEndian(v / 256, n - 1) + [(v % 256) as Byte]
  }

  lemma {:induction false} DecodeEncode(v: nat, n: nat)
    requires v < Pow256(n)
    ensures BigEndian(EncodeBigEndian(v, n)) == v
  {
    if n > 0 {
      var bs := EncodeBigEndian(v, n);
      assert bs[..n - 1] == EncodeBigEndian(v / 256, n - 1);
      DecodeEncode(v / 256, n - 1);
    }
  }

  lemma {:induction false} EncodeDecode(bs: seq<Byte>)
    ensures EncodeBigEndian(BigEndian(bs), |bs|) == bs
  {
    if bs != [] {
      var init, last := bs[..|bs| - 1], bs[|bs| - 1];
      var v := BigEndian(bs);
      assert v / 256 == BigEndian(init) && v % 256 == last as int;
      EncodeDecode(init);
      assert bs == init + [last];
    }
  }

  /** unix_ts_ms: bytes 0 to 5 read as one big-endian number. The source ORs
      each byte shifted into its own 8-bit lane, which is this sum. */
  function TimestampMs(u: Uuid): (t: nat)
    ensures t < Pow256(6)
  {
    BigEndian(u[..6])
  }

  /** The timestamp is the sum of the six bytes shifted into their lanes:
      byte 0 by 40 bits down to byte 5 unshifted. */
  lemma TimestampLanes(u: Uuid)
    ensures TimestampMs(u) == u[0] as int * 0x100_0000_0000 + u[1] as int * 0x1_0000_0000 +
      u[2] as int * 0x100_0000 + u[3] as int * 0x1_0000 + u[4] as int * 0x100 + u[5] as int
  {
    var b0, b1, b2, b3, b4, b5 := u[0], u[1], u[2], u[3], u[4], u[5];
    assert u[..6] == [b0, b1, b2, b3, b4, b5];
    assert [b0, b1, b2, b3, b4, b5][..5] == [b0, b1, b2, b3, b4];
    assert [b0, b1, b2, b3, b4][..4] == [b0, b1, b2, b3];
    assert [b0, b1, b2, b3][..3] == [b0, b1, b2];
    assert [b0, b1, b2][..2] == [b0, b1];
    assert [b0, b1][..1] == [b0];
    assert [b0][..0] == [];
    assert BigEndian([b0]) == b0 as int;
    assert BigEndian([b0, b1]) == b0 as int * 0x100 + b1 as int;
    assert BigEndian([b0, b1, b2]) == b0 as int * 0x1_0000 + b1 as int * 0x100 + b2 as int;
    assert BigEndian([b0, b1, b2, b3]) ==
      b0 as int * 0x100_0000 + b1 as int * 0x1_0000 + b2 as int * 0x100 + b3 as int;
    assert BigEndian([b0, b1, b2, b3, b4]) ==
      b0 as int * 0x1_0000_0000 + b1 as int * 0x100_0000 + b2 as int * 0x1_0000 + b3 as int * 0x100 + b4 as int;
  }

  /** Go's time.Duration unit is the nanosecond; the window is 5 * time.Minute. */
  const NanosPerMilli: int := 1_000_000
  const FiveMinutes: int := 5 * 60 * 1_000_000_000

  /** now.Sub(timestamp) lies within [-5 min, +5 min]. `nowNanos` is the
      current Unix time in nanoseconds. */
  predicate WithinWindow(timestampMs: int, nowNanos: int) {
    var diff := nowNanos - timestampMs * NanosPerMilli;
    -FiveMinutes <= diff <= FiveMinutes
  }

  /** uuidV7Verify; `parse` is uuid.Parse, whose string grammar is not part of
      this model, and `nowNanos` is time.Now. */
  function UuidV7Verify(id: string, verifyTimestamp: bool, parse: string -> Option<Uuid>, nowNanos: int): (ok: bool)
    ensures ok ==> parse(id).Some? && Version(parse(id).value) == 7
    ensures parse(id).None? ==> !ok
    ensures parse(id).Some? && Version(parse(id).value) == 7 && !verifyTimestamp ==> ok
    ensures verifyTimestamp && parse(id).Some? && Version(parse(id).value) == 7 ==>
      (ok <==> WithinWindow(TimestampMs(parse(id).value), nowNanos))
  {
    match parse(id)
    case None => false
    case Some(u) =>
      if Version(u) != 7 then false
      else if !verifyTimestamp then true
      else
        var diff := nowNanos - TimestampMs(u) * NanosPerMilli;
        !(diff < -FiveMinutes || diff > FiveMinutes)
  }

  /** A version-7 UUID laid out as section 5.7 of RFC 9562 prescribes, stamped
      with `ts`: its timestamp reads back as `ts`, and it passes the check with
      the time check on exactly when `ts` lies in the window around now. */
  lemma FreshUuidV7Accepted(ts: nat, randA: Byte, rest: seq<Byte>, id: string,
                            parse: string -> Option<Uuid>, nowNanos: int)
    requires ts < Pow256(6) && randA < 16 && |rest| == 9
    requires parse(id) == Some(EncodeBigEndian(ts, 6) + [0x70 as Byte + randA] + rest)
    ensures TimestampMs(parse(id).value) == ts
    ensures UuidV7Verify(id, false, parse, nowNanos)
    ensures UuidV7Verify(id, true, parse, nowNanos) <==> WithinWindow(ts, nowNanos)
  {
    var u := parse(id).value;
    assert u[..6] == EncodeBigEndian(ts, 6);
    DecodeEncode(ts, 6);
    assert u[6] == 0x70 as Byte + randA;
  }

  /** A UUID of any other version is refused whatever its timestamp. */
  lemma OtherVersionsRefused(id: string, verifyTimestamp: bool, parse: string -> Option<Uuid>, nowNanos: int)
    requires parse(id).Some? && parse(id).value[6] / 16 != 7
    ensures !UuidV7Verify(id, verifyTimestamp, parse, nowNanos)
  {
  }

  /** The inclusive window: a stamp exactly five minutes old, or five minutes
      ahead, is accepted; one millisecond further is not. */
  lemma WindowIsInclusive(ts: int)
    ensures WithinWindow(ts, ts * NanosPerMilli + FiveMinutes)
    ensures WithinWindow(ts, ts * NanosPerMilli - FiveMinutes)
    ensures !WithinWindow(ts - 1, ts * NanosPerMilli + FiveMinutes)
    ensures !WithinWindow(ts + 1, ts * NanosPerMilli - FiveMinutes)
  {
  }

  // ---------------------------------------------------------------------------
  // VerifyRequest
  // ---------------------------------------------------------------------------

  const InvalidRequestIdError: string :=
    "请使用官方 CoStrict 客户端访问模型服务 | Please use the official CoStrict client to access the model service"

  datatype Identity = Identity(requestId: string)

  /** The service context's request-verify setting, when a context is present. */
  datatype ServiceContext = ServiceContext(enabledTimeVerify: bool)

  /** VerifyRequest: no identity skips the check; otherwise the request id must
      pass uuidV7Verify, with the time check on only when a service context is
      present and enables it. */
  function VerifyRequest(identity: Option<Identity>, svcCtx: Option<ServiceContext>,
                         parse: string -> Option<Uuid>, nowNanos: int): (r: Option<string>)
    ensures identity.None? ==> r.None?
    ensures r.Some? ==> r.value == InvalidRequestIdError
    ensures identity.Some? ==>
      (r.None? <==> UuidV7Verify(identity.value.requestId, svcCtx.Some? && svcCtx.value.enabledTimeVerify, parse, nowNanos))
  {
    if identity.None? then None
    else
      var verifyTime := if svcCtx.Some? then svcCtx.value.enabledTimeVerify else false;
      if !UuidV7Verify(identity.value.requestId, verifyTime, parse, nowNanos) then Some(InvalidRequestIdError)
      else None
  }

  /** Without a service context, or with the time check disabled, any version-7
      request id passes, however old. */
  lemma TimeCheckOnlyWhenEnabled(identity: Identity, svcCtx: Option<ServiceContext>,
                                 parse: string -> Option<Uuid>, nowNanos: int)
    requires svcCtx.None? || !svcCtx.value.enabledTimeVerify
    requires parse(identity.requestId).Some? && Version(parse(identity.requestId).value) == 7
    ensures VerifyRequest(Some(identity), svcCtx, parse, nowNanos).None?
  {
  }
}

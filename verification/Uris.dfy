/** Result types shared by the whole model. */
module Wrappers {
  datatype Option<+T> = None | Some(value: T)

  datatype Result<+T, +E> = Ok(value: T) | Err(error: E)
}

/** uProtocol addresses, the packing helpers of utils.rs, and the classification of filters. */
module Uris {
  import opened Wrappers

  type u8 = x: int | 0 <= x < 0x100
  type u16 = x: int | 0 <= x < 0x1_0000
  type u32 = x: int | 0 <= x < 0x1_0000_0000

  datatype UUri = UUri(authority: string, ueId: u32, version: u32, resource: u32)

  const ANY_URI := UUri("*", 0xFFFF_FFFF, 0xFF, 0xFFFF)

  /** `value >> 16` and `value & 0xFFFF`. */
  function SplitU32ToU16(value: u32): (u16, u16) {
    (value / 0x1_0000, value % 0x1_0000)
  }

  /** The last byte of split_u32_to_u8, the only one the callers use. */
  function LowByte(value: u32): u8 {
    value % 0x100
  }

  /** `(high << 16) | low`, used for request ids and for point-to-point entity ids. */
  function Pack(high: u16, low: u16): u32 {
    high * 0x1_0000 + low
  }

  function CreateRequestId(client: u16, session: u16): u32 {
    Pack(client, session)
  }

  function AnyUriFixedAuthorityId(authority: string, ueId: u32): UUri {
    UUri(authority, ueId, 0xFF, 0xFFFF)
  }

  /** Packing and splitting are mutual inverses, so a request id names one (client, session). */
  lemma PackSplitInverse(high: u16, low: u16, value: u32)
    ensures SplitU32ToU16(Pack(high, low)) == (high, low)
    ensures Pack(SplitU32ToU16(value).0, SplitU32ToU16(value).1) == value
    ensures CreateRequestId(high, low) == value <==> SplitU32ToU16(value) == (high, low)
  {
    assert (high * 0x1_0000 + low) / 0x1_0000 == high;
    assert (high * 0x1_0000 + low) % 0x1_0000 == low;
  }

  predicate WildcardAuthority(u: UUri) { u.authority == "*" }
  predicate WildcardEntityType(u: UUri) { u.ueId % 0x1_0000 == 0xFFFF }
  predicate WildcardEntityInstance(u: UUri) { u.ueId / 0x1_0000 == 0xFFFF }
  predicate WildcardVersion(u: UUri) { u.version == 0xFF }
  predicate WildcardResource(u: UUri) { u.resource == 0xFFFF }

  datatype RegistrationType = Publish | Request | Response | AllPointToPoint

  /** One side of the uStreamer pattern: a fixed authority and a wildcard everywhere else. */
  predicate StreamerSide(u: UUri) {
    !WildcardAuthority(u) && WildcardEntityType(u) && WildcardEntityInstance(u)
    && WildcardVersion(u) && WildcardResource(u)
  }

  function DetermineType(source: UUri, sink: Option<UUri>): RegistrationType {
    match sink
    case None => Publish
    case Some(k) =>
      if StreamerSide(source) && StreamerSide(k) then AllPointToPoint
      else if k.resource == 0 then Response
      else Request
  }

  /** The classification in numbers: when each type is returned. */
  lemma TypeExactly(source: UUri, sink: Option<UUri>)
    ensures DetermineType(source, sink) == AllPointToPoint <==>
      && sink.Some?
      && source.authority != "*" && source.ueId == 0xFFFF_FFFF && source.version == 0xFF && source.resource == 0xFFFF
      && sink.value.authority != "*" && sink.value.ueId == 0xFFFF_FFFF
      && sink.value.version == 0xFF && sink.value.resource == 0xFFFF
    ensures DetermineType(source, sink) == Publish <==> sink.None?
    ensures DetermineType(source, sink) == Response <==> sink.Some? && sink.value.resource == 0
    ensures DetermineType(source, sink) == Request <==>
      sink.Some? && sink.value.resource != 0 && DetermineType(source, sink) != AllPointToPoint
  {
    HalvesFull(source.ueId);
    if sink.Some? {
      HalvesFull(sink.value.ueId);
    }
  }

  lemma HalvesFull(id: u32)
    ensures id % 0x1_0000 == 0xFFFF && id / 0x1_0000 == 0xFFFF <==> id == 0xFFFF_FFFF
  {
  }

  /** The sink filter a point-to-point registration derives from one configured service. */
  function ServiceSink(authority: string, service: u16, instance: u16): UUri {
    AnyUriFixedAuthorityId(authority, Pack(instance, service))
  }

  /**
   * The sink filter of a service in numbers: the instance in the high half of the entity id, the
   * service in the low half, a wildcard version and resource; the source filter beside it is all
   * wildcards.
   */
  lemma ServiceFilters(authority: string, service: u16, instance: u16)
    ensures ServiceSink(authority, service, instance) == UUri(authority, instance * 0x1_0000 + service, 0xFF, 0xFFFF)
    ensures SplitU32ToU16(ServiceSink(authority, service, instance).ueId) == (instance, service)
    ensures ANY_URI == UUri("*", 0xFFFF_FFFF, 0xFF, 0xFFFF)
    ensures WildcardAuthority(ANY_URI) && WildcardEntityType(ANY_URI) && WildcardEntityInstance(ANY_URI)
            && WildcardVersion(ANY_URI) && WildcardResource(ANY_URI)
  {
    PackSplitInverse(instance, service, 0);
  }

  /** Distinct configured services get distinct sink filters, and every one is a Request filter. */
  lemma ServiceSinkInjective(authority: string, s1: u16, i1: u16, s2: u16, i2: u16)
    ensures ServiceSink(authority, s1, i1) == ServiceSink(authority, s2, i2) <==> s1 == s2 && i1 == i2
    ensures DetermineType(ANY_URI, Some(ServiceSink(authority, s1, i1))) == Request
  {
    PackSplitInverse(i1, s1, 0);
    PackSplitInverse(i2, s2, 0);
  }

  /**
   * Swapping the ends of a Request message gives the filter of its response. Whatever the two
   * URIs are, the swapped filter is never AllPointToPoint, and it is a Response filter exactly
   * when the message source has resource id 0.
   */
  lemma SwappedRequestIsResponse(source: UUri, sink: UUri)
    requires DetermineType(source, Some(sink)) == Request
    ensures DetermineType(sink, Some(source)) != AllPointToPoint
    ensures DetermineType(sink, Some(source)) == Response <==> source.resource == 0
  {
  }
}

/** SIIT address-pair translation (src/xlat_addr_siit.c): each operation
    maps the source/destination pair of a packet between IPv4 and IPv6 by a
    fixed composition of the primitives of UtilsXlatAddr, stopping at the
    first primitive that fails.

    The translator's own side uses the "local" primitive: in the 4to6
    direction that is the source (the packet comes from the IPv4 side the
    translator stands for), in the 6to4 direction the destination. Packets
    embedded in ICMP errors use the shared ICMP-error primitive for both
    addresses. */
module XlatAddrSiit {
  import opened Wrappers
  import opened IpAddresses
  import opened UtilsXlatAddr

  datatype AddressPair<A> = AddressPair(src: A, dst: A)

  /** 4to6, main packet: the pair is translated exactly when both
      primitives succeed; the source goes through the local primitive and
      the destination through the plain SIIT prefix primitive. */
  function AddrPair4to6ForMainPacket(ctx: AddressTranslationContext, src: IPv4Address, dst: IPv4Address)
    : (r: Option<AddressPair<IPv6Address>>)
    ensures r.Some? <==>
      ctx.siit4to6PrefixForMainPacketLocal(src).Some? && ctx.siit4to6PrefixForMainPacket(dst).Some?
    ensures r.Some? ==>
      r.value.src == ctx.siit4to6PrefixForMainPacketLocal(src).value &&
      r.value.dst == ctx.siit4to6PrefixForMainPacket(dst).value
  {
    match ctx.siit4to6PrefixForMainPacketLocal(src)
    case None => None
    case Some(s) =>
      match ctx.siit4to6PrefixForMainPacket(dst)
      case None => None
      case Some(d) => Some(AddressPair(s, d))
  }

  /** 4to6, packet inside an ICMP error: never fails; both addresses go
      through the shared ICMP-error primitive. */
  function AddrPair4to6ForIcmpErrorPacket(ctx: AddressTranslationContext, src: IPv4Address, dst: IPv4Address)
    : (r: Option<AddressPair<IPv6Address>>)
    ensures r.Some?
    ensures r.value.src == ctx.nat64ClatSiit4to6PrefixForIcmpErrorPacket(src)
    ensures r.value.dst == ctx.nat64ClatSiit4to6PrefixForIcmpErrorPacket(dst)
  {
    Some(AddressPair(ctx.nat64ClatSiit4to6PrefixForIcmpErrorPacket(src),
                     ctx.nat64ClatSiit4to6PrefixForIcmpErrorPacket(dst)))
  }

  /** 6to4, main packet: the mirror image of the 4to6 direction; the source
      goes through the plain SIIT prefix primitive and the destination
      through the local one. */
  function AddrPair6to4ForMainPacket(ctx: AddressTranslationContext, src: IPv6Address, dst: IPv6Address)
    : (r: Option<AddressPair<IPv4Address>>)
    ensures r.Some? <==>
      ctx.siit6to4PrefixForMainPacket(src).Some? && ctx.siit6to4PrefixForMainPacketLocal(dst).Some?
    ensures r.Some? ==>
      r.value.src == ctx.siit6to4PrefixForMainPacket(src).value &&
      r.value.dst == ctx.siit6to4PrefixForMainPacketLocal(dst).value
  {
    match ctx.siit6to4PrefixForMainPacket(src)
    case None => None
    case Some(s) =>
      match ctx.siit6to4PrefixForMainPacketLocal(dst)
      case None => None
      case Some(d) => Some(AddressPair(s, d))
  }

  /** 6to4, packet inside an ICMP error: succeeds exactly when the shared
      ICMP-error primitive succeeds on both addresses. */
  function AddrPair6to4ForIcmpErrorPacket(ctx: AddressTranslationContext, src: IPv6Address, dst: IPv6Address)
    : (r: Option<AddressPair<IPv4Address>>)
    ensures r.Some? <==>
      ctx.nat64ClatSiit6to4PrefixForIcmpErrorPacket(src).Some? &&
      ctx.nat64ClatSiit6to4PrefixForIcmpErrorPacket(dst).Some?
    ensures r.Some? ==>
      r.value.src == ctx.nat64ClatSiit6to4PrefixForIcmpErrorPacket(src).value &&
      r.value.dst == ctx.nat64ClatSiit6to4PrefixForIcmpErrorPacket(dst).value
  {
    match ctx.nat64ClatSiit6to4PrefixForIcmpErrorPacket(src)
    case None => None
    case Some(s) =>
      match ctx.nat64ClatSiit6to4PrefixForIcmpErrorPacket(dst)
      case None => None
      case Some(d) => Some(AddressPair(s, d))
  }

  /** xlat_addr_siit__translate_4to6_addr_for_main_packet: writes the
      output buffers in place. When the source primitive fails, the
      destination primitive is never called, so the destination buffer
      keeps its contents; when only the destination primitive fails, the
      source buffer already holds the translated source. */
  method Translate4to6AddrForMainPacket(
    ctx: AddressTranslationContext,
    inSrcIpv4: array<byte>, inDstIpv4: array<byte>,
    outSrcIpv6: array<byte>, outDstIpv6: array<byte>)
    returns (ok: bool)
    requires inSrcIpv4.Length == 4 && inDstIpv4.Length == 4
    requires outSrcIpv6.Length == 16 && outDstIpv6.Length == 16
    modifies outSrcIpv6, outDstIpv6
    ensures inSrcIpv4[..] == old(inSrcIpv4[..]) && inDstIpv4[..] == old(inDstIpv4[..])
    ensures ok <==> AddrPair4to6ForMainPacket(ctx, inSrcIpv4[..], inDstIpv4[..]).Some?
    ensures ok ==> outDstIpv6[..] == AddrPair4to6ForMainPacket(ctx, inSrcIpv4[..], inDstIpv4[..]).value.dst
    ensures ok && outSrcIpv6 != outDstIpv6 ==>
      outSrcIpv6[..] == AddrPair4to6ForMainPacket(ctx, inSrcIpv4[..], inDstIpv4[..]).value.src
    ensures ctx.siit4to6PrefixForMainPacketLocal(inSrcIpv4[..]).None? && outSrcIpv6 != outDstIpv6 ==>
      outDstIpv6[..] == old(outDstIpv6[..])
    ensures ctx.siit4to6PrefixForMainPacketLocal(inSrcIpv4[..]).Some? && outSrcIpv6 != outDstIpv6 ==>
      outSrcIpv6[..] == ctx.siit4to6PrefixForMainPacketLocal(inSrcIpv4[..]).value
  {
    ok := Siit4to6PrefixForMainPacketLocal(ctx, inSrcIpv4, outSrcIpv6);
    if !ok {
      return;
    }
    ok := Siit4to6PrefixForMainPacket(ctx, inDstIpv4, outDstIpv6);
  }

  /** xlat_addr_siit__translate_4to6_addr_for_icmp_error_packet: always
      reports success. */
  method Translate4to6AddrForIcmpErrorPacket(
    ctx: AddressTranslationContext,
    inSrcIpv4: array<byte>, inDstIpv4: array<byte>,
    outSrcIpv6: array<byte>, outDstIpv6: array<byte>)
    returns (ok: bool)
    requires inSrcIpv4.Length == 4 && inDstIpv4.Length == 4
    requires outSrcIpv6.Length == 16 && outDstIpv6.Length == 16
    modifies outSrcIpv6, outDstIpv6
    ensures inSrcIpv4[..] == old(inSrcIpv4[..]) && inDstIpv4[..] == old(inDstIpv4[..])
    ensures ok && AddrPair4to6ForIcmpErrorPacket(ctx, inSrcIpv4[..], inDstIpv4[..]).Some?
    ensures outDstIpv6[..] == AddrPair4to6ForIcmpErrorPacket(ctx, inSrcIpv4[..], inDstIpv4[..]).value.dst
    ensures outSrcIpv6 != outDstIpv6 ==>
      outSrcIpv6[..] == AddrPair4to6ForIcmpErrorPacket(ctx, inSrcIpv4[..], inDstIpv4[..]).value.src
  {
    Nat64ClatSiit4to6PrefixForIcmpErrorPacket(ctx, inSrcIpv4, outSrcIpv6);
    Nat64ClatSiit4to6PrefixForIcmpErrorPacket(ctx, inDstIpv4, outDstIpv6);
    ok := true;
  }

  /** xlat_addr_siit__translate_6to4_addr_for_main_packet. */
  method Translate6to4AddrForMainPacket(
    ctx: AddressTranslationContext,
    inSrcIpv6: array<byte>, inDstIpv6: array<byte>,
    outSrcIpv4: array<byte>, outDstIpv4: array<byte>)
    returns (ok: bool)
    requires inSrcIpv6.Length == 16 && inDstIpv6.Length == 16
    requires outSrcIpv4.Length == 4 && outDstIpv4.Length == 4
    modifies outSrcIpv4, outDstIpv4
    ensures inSrcIpv6[..] == old(inSrcIpv6[..]) && inDstIpv6[..] == old(inDstIpv6[..])
    ensures ok <==> AddrPair6to4ForMainPacket(ctx, inSrcIpv6[..], inDstIpv6[..]).Some?
    ensures ok ==> outDstIpv4[..] == AddrPair6to4ForMainPacket(ctx, inSrcIpv6[..], inDstIpv6[..]).value.dst
    ensures ok && outSrcIpv4 != outDstIpv4 ==>
      outSrcIpv4[..] == AddrPair6to4ForMainPacket(ctx, inSrcIpv6[..], inDstIpv6[..]).value.src
    ensures ctx.siit6to4PrefixForMainPacket(inSrcIpv6[..]).None? && outSrcIpv4 != outDstIpv4 ==>
      outDstIpv4[..] == old(outDstIpv4[..])
    ensures ctx.siit6to4PrefixForMainPacket(inSrcIpv6[..]).Some? && outSrcIpv4 != outDstIpv4 ==>
      outSrcIpv4[..] == ctx.siit6to4PrefixForMainPacket(inSrcIpv6[..]).value
  {
    ok := Siit6to4PrefixForMainPacket(ctx, inSrcIpv6, outSrcIpv4);
    if !ok {
      return;
    }
    ok := Siit6to4PrefixForMainPacketLocal(ctx, inDstIpv6, outDstIpv4);
  }

  /** xlat_addr_siit__translate_6to4_addr_for_icmp_error_packet. */
  method Translate6to4AddrForIcmpErrorPacket(
    ctx: AddressTranslationContext,
    inSrcIpv6: array<byte>, inDstIpv6: array<byte>,
    outSrcIpv4: array<byte>, outDstIpv4: array<byte>)
    returns (ok: bool)
    requires inSrcIpv6.Length == 16 && inDstIpv6.Length == 16
    requires outSrcIpv4.Length == 4 && outDstIpv4.Length == 4
    modifies outSrcIpv4, outDstIpv4
    ensures inSrcIpv6[..] == old(inSrcIpv6[..]) && inDstIpv6[..] == old(inDstIpv6[..])
    ensures ok <==> AddrPair6to4ForIcmpErrorPacket(ctx, inSrcIpv6[..], inDstIpv6[..]).Some?
    ensures ok ==> outDstIpv4[..] == AddrPair6to4ForIcmpErrorPacket(ctx, inSrcIpv6[..], inDstIpv6[..]).value.dst
    ensures ok && outSrcIpv4 != outDstIpv4 ==>
      outSrcIpv4[..] == AddrPair6to4ForIcmpErrorPacket(ctx, inSrcIpv6[..], inDstIpv6[..]).value.src
    ensures ctx.nat64ClatSiit6to4PrefixForIcmpErrorPacket(inSrcIpv6[..]).None? && outSrcIpv4 != outDstIpv4 ==>
      outDstIpv4[..] == old(outDstIpv4[..])
    ensures ctx.nat64ClatSiit6to4PrefixForIcmpErrorPacket(inSrcIpv6[..]).Some? && outSrcIpv4 != outDstIpv4 ==>
      outSrcIpv4[..] == ctx.nat64ClatSiit6to4PrefixForIcmpErrorPacket(inSrcIpv6[..]).value
  {
    ok := Nat64ClatSiit6to4PrefixForIcmpErrorPacket(ctx, inSrcIpv6, outSrcIpv4);
    if !ok {
      return;
    }
    ok := Nat64ClatSiit6to4PrefixForIcmpErrorPacket(ctx, inDstIpv6, outDstIpv4);
  }

  /** The round trip of a SIIT primitive pair. The primitives' bodies are
      not part of this model, so this is a hypothesis, not a fact: each 6to4
      primitive undoes the 4to6 primitive of the same kind. */
  ghost predicate SiitPrimitivesInvertible(ctx: AddressTranslationContext)
  {
    (forall a: IPv4Address :: ctx.siit4to6PrefixForMainPacket(a).Some? ==>
       ctx.siit6to4PrefixForMainPacket(ctx.siit4to6PrefixForMainPacket(a).value) == Some(a)) &&
    (forall a: IPv4Address :: ctx.siit4to6PrefixForMainPacketLocal(a).Some? ==>
       ctx.siit6to4PrefixForMainPacketLocal(ctx.siit4to6PrefixForMainPacketLocal(a).value) == Some(a))
  }

  /** Because the 6to4 direction applies the local primitive to the
      destination where the 4to6 direction applies it to the source, a
      reply to a translated packet (its addresses swapped) translates back
      to the original pair swapped, provided the primitives invert each
      other. */
  lemma MainPacketReplyRoundTrip(ctx: AddressTranslationContext, src: IPv4Address, dst: IPv4Address)
    requires SiitPrimitivesInvertible(ctx)
    requires AddrPair4to6ForMainPacket(ctx, src, dst).Some?
    ensures AddrPair6to4ForMainPacket(ctx,
              AddrPair4to6ForMainPacket(ctx, src, dst).value.dst,
              AddrPair4to6ForMainPacket(ctx, src, dst).value.src)
            == Some(AddressPair(dst, src))
  {
  }
}

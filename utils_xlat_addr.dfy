/** The per-address translation primitives declared in src/utils_xlat_addr.h.

    Their bodies are not part of this model. Each primitive is therefore an
    uninterpreted function carried by the translation context: the model
    fixes only what the declarations state (which direction, fixed 4- and
    16-byte widths, whether a `bool` reports failure), and the methods below
    give each primitive its C shape: the context and the input address are
    read-only, and the only effect is writing the output buffer. */
module UtilsXlatAddr {
  import opened Wrappers
  import opened IpAddresses

  /** The per-thread context as far as the primitives see it: the behaviour
      of each primitive under the context's configuration. `None` is the
      `false` return of a primitive; the 4to6 ICMP-error primitive returns
      `void` in the source and so has no failure case here. */
  datatype AddressTranslationContext = AddressTranslationContext(
    nat64Clat6to4TranslatorIp: IPv6Address -> Option<IPv4Address>,
    nat64Clat4to6TranslatorIp: IPv4Address -> Option<IPv6Address>,
    nat64Clat6to4PrefixForMainPacket: IPv6Address -> Option<IPv4Address>,
    nat64Clat4to6PrefixForMainPacket: IPv4Address -> Option<IPv6Address>,
    siit6to4PrefixForMainPacket: IPv6Address -> Option<IPv4Address>,
    siit4to6PrefixForMainPacket: IPv4Address -> Option<IPv6Address>,
    siit6to4PrefixForMainPacketLocal: IPv6Address -> Option<IPv4Address>,
    siit4to6PrefixForMainPacketLocal: IPv4Address -> Option<IPv6Address>,
    nat64ClatSiit6to4PrefixForIcmpErrorPacket: IPv6Address -> Option<IPv4Address>,
    nat64ClatSiit4to6PrefixForIcmpErrorPacket: IPv4Address -> IPv6Address)

  /** Writes a fallible primitive's result into the caller's buffer. On
      failure the buffer is left alone here, but no primitive promises
      anything about it, so nothing is stated. */
  method StoreResult(r: Option<seq<byte>>, out: array<byte>) returns (ok: bool)
    requires r.Some? ==> |r.value| == out.Length
    modifies out
    ensures ok <==> r.Some?
    ensures ok ==> out[..] == r.value
  {
    ok := r.Some?;
    if ok {
      forall i | 0 <= i < out.Length {
        out[i] := r.value[i];
      }
    }
  }

  method Nat64Clat6to4TranslatorIp(ctx: AddressTranslationContext, inIpv6: array<byte>, outIpv4: array<byte>)
    returns (ok: bool)
    requires inIpv6.Length == 16 && outIpv4.Length == 4
    modifies outIpv4
    ensures inIpv6[..] == old(inIpv6[..])
    ensures ok <==> ctx.nat64Clat6to4TranslatorIp(inIpv6[..]).Some?
    ensures ok ==> outIpv4[..] == ctx.nat64Clat6to4TranslatorIp(inIpv6[..]).value
  {
    ok := StoreResult(ctx.nat64Clat6to4TranslatorIp(inIpv6[..]), outIpv4);
  }

  method Nat64Clat4to6TranslatorIp(ctx: AddressTranslationContext, inIpv4: array<byte>, outIpv6: array<byte>)
    returns (ok: bool)
    requires inIpv4.Length == 4 && outIpv6.Length == 16
    modifies outIpv6
    ensures inIpv4[..] == old(inIpv4[..])
    ensures ok <==> ctx.nat64Clat4to6TranslatorIp(inIpv4[..]).Some?
    ensures ok ==> outIpv6[..] == ctx.nat64Clat4to6TranslatorIp(inIpv4[..]).value
  {
    ok := StoreResult(ctx.nat64Clat4to6TranslatorIp(inIpv4[..]), outIpv6);
  }

  method Nat64Clat6to4PrefixForMainPacket(ctx: AddressTranslationContext, inIpv6: array<byte>, outIpv4: array<byte>)
    returns (ok: bool)
    requires inIpv6.Length == 16 && outIpv4.Length == 4
    modifies outIpv4
    ensures inIpv6[..] == old(inIpv6[..])
    ensures ok <==> ctx.nat64Clat6to4PrefixForMainPacket(inIpv6[..]).Some?
    ensures ok ==> outIpv4[..] == ctx.nat64Clat6to4PrefixForMainPacket(inIpv6[..]).value
  {
    ok := StoreResult(ctx.nat64Clat6to4PrefixForMainPacket(inIpv6[..]), outIpv4);
  }

  method Nat64Clat4to6PrefixForMainPacket(ctx: AddressTranslationContext, inIpv4: array<byte>, outIpv6: array<byte>)
    returns (ok: bool)
    requires inIpv4.Length == 4 && outIpv6.Length == 16
    modifies outIpv6
    ensures inIpv4[..] == old(inIpv4[..])
    ensures ok <==> ctx.nat64Clat4to6PrefixForMainPacket(inIpv4[..]).Some?
    ensures ok ==> outIpv6[..] == ctx.nat64Clat4to6PrefixForMainPacket(inIpv4[..]).value
  {
    ok := StoreResult(ctx.nat64Clat4to6PrefixForMainPacket(inIpv4[..]), outIpv6);
  }

  method Siit6to4PrefixForMainPacket(ctx: AddressTranslationContext, inIpv6: array<byte>, outIpv4: array<byte>)
    returns (ok: bool)
    requires inIpv6.Length == 16 && outIpv4.Length == 4
    modifies outIpv4
    ensures inIpv6[..] == old(inIpv6[..])
    ensures ok <==> ctx.siit6to4PrefixForMainPacket(inIpv6[..]).Some?
    ensures ok ==> outIpv4[..] == ctx.siit6to4PrefixForMainPacket(inIpv6[..]).value
  {
    ok := StoreResult(ctx.siit6to4PrefixForMainPacket(inIpv6[..]), outIpv4);
  }

  method Siit4to6PrefixForMainPacket(ctx: AddressTranslationContext, inIpv4: array<byte>, outIpv6: array<byte>)
    returns (ok: bool)
    requires inIpv4.Length == 4 && outIpv6.Length == 16
    modifies outIpv6
    ensures inIpv4[..] == old(inIpv4[..])
    ensures ok <==> ctx.siit4to6PrefixForMainPacket(inIpv4[..]).Some?
    ensures ok ==> outIpv6[..] == ctx.siit4to6PrefixForMainPacket(inIpv4[..]).value
  {
    ok := StoreResult(ctx.siit4to6PrefixForMainPacket(inIpv4[..]), outIpv6);
  }

  method Siit6to4PrefixForMainPacketLocal(ctx: AddressTranslationContext, inIpv6: array<byte>, outIpv4: array<byte>)
    returns (ok: bool)
    requires inIpv6.Length == 16 && outIpv4.Length == 4
    modifies outIpv4
    ensures inIpv6[..] == old(inIpv6[..])
    ensures ok <==> ctx.siit6to4PrefixForMainPacketLocal(inIpv6[..]).Some?
    ensures ok ==> outIpv4[..] == ctx.siit6to4PrefixForMainPacketLocal(inIpv6[..]).value
  {
    ok := StoreResult(ctx.siit6to4PrefixForMainPacketLocal(inIpv6[..]), outIpv4);
  }

  method Siit4to6PrefixForMainPacketLocal(ctx: AddressTranslationContext, inIpv4: array<byte>, outIpv6: array<byte>)
    returns (ok: bool)
    requires inIpv4.Length == 4 && outIpv6.Length == 16
    modifies outIpv6
    ensures inIpv4[..] == old(inIpv4[..])
    ensures ok <==> ctx.siit4to6PrefixForMainPacketLocal(inIpv4[..]).Some?
    ensures ok ==> outIpv6[..] == ctx.siit4to6PrefixForMainPacketLocal(inIpv4[..]).value
  {
    ok := StoreResult(ctx.siit4to6PrefixForMainPacketLocal(inIpv4[..]), outIpv6);
  }

  method Nat64ClatSiit6to4PrefixForIcmpErrorPacket(ctx: AddressTranslationContext, inIpv6: array<byte>, outIpv4: array<byte>)
    returns (ok: bool)
    requires inIpv6.Length == 16 && outIpv4.Length == 4
    modifies outIpv4
    ensures inIpv6[..] == old(inIpv6[..])
    ensures ok <==> ctx.nat64ClatSiit6to4PrefixForIcmpErrorPacket(inIpv6[..]).Some?
    ensures ok ==> outIpv4[..] == ctx.nat64ClatSiit6to4PrefixForIcmpErrorPacket(inIpv6[..]).value
  {
    ok := StoreResult(ctx.nat64ClatSiit6to4PrefixForIcmpErrorPacket(inIpv6[..]), outIpv4);
  }

  /** The one primitive that cannot fail: it always writes an IPv6 address. */
  method Nat64ClatSiit4to6PrefixForIcmpErrorPacket(ctx: AddressTranslationContext, inIpv4: array<byte>, outIpv6: array<byte>)
    requires inIpv4.Length == 4 && outIpv6.Length == 16
    modifies outIpv6
    ensures inIpv4[..] == old(inIpv4[..])
    ensures outIpv6[..] == ctx.nat64ClatSiit4to6PrefixForIcmpErrorPacket(old(inIpv4[..]))
  {
    var r := ctx.nat64ClatSiit4to6PrefixForIcmpErrorPacket(inIpv4[..]);
    forall i | 0 <= i < 16 {
      outIpv6[i] := r[i];
    }
  }
}

/** The ICMPv6 to ICMPv4 output descriptor of src/xlat_6to4_icmp.h.

    The translated ICMPv4 message is described, not copied: an owned
    36-byte lead-in buffer of which the first `messageStartSize` bytes are
    used, followed by an optional slice of the input payload. The slice is
    an offset and a length into the input, standing for the C pointer into
    the thread's input packet buffer. */
module Xlat6to4Icmp {
  import opened Wrappers

  /** Capacity of the lead-in buffer `message_start_36b`. */
  const MessageStartCapacity: nat := 36

  datatype Icmpv4MessageData = Icmpv4MessageData(
    messageStart: seq<byte>,      // message_start_36b
    messageEnd: Option<nat>,      // nullable_message_end_ptr, as an offset into the input payload
    messageStartSize: nat,        // message_start_size_m8u
    messageEndSize: nat)          // zeroable_message_end_size
  {
    /** The invariants the struct's comments state: the lead-in fits its
        36-byte buffer; its size is a multiple of 8 unless there is no
        trailing slice; the trailing slice lies inside the input payload
        (and may be empty). */
    predicate Valid(inPayloadSize: nat)
    {
      |messageStart| == MessageStartCapacity &&
      messageStartSize <= MessageStartCapacity &&
      (messageEnd.Some? ==> messageStartSize % 8 == 0) &&
      (messageEnd.Some? ==> messageEnd.value + messageEndSize <= inPayloadSize)
    }
  }

  /** The translation that `xlat_6to4_icmp__translate_icmpv6_to_icmpv4`
      performs, whose body is not part of this model: any map from an
      ICMPv6 payload to either failure or a descriptor that is valid for
      that payload. */
  type Icmpv6ToIcmpv4Rule = f: seq<byte> -> Option<Icmpv4MessageData>
    | forall payload :: f(payload).Some? ==> f(payload).value.Valid(|payload|)
    witness (payload: seq<byte>) => None

  /** The per-thread context as far as the ICMP translator sees it. */
  datatype IcmpTranslationContext = IcmpTranslationContext(icmpv6ToIcmpv4: Icmpv6ToIcmpv4Rule)

  /** xlat_6to4_icmp__translate_icmpv6_to_icmpv4: reads the first
      `inPayloadSize` bytes of the input buffer (never writing it) and, on
      success, fills in a descriptor whose trailing slice points into those
      bytes. */
  method TranslateIcmpv6ToIcmpv4(ctx: IcmpTranslationContext, inPacketPayload: array<byte>, inPayloadSize: nat)
    returns (ok: bool, outMessageData: Icmpv4MessageData)
    requires inPayloadSize <= inPacketPayload.Length
    ensures ok <==> ctx.icmpv6ToIcmpv4(inPacketPayload[..inPayloadSize]).Some?
    ensures ok ==> outMessageData == ctx.icmpv6ToIcmpv4(inPacketPayload[..inPayloadSize]).value
    ensures ok ==> outMessageData.Valid(inPayloadSize)
  {
    var r := ctx.icmpv6ToIcmpv4(inPacketPayload[..inPayloadSize]);
    match r {
      case None =>
        ok, outMessageData := false, Icmpv4MessageData(seq(MessageStartCapacity, _ => 0), None, 0, 0);
      case Some(d) =>
        ok, outMessageData := true, d;
    }
  }

  /** The lead-in is sized 36 bytes to leave slack: whenever a trailing
      slice is present, at most 32 of them are used. */
  lemma TrailingSliceLeadInAtMost32(d: Icmpv4MessageData, inPayloadSize: nat)
    requires d.Valid(inPayloadSize)
    requires d.messageEnd.Some?
    ensures d.messageStartSize <= 32
  {
  }

  /** The bytes of the translated message the descriptor stands for: the
      used part of the lead-in, then the borrowed slice of the payload. */
  function MessageBytes(d: Icmpv4MessageData, inPayload: seq<byte>): seq<byte>
    requires d.Valid(|inPayload|)
  {
    d.messageStart[..d.messageStartSize] +
    (if d.messageEnd.Some? then inPayload[d.messageEnd.value..d.messageEnd.value + d.messageEndSize] else [])
  }

  /** The layout of every message the translation produces. With a
      trailing slice, the borrowed bytes follow an 8-byte-aligned lead-in of
      at most 32 bytes and are exactly the payload bytes the slice names, so
      the message is at most 32 bytes longer than the payload. Without one,
      the message is the lead-in alone, at most 36 bytes, whatever
      `messageEndSize` holds. */
  lemma TranslatedMessageLayout(ctx: IcmpTranslationContext, inPayload: seq<byte>)
    requires ctx.icmpv6ToIcmpv4(inPayload).Some?
    ensures var d := ctx.icmpv6ToIcmpv4(inPayload).value;
      var m := MessageBytes(d, inPayload);
      m[..d.messageStartSize] == d.messageStart[..d.messageStartSize] &&
      (d.messageEnd.Some? ==>
         d.messageStartSize % 8 == 0 && d.messageStartSize <= 32 &&
         m[d.messageStartSize..] == inPayload[d.messageEnd.value..d.messageEnd.value + d.messageEndSize] &&
         |m| <= 32 + |inPayload|) &&
      (d.messageEnd.None? ==> |m| == d.messageStartSize <= 36)
  {
    var d := ctx.icmpv6ToIcmpv4(inPayload).value;
    if d.messageEnd.Some? {
      TrailingSliceLeadInAtMost32(d, |inPayload|);
    }
  }
}

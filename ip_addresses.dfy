/** Fixed-width IP addresses, as the C code stores them: byte arrays of
    length 4 and 16. */
module IpAddresses {
  import opened Wrappers

  /** An IPv4 address: always exactly 4 bytes. */
  type IPv4Address = s: seq<byte> | |s| == 4 witness [0, 0, 0, 0]

  /** An IPv6 address: always exactly 16 bytes. */
  type IPv6Address = s: seq<byte> | |s| == 16 witness [0, 0, 0, 0, 0, 0, 0, 0, 0, 0, 0, 0, 0, 0, 0, 0]
}

# Tundra-NAT64: SIIT address pairs, the ICMPv6→ICMPv4 descriptor and configuration loading

This Dafny project models three pieces of the Tundra-NAT64 translator.

- **SIIT address-pair translation.** This is `src/xlat_addr_siit.c`, built on the per-address primitives of `src/utils_xlat_addr.h`.
  - Each of the four operations translates a packet's source/destination pair between IPv4 and IPv6. It calls two primitives in a fixed order and stops at the first one that fails.
  - The primitives' bodies are not part of this model. Each one is an uninterpreted function carried by the `AddressTranslationContext` value. Each is also wrapped in a method with the C shape: the context and the input buffer are read-only, and only the output buffer is written.
  - Every operation comes twice. A pure function (`AddrPair…`) states which primitive is applied to which address and when the result is a success. A method (`Translate…`) writes the two output arrays and is proved against that function. It also proves that a failing source translation leaves the destination buffer untouched.
- **The ICMPv6→ICMPv4 output descriptor.** This is `src/xlat_6to4_icmp.h`.
  - The descriptor is a datatype made of:
    - a 36-byte lead-in;
    - an optional trailing slice of the input payload, held as an offset;
    - the two sizes.
  - Its `Valid` predicate states the struct's invariants.
  - The translation itself is not part of this model. It is a rule in the context, whose type guarantees a valid descriptor on success. `TranslateIcmpv6ToIcmpv4` reads the payload through that rule and never writes it.
- **Configuration validation and derivation.** This is `src/t64_conf_file.c`.
  - Each parsing step of the C code is a method of the `ConfFile` class that assigns that section's fields one by one. Each step is proved against a pure section function (`ProgramSection`, `IoSection`, `IoTunSection`, `TranslatorSection`, `RouterSection`). Those functions state the defaulting rules:
    - a thread count of 0 means the processor count;
    - an empty user or group disables the privilege drop;
    - TUN fields are cleared outside TUN mode;
    - an empty TUN device path becomes the default path.
  - Fatal errors are an error result instead of `t64f_log__crash`.
  - `ParseConfigurationFile` runs the steps in order. It fails exactly with the first error that `LoadError` names. Otherwise it returns a configuration that is `Loaded` and `Consistent`.

The following are inputs instead of effects:
- The configuration-file reader (`t64f_conf_file_load__find_*`) is not part of this model. Its results are a `ConfFileEntries` value.
- `getpwnam`, `getgrnam` and `get_nprocs` are answered by a `SystemDatabase` value.

## Model

| member | source | states |
|---|---|---|
| UtilsXlatAddr.Nat64Clat6to4TranslatorIp | src/utils_xlat_addr.h:26 | Maps one 16-byte address to one 4-byte address, or reports failure. The input is unchanged and only the output buffer is written. |
| UtilsXlatAddr.Nat64Clat4to6TranslatorIp | src/utils_xlat_addr.h:27 | Maps 4 bytes to 16, or reports failure. The input is read-only and only the output is written. |
| UtilsXlatAddr.Nat64Clat6to4PrefixForMainPacket | src/utils_xlat_addr.h:28 | Maps 16 bytes to 4, or reports failure. The input is read-only and only the output is written. |
| UtilsXlatAddr.Nat64Clat4to6PrefixForMainPacket | src/utils_xlat_addr.h:29 | Maps 4 bytes to 16, or reports failure. The input is read-only and only the output is written. |
| UtilsXlatAddr.Siit6to4PrefixForMainPacket | src/utils_xlat_addr.h:30 | Maps 16 bytes to 4, or reports failure. The input is read-only and only the output is written. |
| UtilsXlatAddr.Siit4to6PrefixForMainPacket | src/utils_xlat_addr.h:31 | Maps 4 bytes to 16, or reports failure. The input is read-only and only the output is written. |
| UtilsXlatAddr.Siit6to4PrefixForMainPacketLocal | src/utils_xlat_addr.h:32 | Maps 16 bytes to 4, or reports failure. The input is read-only and only the output is written. |
| UtilsXlatAddr.Siit4to6PrefixForMainPacketLocal | src/utils_xlat_addr.h:33 | Maps 4 bytes to 16, or reports failure. The input is read-only and only the output is written. |
| UtilsXlatAddr.Nat64ClatSiit6to4PrefixForIcmpErrorPacket | src/utils_xlat_addr.h:34 | Maps 16 bytes to 4, or reports failure. The input is read-only and only the output is written. |
| UtilsXlatAddr.Nat64ClatSiit4to6PrefixForIcmpErrorPacket | src/utils_xlat_addr.h:35 | Cannot fail: it always writes the 16-byte image of the 4-byte input, and the input is read-only. |
| XlatAddrSiit.AddrPair4to6ForMainPacket | src/xlat_addr_siit.c:28-33 | Succeeds iff the local primitive succeeds on the source and the plain SIIT primitive succeeds on the destination. The pair is then those two images. |
| XlatAddrSiit.AddrPair4to6ForIcmpErrorPacket | src/xlat_addr_siit.c:35-40 | Always succeeds. Both addresses go through the shared ICMP-error primitive. |
| XlatAddrSiit.AddrPair6to4ForMainPacket | src/xlat_addr_siit.c:42-47 | Mirrors the 4to6 direction: the plain SIIT primitive on the source and the local one on the destination. Succeeds iff both succeed. |
| XlatAddrSiit.AddrPair6to4ForIcmpErrorPacket | src/xlat_addr_siit.c:49-54 | Succeeds iff the shared ICMP-error primitive succeeds on both addresses. The pair is their images. |
| XlatAddrSiit.Translate4to6AddrForMainPacket | src/xlat_addr_siit.c:28-33 | Returns true iff the pair function succeeds, and then the buffers hold the pair. A failing source leaves the destination buffer untouched. Inputs are unchanged and only the two outputs are written. |
| XlatAddrSiit.Translate4to6AddrForIcmpErrorPacket | src/xlat_addr_siit.c:35-40 | Always returns true and writes both images of the shared primitive. |
| XlatAddrSiit.Translate6to4AddrForMainPacket | src/xlat_addr_siit.c:42-47 | Returns true iff both primitives succeed, and the buffers then hold the pair. A failing source leaves the destination buffer untouched. |
| XlatAddrSiit.Translate6to4AddrForIcmpErrorPacket | src/xlat_addr_siit.c:49-54 | Returns true iff both shared-primitive calls succeed, stopping at the source. A failing source leaves the destination buffer untouched. |
| XlatAddrSiit.MainPacketReplyRoundTrip | src/xlat_addr_siit.c:28-47 | Assume each SIIT 6to4 primitive undoes its 4to6 partner. Then a reply to a translated main packet (addresses swapped) translates back to the original pair, swapped. |
| Xlat6to4Icmp.TranslateIcmpv6ToIcmpv4 | src/xlat_6to4_icmp.h:26-34 | Reads the payload without writing it and reports success as a bool. On success the descriptor is valid: its lead-in fits the 36-byte buffer, the lead-in size is a multiple of 8 when a slice is present, and the slice lies inside the payload. |
| Xlat6to4Icmp.TrailingSliceLeadInAtMost32 | src/xlat_6to4_icmp.h:27-29 | When a trailing slice is present, a valid descriptor's lead-in is at most 32 bytes. |
| Xlat6to4Icmp.TranslatedMessageLayout | src/xlat_6to4_icmp.h:26-34 | Describes every message a successful translation produces: the used lead-in, then the borrowed payload bytes when a slice is present. With a slice, the lead-in is 8-byte aligned and at most 32 bytes, the borrowed part is exactly the named payload bytes, and the message is at most 32 bytes longer than the payload. Without a slice, the message is the lead-in alone, at most 36 bytes. |
| T64ConfFile.UidByUsername | src/t64_conf_file.c:220-226 | Yields the user's uid iff the user exists, and otherwise the fatal user-not-found error. |
| T64ConfFile.GidByGroupname | src/t64_conf_file.c:228-234 | Yields the group's gid iff the group exists, and otherwise the fatal group-not-found error. |
| T64ConfFile.DetermineIoModeFromString | src/t64_conf_file.c:236-244 | The inherited-fds string gives InheritedFds and the tun string gives Tun (both directions). Any other string is a fatal error naming it. |
| T64ConfFile.IoModeStringRoundTrip | src/t64_conf_file.c:236-244 | The mode lookup is total on the two mode names and inverts them. |
| T64ConfFile.DetermineIoModeInjective | src/t64_conf_file.c:236-244 | Distinct accepted strings give distinct modes. |
| T64ConfFile.MemoryEqual | src/t64_conf_file.c:161 | Byte comparison of the first n bytes: true iff the two prefixes are equal. |
| T64ConfFile.ProgramSection | src/t64_conf_file.c:65-99 | A thread count of 0 becomes the processor count, and any other count is kept. An empty user (group) means no drop and id 0. A named one means drop, with its looked-up id. Fails iff a named user or group is unknown, and the user is reported first. |
| T64ConfFile.IoTunSection | src/t64_conf_file.c:119-156 | An empty device path becomes the default path, and any other path is kept, so the path is never empty. The interface name is kept. Owner user and group follow the same empty/named rule, failing iff a named one is unknown. |
| T64ConfFile.IoSection | src/t64_conf_file.c:101-117 | Fails on an unknown mode string, or in TUN mode on a TUN error. In TUN mode the TUN fields are the TUN section. In any other mode they are all cleared: no strings, flags false, ids 0. |
| T64ConfFile.TranslatorSection | src/t64_conf_file.c:158-202 | Fails iff bytes 12..15 of the prefix are not all zero. An accepted prefix therefore has a zero tail. The addresses are stored as read. |
| T64ConfFile.AcceptedEntriesAreConsistent | src/t64_conf_file.c:52-63 | Entries that load without error have a zero prefix tail, a translator address distinct from the router's in both families, a known mode string, and existing privilege-drop user and group. |
| T64ConfFile.ConfFile.ParseProgramConfigurationEntries | src/t64_conf_file.c:65-99 | Fails with exactly the program section's error. Otherwise the program fields are that section. |
| T64ConfFile.ConfFile.ParseIoConfigurationEntries | src/t64_conf_file.c:101-117 | Fails with exactly the I/O section's error. Otherwise the mode and TUN fields are that section. |
| T64ConfFile.ConfFile.ParseIoTunConfigurationEntries | src/t64_conf_file.c:119-156 | Fails with exactly the TUN section's error. Otherwise the TUN fields are that section. |
| T64ConfFile.ConfFile.ParseTranslatorConfigurationEntries | src/t64_conf_file.c:158-202 | Fails iff bytes 12..15 of the prefix are non-zero, with the prefix-tail error. Otherwise the translator fields are the translator section. |
| T64ConfFile.ConfFile.ParseRouterConfigurationEntries | src/t64_conf_file.c:204-210 | The router fields are the two addresses read. |
| T64ConfFile.ConfFile.CheckParsedConfiguration | src/t64_conf_file.c:212-218 | Succeeds iff the translator's IPv4 and IPv6 addresses both differ from the router's. Equal IPv4 addresses are reported first, then equal IPv6 addresses. |
| T64ConfFile.ParseConfigurationFile | src/t64_conf_file.c:52-63 | Fails iff some step fails, with the first error in step order. A returned configuration holds every section as derived, has a zero prefix tail, and has translator addresses distinct from the router's. |

## Left out

- The bodies of the ten address primitives are not part of this model. They are uninterpreted functions, and no IPv4-embedding layout is assumed.
- MainPacketReplyRoundTrip: the inverse relation between the primitives is a hypothesis (`SiitPrimitivesInvertible`). It is not derived from any primitive body.
- UtilsXlatAddr primitives: what a failing primitive leaves in its output buffer is unspecified, because the declarations promise nothing.
- XlatAddrSiit.Translate4to6AddrForMainPacket, Translate6to4AddrForMainPacket, Translate6to4AddrForIcmpErrorPacket and Translate4to6AddrForIcmpErrorPacket: the source-buffer contents are stated only when the two output buffers are distinct arrays. With aliased outputs the later write wins.
- Xlat6to4Icmp.TranslateIcmpv6ToIcmpv4: the translation itself is a rule in the context. The ICMP type/code mapping of RFC 7915 sections 4.2 and 5.2, the checksums, header handling and MTU logic are not part of this model. The descriptor it leaves on failure is unspecified.
- Xlat6to4Icmp.TranslateIcmpv6ToIcmpv4: any writes the translation makes to the thread context are not captured. In C the context is writable (`tundra__thread_ctx *const ctx`), but here it is an immutable value and the method changes nothing. The payload is also modelled apart from the context's `in_packet_buffer`, where it lives in C. So "the payload is unchanged" rests only on the struct comment that the slice must not be modified (src/xlat_6to4_icmp.h:28). The `const` pointer alone does not guarantee it.
- The trailing slice is an offset into the payload rather than a pointer, so the model does not capture "points into the thread's packet buffer" beyond bounds and the buffer being unchanged.
- The configuration-file reader (`t64f_conf_file_load__find_*`) is an input. Its range checks are not part of this model: the maximum thread count, the MTU bounds and the string length limits.
- `getpwnam`, `getgrnam` and `get_nprocs` are a `SystemDatabase` value. They are not system calls.
- `t64f_log__crash` ends the process in C. Here it is an error result that stops loading at the same point. The fields assigned before it are not described on the error path.
- Memory management is not modelled: allocation and string duplication (lines 53, 72, 123, 129) and `t64f_conf_file__free_parsed_configuration_file` (lines 246-255). Strings are values, and NULL is `None`.
- `t64fa_conf_file__read_and_parse_configuration_file` (lines 42-50) only wires the reader to the parser and frees the entries. It is not part of this model.
- The values of the mode strings and of the default TUN device path come from headers that are not part of this model. They are taken as "inherited-fds", "tun" and "/dev/net/tun", and the proofs use only that the two mode strings differ and that the default path is non-empty.
- The configuration struct is one flat C struct. Here its fields are grouped into one record per section (`program`, `ioMode`/`ioTun`, `translator`, `router`), and the fixed-size address arrays are 4- and 16-byte sequences.
- Thread pool, per-thread context sharing, 64-byte alignment and TUN device handling are not part of this model.

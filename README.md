# DFU bootloader USB descriptors in Dafny

This project models the USB descriptor store of the sboot_stm32 DFU bootloader and its GET_DESCRIPTOR handler `dfu_get_descriptor`, both in `src/descriptors.c`. It proves properties of both.

The store is constant data fixed at build time:

- one device descriptor (section 9.6.1 of USB 2.0);
- one packed composite configuration descriptor. It holds the configuration header (section 9.6.3), the flash DFU interface, the optional EEPROM alternate interface (section 9.6.5), and the DFU functional descriptor (section 4.2.4 of the USB DFU 1.1 class specification);
- the string table `dtable`, in index order (section 9.6.7 of USB 2.0).

The two build switches `DFU_INTF_EEPROM` and `DFU_CAN_UPLOAD` are fields of `Descriptors.BuildConfig`. So are the board values that the descriptors copy verbatim: the vendor and product IDs, the EP0 size, the serial-number string index, the detach timeout, the transfer block size, and each string descriptor's `bLength`.

Modules:

- `UsbTypes` (usb_types.dfy): `uint8` and `uint16`, little-endian byte helpers, and C bit-or on flag bytes.
- `DescriptorSet` (descriptor_set.dfy): descriptors stored back to back without padding, and the walk by `bLength` that a host uses to split them again.
- `Descriptors` (descriptors.dfy): one datatype per descriptor. Each serialises to its packed bytes and has a host-side parser. The module also holds the three tables `DfuDeviceDesc`, `DfuConfigDesc` and `DTable` as functions of the build configuration.
- `Resolver` (resolver.dfy): `Resolve` states the outcome of a request using the descriptors' declared fields. `GetDescriptor` follows the C code step by step. It starts with `dlen = 0`, may set it to `sizeof(dfu_config_desc)`, and otherwise reads the first byte of the chosen descriptor's memory. On failure it leaves `*len` and `*address` unchanged. Its postcondition ties it to `Resolve`.

### Short configuration requests

A short configuration request is modelled as the code behaves. If the caller's capacity is below `sizeof(dfu_config_desc)`, `dlen` stays 0. Line 144 then reads the first byte of the configuration descriptor, which is the header's `bLength`. So the reported length is 9: neither 0 nor the full 27 or 36 bytes. Reporting the whole composite for every configuration request would be the other choice. The model keeps the code's behaviour. `Resolver.ResolveConfiguration` states the length as the code computes it. It also states that those 9 bytes are exactly the header, which carries `wTotalLength`.

## Model

| member | source | states |
|---|---|---|
| `Resolver.SplitWValue` | src/descriptors.c:120-121 | The descriptor type and index are bytes with type * 256 + index == wValue: the type is the high byte and the index the low byte. |
| `Resolver.Resolve` | src/descriptors.c:119-148 | Specification of the handler from the declared fields. A successful result always names a stored descriptor: a string reference always indexes inside `dtable`. |
| `Resolver.GetDescriptor` | src/descriptors.c:119-148 | Returns `usbd_ack` exactly when `Resolve` finds a descriptor. On ack, `*address` is that descriptor and `*len` is the length `Resolve` gives. On fail, `*address` and `*len` keep their incoming values. |
| `Resolver.ResolveDevice` | src/descriptors.c:125-147 | A DEVICE request acks for every index and capacity, with the device descriptor and length 18, its whole stored size. |
| `Resolver.ResolveConfiguration` | src/descriptors.c:128-147 | A CONFIGURATION request always acks with the configuration descriptor. The full size (27, or 36 with EEPROM) is reported when the capacity holds it, otherwise 9. The first 9 stored bytes are the header. |
| `Resolver.ResolveString` | src/descriptors.c:134-147 | A STRING request acks exactly when index < \|dtable\| (5 entries, 6 with EEPROM), with `dtable[index]` and its own `bLength`. |
| `Resolver.ResolveFails` | src/descriptors.c:134-143 | A request fails if and only if its type is none of DEVICE, CONFIGURATION and STRING, or it is a STRING request with an index past the table. |
| `Resolver.ResolvedLength` | src/descriptors.c:123-145 | The reported length is exactly the whole composite's size for a configuration request whose capacity holds it. In every other case it is the chosen descriptor's first byte (its `bLength`). The length never exceeds a stored device or configuration descriptor. |
| `Resolver.ResolveIgnoresCapacity` | src/descriptors.c:124-143 | Only a CONFIGURATION request depends on the caller's capacity. |
| `Resolver.LanguageListFirst` | src/descriptors.c:108-117 | String index 0 acks with the language-ID list. |
| `Resolver.RequestScenarios` | src/descriptors.c:119-148 | The worked requests give the stated results: DEVICE gives 18, a short CONFIGURATION gives 9, STRING 1 gives the manufacturer, and STRING 99 and type 0xFF fail. |
| `Descriptors.DeviceCodec` | src/descriptors.c:34-49 | A device descriptor's packed bytes parse back to it, and only its own bytes do. |
| `Descriptors.ConfigurationCodec` | src/descriptors.c:52-61 | The same two-way correspondence for the 9-byte configuration header. |
| `Descriptors.InterfaceCodec` | src/descriptors.c:62-84 | The same two-way correspondence for a 9-byte interface descriptor. |
| `Descriptors.DfuFunctionalCodec` | src/descriptors.c:86-97 | The same two-way correspondence for the 9-byte DFU functional descriptor. |
| `Descriptors.DeviceDescriptorLayout` | src/descriptors.c:34-49 | The device descriptor is 18 bytes and `bLength` = 18. Its type is DEVICE, bcdUSB is 2.0, bcdDevice is 1.0 and the class fields are 0. `bNumConfigurations` = 1. EP0 size, vendor ID, product ID and serial index are the configured values. |
| `Descriptors.CompositeLayout` | src/descriptors.c:25-32 | If every member of `struct config_desc` has its true size in `bLength`, the packed composite is `sizeof(struct config_desc)` bytes. It starts with the header, and walking it by `bLength` recovers exactly its members. |
| `Descriptors.ConfigTotalLength` | src/descriptors.c:51-61 | `wTotalLength` equals the composite's byte size: 27 without EEPROM, 36 with it. The composite starts with the header (`bLength` 9, type CONFIGURATION), whose bytes 2-3 hold `wTotalLength` little-endian. |
| `Descriptors.ConfigWalk` | src/descriptors.c:25-98 | A host walking the configuration descriptor finds exactly the header, the flash interface, the EEPROM interface when it is built in, and the DFU functional descriptor, in that order. |
| `Descriptors.ConfigFixedFields` | src/descriptors.c:56-96 | One interface and configuration value 1. Self-powered (0xC0) at 100 mA (bMaxPower 50). Flash is interface 0 at alternate setting 0. The EEPROM interface exists exactly with the EEPROM flag, at alternate setting 1. Both are DFU-class, DFU-mode interfaces without endpoints. DFU version is 1.1, and the detach timeout and block size are the configured values. |
| `Descriptors.DfuCapabilities` | src/descriptors.c:89-93 | CAN_DNLOAD and MANIF_TOL are always set. CAN_UPLOAD is set if and only if `DFU_CAN_UPLOAD`, and WILL_DETACH if and only if not. No other bit is set. |
| `Descriptors.StringIndices` | src/descriptors.c:45-117 | `dtable` has 5 entries, 6 with EEPROM. Entry 0 is the language list. Indices 1, 2, 3, 4 and 5 name the manufacturer, product, configuration, flash and EEPROM strings, each inside the table. |
| `DescriptorSet.ConcatSize` | src/descriptors.c:25-32 | Packed without padding, a descriptor set's size is the sum of its members' sizes, whatever those sizes are. |
| `DescriptorSet.WalkConcat` | src/descriptors.c:25-32 | Self-delimiting descriptors stored back to back are split back into exactly those descriptors by the host's `bLength` walk. |

## Left out

- The USB control-transfer state machine and the `usbd_ctlreq` plumbing are not modelled. The handler sees only `wValue` and the incoming `*len`. Like the source, it ignores `wIndex` (the language ID of a string request).
- `usb.h`, `usb_std.h`, `inc/usb_dfu.h` and `config.h` are not part of this model. The descriptor-type, class, attribute and DFU-capability codes are the values of USB 2.0 and DFU 1.1. `VERSION_BCD` and `USB_CFG_POWER_MA` are written out as the byte arithmetic they denote, including the truncation of the halved milliamps to the byte-wide `bMaxPower`. The board values are parameters.
- String contents are not modelled. The UTF-16 text produced by `USB_STRING_DESC` and `USB_ARRAY_DESC` is abstract. Each string descriptor is a record with its identity and its `bLength`, and only its two header bytes are modelled as memory.
- `Descriptors.StringIndices`: does not prove that `iSerialNumber` (`INTSERIALNO_DESCRIPTOR`) indexes `dtable`. It is a configured value copied verbatim, and it may name a string served outside this table. A non-zero value of 5 or more (6 or more with EEPROM) makes a STRING request for it fail here.
- Pointers are descriptor identifiers (`DescRef`), and the caller's own buffer is `DataBuffer`. The cast at line 144 is modelled as reading byte 0 of the chosen descriptor's memory. `__attribute__((packed))` is modelled as byte sequences whose length is the sum of the field widths.

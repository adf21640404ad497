/**
 * `dfu_get_descriptor` (src/descriptors.c): the answer to a GET_DESCRIPTOR
 * control request (section 9.4.3 of USB 2.0). The request's wValue carries
 * the descriptor type in its high byte and the descriptor index in its low
 * byte; the caller passes the capacity of its data buffer in `*len` and gets
 * back, on success, the address of the descriptor in `*address` and the
 * number of bytes to send in `*len`.
 */
module Resolver {
  import opened UsbTypes
  import opened DescriptorSet
  import opened Descriptors

  /** The `usbd_respond` values the handler returns. */
  datatype Respond = UsbdFail | UsbdAck

  /** Where `*address` points: the framework's own data buffer, or a stored descriptor. */
  datatype Address = DataBuffer | At(ref: DescRef)

  /** What a request resolves to: a descriptor and the number of bytes to send, or nothing. */
  datatype Resolution = Found(ref: DescRef, length: uint16) | NotFound

  /** Splits wValue into the descriptor type (high byte) and the descriptor index (low byte). */
  function SplitWValue(wValue: uint16): (r: (uint8, uint8))
    ensures r.0 as int * 0x100 + r.1 as int == wValue as int
  {
    (Hi(wValue), Lo(wValue))
  }

  /**
   * The descriptor a request selects and the length reported for it, read
   * off the descriptors' own declared fields: a device request gets the
   * device descriptor whatever its index; a configuration request gets the
   * composite configuration descriptor, with wTotalLength when the caller's
   * capacity holds it and otherwise the header's bLength; a string request
   * gets the indexed entry of the string table when there is one; anything
   * else gets nothing.
   */
  function Resolve(cfg: BuildConfig, wValue: uint16, capacity: uint16): (r: Resolution)
    ensures r.Found? ==> ValidRef(cfg, r.ref)
  {
    var (dtype, dindx) := SplitWValue(wValue);
    var header := DfuConfigDesc(cfg).config;
    var table := DTable(cfg);
    if dtype == USB_DTYPE_DEVICE then
      Found(DeviceRef, DfuDeviceDesc(cfg).bLength as uint16)
    else if dtype == USB_DTYPE_CONFIGURATION then
      Found(ConfigRef,
            if capacity >= header.wTotalLength then header.wTotalLength else header.bLength as uint16)
    else if dtype == USB_DTYPE_STRING && (dindx as int) < |table| then
      Found(StringRef(dindx as nat), table[dindx].bLength as uint16)
    else
      NotFound
  }

  /**
   * `dfu_get_descriptor`, step by step: the length starts at 0, is set to
   * `sizeof(dfu_config_desc)` for a configuration request that fits the
   * capacity, and otherwise is taken from the first byte of the chosen
   * descriptor. On failure `*len` and `*address` are left as they were.
   */
  method GetDescriptor(cfg: BuildConfig, wValue: uint16, address: Address, len: uint16)
    returns (status: Respond, address': Address, len': uint16)
    ensures status == UsbdAck <==> Resolve(cfg, wValue, len).Found?
    ensures status == UsbdAck ==>
      address' == At(Resolve(cfg, wValue, len).ref) && len' == Resolve(cfg, wValue, len).length
    ensures status == UsbdFail ==> address' == address && len' == len
  {
    var dtype := Hi(wValue);
    var dindx := Lo(wValue);
    var desc: DescRef;
    var dlen: uint16 := 0;
    if dtype == USB_DTYPE_DEVICE {
      desc := DeviceRef;
    } else if dtype == USB_DTYPE_CONFIGURATION {
      desc := ConfigRef;
      if len as int >= ConfigDescSize(cfg.intfEeprom) {
        dlen := ConfigDescSize(cfg.intfEeprom) as uint16;
      }
      ConfigTotalLength(cfg);
    } else if dtype == USB_DTYPE_STRING {
      if (dindx as int) < |DTable(cfg)| {
        desc := StringRef(dindx as nat);
      } else {
        return UsbdFail, address, len;
      }
    } else {
      return UsbdFail, address, len;
    }
    if dlen == 0 {
      dlen := Memory(cfg, desc)[0] as uint16;
    }
    return UsbdAck, At(desc), dlen;
  }

  // ---------------------------------------------------------------------------
  // Properties of the resolver

  /**
   * A device request always succeeds, whatever its index and the capacity,
   * with the device descriptor and its whole size, 18 bytes.
   */
  lemma ResolveDevice(cfg: BuildConfig, wValue: uint16, capacity: uint16)
    requires SplitWValue(wValue).0 == USB_DTYPE_DEVICE
    ensures Resolve(cfg, wValue, capacity) == Found(DeviceRef, 18)
    ensures |Memory(cfg, DeviceRef)| == 18
  {
  }

  /**
   * A configuration request always succeeds with the configuration
   * descriptor. When the capacity holds the whole composite (27 bytes, 36
   * with the EEPROM interface) its whole size is reported; otherwise the 9
   * bytes of its header, which carry wTotalLength.
   */
  lemma ResolveConfiguration(cfg: BuildConfig, wValue: uint16, capacity: uint16)
    requires SplitWValue(wValue).0 == USB_DTYPE_CONFIGURATION
    ensures var total := |Memory(cfg, ConfigRef)|;
      && total == (if cfg.intfEeprom then 36 else 27)
      && Resolve(cfg, wValue, capacity) == Found(ConfigRef, if capacity as int >= total then total as uint16 else 9)
    ensures Memory(cfg, ConfigRef)[..9] == DfuConfigDesc(cfg).config.Bytes()
  {
    ConfigTotalLength(cfg);
  }

  /**
   * A string request succeeds exactly when its index lies inside the string
   * table (5 entries, 6 with the EEPROM interface), with that entry and its
   * own bLength.
   */
  lemma ResolveString(cfg: BuildConfig, wValue: uint16, capacity: uint16)
    requires SplitWValue(wValue).0 == USB_DTYPE_STRING
    ensures var index := SplitWValue(wValue).1 as int;
      var table := DTable(cfg);
      && |table| == (if cfg.intfEeprom then 6 else 5)
      && (Resolve(cfg, wValue, capacity).Found? <==> index < |table|)
      && (index < |table| ==>
            Resolve(cfg, wValue, capacity) == Found(StringRef(index), table[index].bLength as uint16))
  {
  }

  /**
   * A request fails exactly when its type is none of device, configuration
   * and string, or it is a string request whose index lies past the table.
   */
  lemma ResolveFails(cfg: BuildConfig, wValue: uint16, capacity: uint16)
    ensures var (dtype, index) := SplitWValue(wValue);
      Resolve(cfg, wValue, capacity).NotFound? <==>
        (dtype !in {USB_DTYPE_DEVICE, USB_DTYPE_CONFIGURATION, USB_DTYPE_STRING}
         || (dtype == USB_DTYPE_STRING && index as int >= |DTable(cfg)|))
  {
  }

  /**
   * The reported length is the selected descriptor's own bLength, except for
   * a configuration request that fits the capacity, which gets the whole
   * composite; the length never runs past the stored descriptor.
   */
  lemma ResolvedLength(cfg: BuildConfig, wValue: uint16, capacity: uint16)
    requires Resolve(cfg, wValue, capacity).Found?
    ensures var Found(ref, n) := Resolve(cfg, wValue, capacity);
      n == (if ref == ConfigRef && capacity as int >= |Memory(cfg, ConfigRef)|
            then |Memory(cfg, ConfigRef)| as uint16
            else Memory(cfg, ref)[0] as uint16)
    ensures var Found(ref, n) := Resolve(cfg, wValue, capacity);
      ref.StringRef? || n as int <= |Memory(cfg, ref)|
  {
    var dtype := SplitWValue(wValue).0;
    if dtype == USB_DTYPE_DEVICE {
      ResolveDevice(cfg, wValue, capacity);
    } else if dtype == USB_DTYPE_CONFIGURATION {
      ResolveConfiguration(cfg, wValue, capacity);
    }
  }

  /** Only a configuration request looks at the capacity. */
  lemma ResolveIgnoresCapacity(cfg: BuildConfig, wValue: uint16, capacity: uint16, other: uint16)
    requires SplitWValue(wValue).0 != USB_DTYPE_CONFIGURATION
    ensures Resolve(cfg, wValue, capacity) == Resolve(cfg, wValue, other)
  {
  }

  /** String index 0 resolves to the language-ID list, never to display text. */
  lemma LanguageListFirst(cfg: BuildConfig, capacity: uint16)
    ensures var r := Resolve(cfg, 0x0300, capacity);
      r.Found? && r.ref == StringRef(0) && DTable(cfg)[0].id == LangIds
  {
  }

  /** The worked requests: device, short configuration, manufacturer string, and two failures. */
  lemma RequestScenarios(cfg: BuildConfig)
    ensures Resolve(cfg, 0x0100, 64) == Found(DeviceRef, 18)
    ensures Resolve(cfg, 0x0200, 9) == Found(ConfigRef, 9)
    ensures Resolve(cfg, 0x0301, 64) == Found(StringRef(1), cfg.stringLength(Manufacturer) as uint16)
    ensures Resolve(cfg, 0x0363, 64) == NotFound
    ensures Resolve(cfg, 0xFF00, 64) == NotFound
  {
  }
}

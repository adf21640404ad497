/**
 * The descriptor store of the DFU bootloader (src/descriptors.c): one device
 * descriptor, one composite configuration descriptor and the string table,
 * all constant data fixed by the build configuration.
 *
 * Field layouts are those of sections 9.6.1 (device), 9.6.3
 * (configuration), 9.6.5 (interface) and 9.6.7 (string) of USB 2.0 and of
 * section 4.2.4 (DFU functional descriptor) of the USB DFU 1.1 class
 * specification.
 */
module Descriptors {
  import opened UsbTypes
  import opened DescriptorSet

  // Descriptor types (table 9-5 of USB 2.0; section 4.2.4 of DFU 1.1)
  const USB_DTYPE_DEVICE: uint8 := 0x01
  const USB_DTYPE_CONFIGURATION: uint8 := 0x02
  const USB_DTYPE_STRING: uint8 := 0x03
  const USB_DTYPE_INTERFACE: uint8 := 0x04
  const USB_DTYPE_DFU_FUNCTIONAL: uint8 := 0x21

  // Device class codes
  const USB_CLASS_PER_INTERFACE: uint8 := 0x00
  const USB_SUBCLASS_NONE: uint8 := 0x00
  const USB_PROTO_NONE: uint8 := 0x00
  const USB_CLASS_DFU: uint8 := 0xFE
  const USB_DFU_SUBCLASS_DFU: uint8 := 0x01
  /** Interface protocol of a device in DFU mode (section 4.2.3 of DFU 1.1). */
  const USB_DFU_PROTO_DFU: uint8 := 0x02

  // Configuration attributes (table 9-10 of USB 2.0)
  const USB_CFG_ATTR_RESERVED: uint8 := 0x80
  const USB_CFG_ATTR_SELFPOWERED: uint8 := 0x40

  // bmAttributes bits of the DFU functional descriptor (table 4.2 of DFU 1.1)
  const USB_DFU_ATTR_CAN_DNLOAD: uint8 := 0x01
  const USB_DFU_ATTR_CAN_UPLOAD: uint8 := 0x02
  const USB_DFU_ATTR_MANIF_TOL: uint8 := 0x04
  const USB_DFU_ATTR_WILL_DETACH: uint8 := 0x08

  /** Binary-coded version `major.minor.revision`, as in bcdUSB or bcdDevice. */
  function VersionBcd(major: uint8, minor: uint8, revision: uint8): uint16
  {
    (major as int * 0x100 + (minor as int % 0x10) * 0x10 + revision as int % 0x10) as uint16
  }

  /** bMaxPower counts units of 2 mA; the halved value is truncated to the byte-wide field. */
  function UsbCfgPowerMa(milliamps: uint16): uint8
  {
    ((milliamps / 2) % 0x100) as uint8
  }

  /**
   * The build-time configuration: the two feature flags tested by `#if
   * defined(...)` and the values the descriptors copy from the board
   * configuration.
   */
  datatype BuildConfig = BuildConfig(
    intfEeprom: bool,            // DFU_INTF_EEPROM
    canUpload: bool,             // DFU_CAN_UPLOAD
    ep0Size: uint8,              // DFU_EP0_SIZE
    vendorId: uint16,            // DFU_VENDOR_ID
    deviceId: uint16,            // DFU_DEVICE_ID
    serialNumberIndex: uint8,    // INTSERIALNO_DESCRIPTOR
    detachTimeout: uint16,       // DFU_DETACH_TIMEOUT
    blockSize: uint16,           // DFU_BLOCKSZ
    stringLength: StringId -> uint8)  // bLength of each string descriptor

  // ---------------------------------------------------------------------------
  // Device descriptor (section 9.6.1 of USB 2.0)

  /** `sizeof(struct usb_device_descriptor)`: 14 packed fields, 3 of them 16 bits wide. */
  const DEVICE_DESC_SIZE: uint8 := 18

  datatype DeviceDescriptor = DeviceDescriptor(
    bLength: uint8,
    bDescriptorType: uint8,
    bcdUSB: uint16,
    bDeviceClass: uint8,
    bDeviceSubClass: uint8,
    bDeviceProtocol: uint8,
    bMaxPacketSize0: uint8,
    idVendor: uint16,
    idProduct: uint16,
    bcdDevice: uint16,
    iManufacturer: uint8,
    iProduct: uint8,
    iSerialNumber: uint8,
    bNumConfigurations: uint8)
  {
    /** The packed in-memory layout, field after field. */
    function Bytes(): Bytes
    {
      [bLength, bDescriptorType, Lo(bcdUSB), Hi(bcdUSB), bDeviceClass,
       bDeviceSubClass, bDeviceProtocol, bMaxPacketSize0, Lo(idVendor), Hi(idVendor),
       Lo(idProduct), Hi(idProduct), Lo(bcdDevice), Hi(bcdDevice), iManufacturer,
       iProduct, iSerialNumber, bNumConfigurations]
    }
  }

  /** How a host reads a device descriptor. */
  function ParseDevice(b: Bytes): Option<DeviceDescriptor>
  {
    if |b| != DEVICE_DESC_SIZE as int then None
    else Some(DeviceDescriptor(b[0], b[1], Word(b[2], b[3]), b[4], b[5], b[6], b[7],
                               Word(b[8], b[9]), Word(b[10], b[11]), Word(b[12], b[13]),
                               b[14], b[15], b[16], b[17]))
  }

  /** The bytes of a device descriptor and the descriptor determine each other. */
  lemma DeviceCodec(b: Bytes, d: DeviceDescriptor)
    ensures ParseDevice(b) == Some(d) <==> b == d.Bytes()
  {
    if b == d.Bytes() {
      WordOfBytes(d.bcdUSB);
      WordOfBytes(d.idVendor);
      WordOfBytes(d.idProduct);
      WordOfBytes(d.bcdDevice);
    }
  }

  // ---------------------------------------------------------------------------
  // Configuration descriptor header (section 9.6.3 of USB 2.0)

  /** `sizeof(struct usb_config_descriptor)`: 8 packed fields, 1 of them 16 bits wide. */
  const CONFIG_DESC_SIZE: uint8 := 9

  datatype ConfigurationDescriptor = ConfigurationDescriptor(
    bLength: uint8,
    bDescriptorType: uint8,
    wTotalLength: uint16,
    bNumInterfaces: uint8,
    bConfigurationValue: uint8,
    iConfiguration: uint8,
    bmAttributes: uint8,
    bMaxPower: uint8)
  {
    function Bytes(): Bytes
    {
      [bLength, bDescriptorType, Lo(wTotalLength), Hi(wTotalLength), bNumInterfaces,
       bConfigurationValue, iConfiguration, bmAttributes, bMaxPower]
    }
  }

  /** How a host reads the header of a configuration. */
  function ParseConfiguration(b: Bytes): Option<ConfigurationDescriptor>
  {
    if |b| != CONFIG_DESC_SIZE as int then None
    else Some(ConfigurationDescriptor(b[0], b[1], Word(b[2], b[3]), b[4], b[5], b[6], b[7], b[8]))
  }

  lemma ConfigurationCodec(b: Bytes, c: ConfigurationDescriptor)
    ensures ParseConfiguration(b) == Some(c) <==> b == c.Bytes()
  {
    if b == c.Bytes() {
      WordOfBytes(c.wTotalLength);
    }
  }

  // ---------------------------------------------------------------------------
  // Interface descriptor (section 9.6.5 of USB 2.0)

  /** `sizeof(struct usb_interface_descriptor)`: 9 packed byte fields. */
  const INTERFACE_DESC_SIZE: uint8 := 9

  datatype InterfaceDescriptor = InterfaceDescriptor(
    bLength: uint8,
    bDescriptorType: uint8,
    bInterfaceNumber: uint8,
    bAlternateSetting: uint8,
    bNumEndpoints: uint8,
    bInterfaceClass: uint8,
    bInterfaceSubClass: uint8,
    bInterfaceProtocol: uint8,
    iInterface: uint8)
  {
    function Bytes(): Bytes
    {
      [bLength, bDescriptorType, bInterfaceNumber, bAlternateSetting, bNumEndpoints,
       bInterfaceClass, bInterfaceSubClass, bInterfaceProtocol, iInterface]
    }
  }

  function ParseInterface(b: Bytes): Option<InterfaceDescriptor>
  {
    if |b| != INTERFACE_DESC_SIZE as int then None
    else Some(InterfaceDescriptor(b[0], b[1], b[2], b[3], b[4], b[5], b[6], b[7], b[8]))
  }

  lemma InterfaceCodec(b: Bytes, d: InterfaceDescriptor)
    ensures ParseInterface(b) == Some(d) <==> b == d.Bytes()
  {
    if ParseInterface(b) == Some(d) {
      assert b == [b[0], b[1], b[2], b[3], b[4], b[5], b[6], b[7], b[8]];
    }
  }

  // ---------------------------------------------------------------------------
  // DFU functional descriptor (section 4.2.4 of DFU 1.1)

  /** `sizeof(struct usb_dfu_func_desc)`: 6 packed fields, 3 of them 16 bits wide. */
  const DFU_FUNC_DESC_SIZE: uint8 := 9

  datatype DfuFunctionalDescriptor = DfuFunctionalDescriptor(
    bLength: uint8,
    bDescriptorType: uint8,
    bmAttributes: uint8,
    wDetachTimeout: uint16,
    wTransferSize: uint16,
    bcdDFUVersion: uint16)
  {
    function Bytes(): Bytes
    {
      [bLength, bDescriptorType, bmAttributes, Lo(wDetachTimeout), Hi(wDetachTimeout),
       Lo(wTransferSize), Hi(wTransferSize), Lo(bcdDFUVersion), Hi(bcdDFUVersion)]
    }
  }

  function ParseDfuFunctional(b: Bytes): Option<DfuFunctionalDescriptor>
  {
    if |b| != DFU_FUNC_DESC_SIZE as int then None
    else Some(DfuFunctionalDescriptor(b[0], b[1], b[2], Word(b[3], b[4]),
                                      Word(b[5], b[6]), Word(b[7], b[8])))
  }

  lemma DfuFunctionalCodec(b: Bytes, d: DfuFunctionalDescriptor)
    ensures ParseDfuFunctional(b) == Some(d) <==> b == d.Bytes()
  {
    if b == d.Bytes() {
      WordOfBytes(d.wDetachTimeout);
      WordOfBytes(d.wTransferSize);
      WordOfBytes(d.bcdDFUVersion);
    }
  }

  // ---------------------------------------------------------------------------
  // The composite configuration descriptor (`struct config_desc`, packed)

  datatype ConfigDesc = ConfigDesc(
    config: ConfigurationDescriptor,
    flash: InterfaceDescriptor,
    eeprom: Option<InterfaceDescriptor>,   // present only with DFU_INTF_EEPROM
    dfufunc: DfuFunctionalDescriptor)
  {
    /** The member descriptors in declaration order. */
    function Parts(): seq<Bytes>
    {
      [config.Bytes(), flash.Bytes()]
      + (if eeprom.Some? then [eeprom.value.Bytes()] else [])
      + [dfufunc.Bytes()]
    }

    function Bytes(): Bytes
    {
      Concat(Parts())
    }
  }

  /** `sizeof(struct config_desc)`: its members packed without padding. */
  function ConfigDescSize(withEeprom: bool): nat
  {
    CONFIG_DESC_SIZE as nat + INTERFACE_DESC_SIZE as nat
    + (if withEeprom then INTERFACE_DESC_SIZE as nat else 0)
    + DFU_FUNC_DESC_SIZE as nat
  }

  // ---------------------------------------------------------------------------
  // String descriptors (section 9.6.7 of USB 2.0)

  /** Which string a descriptor holds; its UTF-16 text is not modelled. */
  datatype StringId =
    | LangIds        // the list of supported language IDs
    | Manufacturer   // DFU_STR_MANUF
    | Product        // DFU_STR_PRODUCT
    | ConfigName     // "DFU mode"
    | FlashName      // DFU_STR_INTF0
    | EepromName     // DFU_STR_INTF1

  datatype StringDescriptor = StringDescriptor(id: StringId, bLength: uint8)
  {
    /** The two header bytes in front of the string's UTF-16 code units. */
    function Header(): Bytes
    {
      [bLength, USB_DTYPE_STRING]
    }
  }

  function StringDesc(cfg: BuildConfig, id: StringId): StringDescriptor
  {
    StringDescriptor(id, cfg.stringLength(id))
  }

  // ---------------------------------------------------------------------------
  // The tables

  /** `dfu_device_desc` */
  function DfuDeviceDesc(cfg: BuildConfig): DeviceDescriptor
  {
    DeviceDescriptor(
      bLength := DEVICE_DESC_SIZE,
      bDescriptorType := USB_DTYPE_DEVICE,
      bcdUSB := VersionBcd(2, 0, 0),
      bDeviceClass := USB_CLASS_PER_INTERFACE,
      bDeviceSubClass := USB_SUBCLASS_NONE,
      bDeviceProtocol := USB_PROTO_NONE,
      bMaxPacketSize0 := cfg.ep0Size,
      idVendor := cfg.vendorId,
      idProduct := cfg.deviceId,
      bcdDevice := VersionBcd(1, 0, 0),
      iManufacturer := 1,
      iProduct := 2,
      iSerialNumber := cfg.serialNumberIndex,
      bNumConfigurations := 1)
  }

  function DfuInterface(alternateSetting: uint8, iInterface: uint8): InterfaceDescriptor
  {
    InterfaceDescriptor(
      bLength := INTERFACE_DESC_SIZE,
      bDescriptorType := USB_DTYPE_INTERFACE,
      bInterfaceNumber := 0,
      bAlternateSetting := alternateSetting,
      bNumEndpoints := 0,
      bInterfaceClass := USB_CLASS_DFU,
      bInterfaceSubClass := USB_DFU_SUBCLASS_DFU,
      bInterfaceProtocol := USB_DFU_PROTO_DFU,
      iInterface := iInterface)
  }

  /** The DFU capability flags chosen by DFU_CAN_UPLOAD. */
  function DfuAttributes(canUpload: bool): uint8
  {
    if canUpload then
      BitOr(BitOr(USB_DFU_ATTR_CAN_DNLOAD, USB_DFU_ATTR_CAN_UPLOAD), USB_DFU_ATTR_MANIF_TOL)
    else
      BitOr(BitOr(USB_DFU_ATTR_CAN_DNLOAD, USB_DFU_ATTR_WILL_DETACH), USB_DFU_ATTR_MANIF_TOL)
  }

  /** `dfu_config_desc` */
  function DfuConfigDesc(cfg: BuildConfig): ConfigDesc
  {
    ConfigDesc(
      config := ConfigurationDescriptor(
        bLength := CONFIG_DESC_SIZE,
        bDescriptorType := USB_DTYPE_CONFIGURATION,
        wTotalLength := ConfigDescSize(cfg.intfEeprom) as uint16,
        bNumInterfaces := 1,
        bConfigurationValue := 1,
        iConfiguration := 3,
        bmAttributes := BitOr(USB_CFG_ATTR_RESERVED, USB_CFG_ATTR_SELFPOWERED),
        bMaxPower := UsbCfgPowerMa(100)),
      flash := DfuInterface(0, 4),
      eeprom := if cfg.intfEeprom then Some(DfuInterface(1, 5)) else None,
      dfufunc := DfuFunctionalDescriptor(
        bLength := DFU_FUNC_DESC_SIZE,
        bDescriptorType := USB_DTYPE_DFU_FUNCTIONAL,
        bmAttributes := DfuAttributes(cfg.canUpload),
        wDetachTimeout := cfg.detachTimeout,
        wTransferSize := cfg.blockSize,
        bcdDFUVersion := VersionBcd(1, 1, 0)))
  }

  /** `dtable`: the string descriptors in index order. */
  function DTable(cfg: BuildConfig): seq<StringDescriptor>
  {
    [StringDesc(cfg, LangIds), StringDesc(cfg, Manufacturer), StringDesc(cfg, Product),
     StringDesc(cfg, ConfigName), StringDesc(cfg, FlashName)]
    + (if cfg.intfEeprom then [StringDesc(cfg, EepromName)] else [])
  }

  // ---------------------------------------------------------------------------
  // References to the stored descriptors

  /** What `*address` may point at after a successful lookup. */
  datatype DescRef = DeviceRef | ConfigRef | StringRef(index: nat)

  predicate ValidRef(cfg: BuildConfig, r: DescRef)
  {
    r.StringRef? ==> r.index < |DTable(cfg)|
  }

  /**
   * The bytes stored at `r`, as far as the model knows them: the whole
   * device and configuration descriptors, and the header of a string
   * descriptor.
   */
  function Memory(cfg: BuildConfig, r: DescRef): Bytes
    requires ValidRef(cfg, r)
  {
    match r
    case DeviceRef => DfuDeviceDesc(cfg).Bytes()
    case ConfigRef => DfuConfigDesc(cfg).Bytes()
    case StringRef(i) => DTable(cfg)[i].Header()
  }


  // ---------------------------------------------------------------------------
  // Properties of the tables

  /**
   * The device descriptor is 18 bytes, announces that size in bLength, and
   * copies the board values verbatim.
   */
  lemma DeviceDescriptorLayout(cfg: BuildConfig)
    ensures var d := DfuDeviceDesc(cfg); |d.Bytes()| == 18 == d.bLength as int
    ensures var d := DfuDeviceDesc(cfg); d.Bytes()[..2] == [18, USB_DTYPE_DEVICE]
    ensures var d := DfuDeviceDesc(cfg); d.bcdUSB == 0x0200 && d.bcdDevice == 0x0100
    ensures var d := DfuDeviceDesc(cfg); d.bDeviceClass == 0 && d.bDeviceSubClass == 0 && d.bDeviceProtocol == 0
    ensures var d := DfuDeviceDesc(cfg); d.bNumConfigurations == 1
    ensures var d := DfuDeviceDesc(cfg); d.bMaxPacketSize0 == cfg.ep0Size
    ensures var d := DfuDeviceDesc(cfg); d.idVendor == cfg.vendorId && d.idProduct == cfg.deviceId
    ensures var d := DfuDeviceDesc(cfg); d.iSerialNumber == cfg.serialNumberIndex
  {
  }

  /**
   * A composite whose members announce their true sizes in bLength is as
   * long as `sizeof(struct config_desc)`, starts with its header, and is
   * split back into its members by a host's walk.
   */
  lemma CompositeLayout(c: ConfigDesc)
    requires c.config.bLength == CONFIG_DESC_SIZE && c.flash.bLength == INTERFACE_DESC_SIZE
    requires c.eeprom.Some? ==> c.eeprom.value.bLength == INTERFACE_DESC_SIZE
    requires c.dfufunc.bLength == DFU_FUNC_DESC_SIZE
    ensures |c.Bytes()| == ConfigDescSize(c.eeprom.Some?)
    ensures c.Bytes()[..CONFIG_DESC_SIZE] == c.config.Bytes()
    ensures Walk(c.Bytes()) == Some(c.Parts())
  {
    var parts := c.Parts();
    assert forall i :: 0 <= i < |parts| ==> |parts[i]| == 9 && SelfDelimiting(parts[i]);
    ConcatSize(parts);
    SizesUniform(parts, 9);
    ConcatPrefix(parts);
    WalkConcat(parts);
  }

  /**
   * wTotalLength is the size of the whole packed composite, 27 bytes or 36
   * with the EEPROM alternate interface; the composite starts with the
   * 9-byte header, whose bytes 2 and 3 hold wTotalLength little-endian.
   */
  lemma ConfigTotalLength(cfg: BuildConfig)
    ensures var c := DfuConfigDesc(cfg); c.config.wTotalLength as int == |c.Bytes()|
    ensures var c := DfuConfigDesc(cfg); |c.Bytes()| == (if cfg.intfEeprom then 36 else 27)
    ensures var c := DfuConfigDesc(cfg); c.Bytes()[..9] == c.config.Bytes()
    ensures var c := DfuConfigDesc(cfg); c.Bytes()[..2] == [9, USB_DTYPE_CONFIGURATION]
    ensures var c := DfuConfigDesc(cfg);
      c.Bytes()[2] == Lo(c.config.wTotalLength) && c.Bytes()[3] == Hi(c.config.wTotalLength)
  {
    CompositeLayout(DfuConfigDesc(cfg));
  }

  /**
   * A host that walks the configuration descriptor by bLength finds the
   * header, the flash interface, the EEPROM interface when it is built in,
   * and the DFU functional descriptor, in that order and nothing else.
   */
  lemma ConfigWalk(cfg: BuildConfig)
    ensures Walk(DfuConfigDesc(cfg).Bytes()).Some?
    ensures var c := DfuConfigDesc(cfg);
      var found := Walk(c.Bytes()).value;
      && |found| == (if cfg.intfEeprom then 4 else 3)
      && found[0] == c.config.Bytes()
      && found[1] == c.flash.Bytes()
      && (cfg.intfEeprom ==> found[2] == c.eeprom.value.Bytes())
      && found[|found| - 1] == c.dfufunc.Bytes()
  {
    CompositeLayout(DfuConfigDesc(cfg));
  }

  /**
   * The fixed fields: one interface, configuration value 1, self-powered at
   * 100 mA, interface 0 with the flash at alternate setting 0 and the
   * EEPROM at alternate setting 1, both DFU-mode interfaces without
   * endpoints, DFU version 1.1, and the board's timeout and block size.
   */
  lemma ConfigFixedFields(cfg: BuildConfig)
    ensures var c := DfuConfigDesc(cfg);
      && c.config.bNumInterfaces == 1
      && c.config.bConfigurationValue == 1
      && c.config.bmAttributes == 0xC0
      && c.config.bMaxPower == 50
      && c.flash.bInterfaceNumber == 0 && c.flash.bAlternateSetting == 0
      && (c.eeprom.Some? <==> cfg.intfEeprom)
      && (c.eeprom.Some? ==> c.eeprom.value.bInterfaceNumber == 0 && c.eeprom.value.bAlternateSetting == 1)
      && (forall i :: i in [c.flash] + (if c.eeprom.Some? then [c.eeprom.value] else []) ==>
            i.bNumEndpoints == 0 && i.bInterfaceClass == 0xFE
            && i.bInterfaceSubClass == 0x01 && i.bInterfaceProtocol == 0x02)
      && c.dfufunc.bcdDFUVersion == 0x0110
      && c.dfufunc.wDetachTimeout == cfg.detachTimeout
      && c.dfufunc.wTransferSize == cfg.blockSize
  {
  }

  /**
   * With DFU_CAN_UPLOAD the device advertises download, upload and
   * manifestation tolerance but not will-detach; without it, download,
   * will-detach and manifestation tolerance but not upload. No other bit is set.
   */
  lemma DfuCapabilities(cfg: BuildConfig)
    ensures var a := DfuConfigDesc(cfg).dfufunc.bmAttributes;
      && HasBits(a, USB_DFU_ATTR_CAN_DNLOAD)
      && HasBits(a, USB_DFU_ATTR_MANIF_TOL)
      && (HasBits(a, USB_DFU_ATTR_CAN_UPLOAD) <==> cfg.canUpload)
      && (HasBits(a, USB_DFU_ATTR_WILL_DETACH) <==> !cfg.canUpload)
      && a < 0x10
  {
  }

  /**
   * The string table has five entries, six with the EEPROM interface; entry
   * 0 is the language-ID list, and every string index the device and
   * configuration descriptors use names the intended entry.
   */
  lemma StringIndices(cfg: BuildConfig)
    ensures var t := DTable(cfg);
      var d := DfuDeviceDesc(cfg);
      var c := DfuConfigDesc(cfg);
      && |t| == (if cfg.intfEeprom then 6 else 5)
      && t[0] == StringDesc(cfg, LangIds)
      && d.iManufacturer as int < |t| && t[d.iManufacturer] == StringDesc(cfg, Manufacturer)
      && d.iProduct as int < |t| && t[d.iProduct] == StringDesc(cfg, Product)
      && c.config.iConfiguration as int < |t| && t[c.config.iConfiguration] == StringDesc(cfg, ConfigName)
      && c.flash.iInterface as int < |t| && t[c.flash.iInterface] == StringDesc(cfg, FlashName)
      && (c.eeprom.Some? ==> c.eeprom.value.iInterface as int < |t|
                             && t[c.eeprom.value.iInterface] == StringDesc(cfg, EepromName))
  {
  }
}

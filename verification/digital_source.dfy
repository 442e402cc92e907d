/** Resolution of a digital source handle to a physical pin, module and trigger flag.

    A digital source is either a DIO pin or the output of an analog trigger. The
    resolver writes three reference parameters; here they are a record passed in
    with their prior values and returned with their new ones.
 */
module DigitalSource {
  import opened Unsigned
  import opened Handles
  import Remap

  /** The reference parameters `pin`, `module` and `analogTrigger`. */
  datatype Address = Address(pin: u32, moduleNum: u8, analogTrigger: bool)

  /** The resolver's boolean result together with the reference parameters after the call. */
  datatype Resolution = Resolution(ok: bool, out: Address)

  /** Module number of the onboard DIO header. */
  const ONBOARD_MODULE: u8 := 0

  /** Module number of the expansion-port DIO bank. */
  const MXP_MODULE: u8 := 1

  /** The controller's number of onboard DIO header pins; the expansion remap
      lines up with it because MXP pins start at `Remap.MXP_FIRST_PIN`. */
  const CONTROLLER_DIGITAL_HEADERS: u32 := 10

  /** Pseudo-pin of an analog trigger: `(index << 2) + type` in `uint32_t`,
      so the trigger type sits in the two low bits. */
  function AnalogTriggerPin(index: u32, triggerType: u32): (pin: u32)
    ensures pin == (4 * index + triggerType) % U32_LIMIT
    ensures index < U32_LIMIT / 4 && triggerType < 4 ==>
              pin == 4 * index + triggerType && pin / 4 == index && pin % 4 == triggerType
  {
    Add(ShiftLeft2(index), triggerType)
  }

  /** Trigger bank owning a pseudo-pin: `pin >> 4`, truncated to `uint8_t`. */
  function AnalogTriggerModule(pin: u32): (moduleNum: u8)
    ensures moduleNum == (pin / 16) % U8_LIMIT
    ensures pin < 16 * U8_LIMIT ==> moduleNum == pin / 16
  {
    ToU8(ShiftRight4(pin))
  }

  /** Resolves `h` with trigger type `triggerType`; `numDigitalHeaders` is the number
      of onboard DIO pins. Analog-trigger and DIO handles succeed; any other kind
      fails and leaves the reference parameters as they were. */
  function RemapDigitalSource(h: Handle, triggerType: u32, numDigitalHeaders: u32, prior: Address)
    : (r: Resolution)
    ensures r.ok <==> h.kind == AnalogTrigger || h.kind == DIO
    ensures !r.ok ==> r.out == prior
    ensures h.kind == AnalogTrigger ==>
              && r.out.analogTrigger
              && r.out.pin == (4 * h.index + triggerType) % U32_LIMIT
              && r.out.moduleNum == (r.out.pin / 16) % U8_LIMIT
    ensures h.kind == DIO ==> !r.out.analogTrigger
    ensures h.kind == DIO && h.index >= numDigitalHeaders ==>
              r.out.moduleNum == MXP_MODULE && (r.out.pin + Remap.MXP_FIRST_PIN) % U32_LIMIT == h.index
    ensures h.kind == DIO && h.index < numDigitalHeaders ==>
              r.out.moduleNum == ONBOARD_MODULE && r.out.pin == h.index
  {
    if IsHandleType(h, AnalogTrigger) then
      var pin := AnalogTriggerPin(h.index, triggerType);
      Resolution(true, Address(pin, AnalogTriggerModule(pin), true))
    else if IsHandleType(h, DIO) then
      if h.index >= numDigitalHeaders then
        Resolution(true, Address(Remap.RemapMXPChannel(h.index), MXP_MODULE, false))
      else
        Resolution(true, Address(h.index, ONBOARD_MODULE, false))
    else
      Resolution(false, prior)
  }

  /** What an address identifies: a trigger slot and type, or a DIO slot. */
  datatype Source = TriggerSource(index: u32, triggerType: u32) | DIOSource(index: u32)

  /** Reads the source back out of a resolved address: the inverse of the resolver
      on the inputs where the packing loses nothing. */
  function SourceOf(a: Address): Source
  {
    if a.analogTrigger then
      TriggerSource(a.pin / 4, a.pin % 4)
    else if a.moduleNum == MXP_MODULE then
      DIOSource(Remap.MXPPinOf(a.pin))
    else
      DIOSource(a.pin)
  }

  /** A DIO handle's slot can always be read back from its address, whatever the
      onboard header count: distinct DIO slots get distinct addresses. */
  lemma DIOAddressRoundTrip(h: Handle, triggerType: u32, numDigitalHeaders: u32, prior: Address)
    requires h.kind == DIO
    ensures SourceOf(RemapDigitalSource(h, triggerType, numDigitalHeaders, prior).out) == DIOSource(h.index)
  {
    if h.index >= numDigitalHeaders {
      Remap.RemapMXPChannelBijective(h.index, 0);
    }
  }

  /** An analog trigger whose type fits in two bits and whose index survives the
      shift can be read back from its pseudo-pin; its module is the index divided
      by four, kept to eight bits. */
  lemma AnalogTriggerAddressRoundTrip(h: Handle, triggerType: u32, numDigitalHeaders: u32, prior: Address)
    requires h.kind == AnalogTrigger
    requires triggerType < 4 && h.index < U32_LIMIT / 4
    ensures var a := RemapDigitalSource(h, triggerType, numDigitalHeaders, prior).out;
            && SourceOf(a) == TriggerSource(h.index, triggerType)
            && a.moduleNum == (h.index / 4) % U8_LIMIT
            && (h.index < 4 * U8_LIMIT ==> a.moduleNum == h.index / 4)
  {
    var pin := 4 * h.index + triggerType;
    assert pin / 16 == h.index / 4;
  }

  /** Two successful resolutions that produce the same address came from the same
      source, provided analog triggers stay within the packing's range. */
  lemma RemapDigitalSourceInjective(g: Handle, h: Handle, gt: u32, ht: u32, numDigitalHeaders: u32,
                                    gp: Address, hp: Address)
    requires g.kind == DIO || (g.kind == AnalogTrigger && gt < 4 && g.index < U32_LIMIT / 4)
    requires h.kind == DIO || (h.kind == AnalogTrigger && ht < 4 && h.index < U32_LIMIT / 4)
    requires RemapDigitalSource(g, gt, numDigitalHeaders, gp).out == RemapDigitalSource(h, ht, numDigitalHeaders, hp).out
    ensures g == h
    ensures g.kind == AnalogTrigger ==> gt == ht
  {
    if g.kind == DIO {
      DIOAddressRoundTrip(g, gt, numDigitalHeaders, gp);
    } else {
      AnalogTriggerAddressRoundTrip(g, gt, numDigitalHeaders, gp);
    }
    if h.kind == DIO {
      DIOAddressRoundTrip(h, ht, numDigitalHeaders, hp);
    } else {
      AnalogTriggerAddressRoundTrip(h, ht, numDigitalHeaders, hp);
    }
  }

  /** With the ten onboard header pins of the controller, onboard pins keep their
      number in module 0 and expansion pins 10 to 26 land on bit fields 0 to 16 of
      module 1, with no wrap-around. */
  lemma DIOBanksWithTenHeaders(h: Handle, triggerType: u32, numDigitalHeaders: u32, prior: Address)
    requires numDigitalHeaders == CONTROLLER_DIGITAL_HEADERS
    requires h.kind == DIO && h.index < Remap.MXP_PIN_LIMIT
    ensures var a := RemapDigitalSource(h, triggerType, numDigitalHeaders, prior).out;
            && (h.index < numDigitalHeaders ==> a == Address(h.index, ONBOARD_MODULE, false))
            && (h.index >= numDigitalHeaders ==>
                  a == Address(h.index - Remap.MXP_FIRST_PIN, MXP_MODULE, false) && a.pin < Remap.MXP_DIO_CHANNELS)
  {
  }

  /** With fewer than ten onboard header pins the expansion remap does not line up:
      the first expansion slot wraps to `2^32 - 10 + numDigitalHeaders`, near the top
      of the `uint32_t` range. */
  lemma DIOBanksMisalignedBelowTenHeaders(numDigitalHeaders: u32, triggerType: u32, prior: Address)
    requires numDigitalHeaders < CONTROLLER_DIGITAL_HEADERS
    ensures RemapDigitalSource(Handle(DIO, numDigitalHeaders), triggerType, numDigitalHeaders, prior).out.pin
            == U32_LIMIT - Remap.MXP_FIRST_PIN + numDigitalHeaders
  {
  }

  /** The first expansion slot lands on bit field 0 exactly when the header count is
      the controller's ten: with fewer it wraps, with more it lands on `count - 10`. */
  lemma FirstMXPSlotAlignedIffTenHeaders(numDigitalHeaders: u32, triggerType: u32, prior: Address)
    ensures RemapDigitalSource(Handle(DIO, numDigitalHeaders), triggerType, numDigitalHeaders, prior).out.pin == 0
            <==> numDigitalHeaders == CONTROLLER_DIGITAL_HEADERS
  {
  }

  /** Analog trigger slot 3 with trigger type 2 resolves to pseudo-pin 14 in module 0,
      whatever the header count. */
  lemma AnalogTriggerExample(numDigitalHeaders: u32, prior: Address)
    ensures RemapDigitalSource(Handle(AnalogTrigger, 3), 2, numDigitalHeaders, prior)
            == Resolution(true, Address(14, 0, true))
  {
  }

  /** The first expansion slot resolves to bit field 0 of module 1. */
  lemma FirstMXPSlotExample(numDigitalHeaders: u32, prior: Address)
    requires numDigitalHeaders == CONTROLLER_DIGITAL_HEADERS
    ensures RemapDigitalSource(Handle(DIO, numDigitalHeaders), 0, numDigitalHeaders, prior)
            == Resolution(true, Address(0, MXP_MODULE, false))
  {
  }
}

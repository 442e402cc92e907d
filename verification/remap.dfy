/** Pin remapping for the expansion port (MXP).

    Logical DIO pins 10 and up live on the expansion port; the register interface
    numbers its bit fields from 0. PWM-capable expansion pins skip the block of
    outputs that the SPI bus occupies.
 */
module Remap {
  import opened Unsigned

  /** The first logical pin on the expansion port. */
  const MXP_FIRST_PIN: u32 := 10

  /** One past the last documented expansion-port DIO pin, 26. */
  const MXP_PIN_LIMIT: u32 := 27

  /** Number of expansion-port DIO bit fields: pins 10 to 26. */
  const MXP_DIO_CHANNELS: u32 := MXP_PIN_LIMIT - MXP_FIRST_PIN

  /** The first logical PWM pin after the SPI block. */
  const MXP_PWM_AFTER_SPI: u32 := 14

  /** Logical pin minus physical channel for PWM pins after the SPI block. */
  const MXP_PWM_SPI_OFFSET: u32 := 6

  /** Bit-field position of an expansion-port DIO pin: `pin - 10` in `uint32_t`. */
  function RemapMXPChannel(pin: u32): (r: u32)
    ensures pin >= MXP_FIRST_PIN ==> r == pin - MXP_FIRST_PIN
    ensures pin < MXP_FIRST_PIN ==> r == pin - MXP_FIRST_PIN + U32_LIMIT
  {
    Sub(pin, MXP_FIRST_PIN)
  }

  /** The logical pin whose bit-field position is `bit`: the inverse of RemapMXPChannel. */
  function MXPPinOf(bit: u32): u32
  {
    Add(bit, MXP_FIRST_PIN)
  }

  /** RemapMXPChannel is a bijection on `uint32_t`; MXPPinOf undoes it both ways. */
  lemma RemapMXPChannelBijective(pin: u32, bit: u32)
    ensures MXPPinOf(RemapMXPChannel(pin)) == pin
    ensures RemapMXPChannel(MXPPinOf(bit)) == bit
  {
  }

  /** Expansion-port pins 10 to 26 land in bit fields 0 to 16, in order. */
  lemma RemapMXPChannelRange(pin: u32)
    requires MXP_FIRST_PIN <= pin < MXP_PIN_LIMIT
    ensures RemapMXPChannel(pin) < MXP_DIO_CHANNELS
    ensures RemapMXPChannel(pin) + MXP_FIRST_PIN == pin
  {
  }

  /** Physical channel of a PWM-capable expansion pin.
      Pins 10 to 13 are the first block of four channels (0 to 3); pins 14 and up
      skip the four SPI channels and land at 8 and above. The SPI block 4 to 7 is
      never produced, whatever the input. */
  function RemapMXPPWMChannel(pin: u32): (r: u32)
    ensures MXP_FIRST_PIN <= pin < MXP_PWM_AFTER_SPI ==> r == pin - MXP_FIRST_PIN && r < 4
    ensures pin >= MXP_PWM_AFTER_SPI ==> r == pin - MXP_PWM_SPI_OFFSET && r >= 8
    ensures pin < MXP_FIRST_PIN ==> r == pin - MXP_FIRST_PIN + U32_LIMIT
    ensures !(4 <= r < 8)
  {
    if pin < MXP_PWM_AFTER_SPI then
      Sub(pin, MXP_FIRST_PIN)
    else
      Sub(pin, MXP_PWM_SPI_OFFSET)
  }

  /** The channels RemapMXPPWMChannel can produce from an expansion pin:
      outside the SPI block and low enough to have a pin. */
  predicate IsMXPPWMChannel(ch: u32)
  {
    ch < 4 || (8 <= ch && ch + MXP_PWM_SPI_OFFSET < U32_LIMIT)
  }

  /** The expansion pin driving PWM channel `ch`: the inverse of RemapMXPPWMChannel. */
  function MXPPWMPinOf(ch: u32): u32
    requires IsMXPPWMChannel(ch)
  {
    if ch < 4 then ch + MXP_FIRST_PIN else ch + MXP_PWM_SPI_OFFSET
  }

  /** On expansion pins, MXPPWMPinOf undoes RemapMXPPWMChannel, and every channel
      it can produce comes from exactly that pin. */
  lemma RemapMXPPWMChannelRoundTrip(pin: u32, ch: u32)
    ensures pin >= MXP_FIRST_PIN ==>
              IsMXPPWMChannel(RemapMXPPWMChannel(pin)) && MXPPWMPinOf(RemapMXPPWMChannel(pin)) == pin
    ensures IsMXPPWMChannel(ch) ==>
              MXPPWMPinOf(ch) >= MXP_FIRST_PIN && RemapMXPPWMChannel(MXPPWMPinOf(ch)) == ch
  {
  }

  /** Distinct expansion pins never share a PWM channel. */
  lemma RemapMXPPWMChannelInjective(p: u32, q: u32)
    requires p >= MXP_FIRST_PIN && q >= MXP_FIRST_PIN
    requires RemapMXPPWMChannel(p) == RemapMXPPWMChannel(q)
    ensures p == q
  {
    RemapMXPPWMChannelRoundTrip(p, 0);
    RemapMXPPWMChannelRoundTrip(q, 0);
  }

  /** Injectivity needs the caller's range check: onboard pin 0 and the top of the
      `uint32_t` range collide once the subtraction wraps. */
  lemma RemapMXPPWMChannelCollidesBelowMXP()
    ensures RemapMXPPWMChannel(0) == RemapMXPPWMChannel(U32_LIMIT - 4)
  {
  }
}

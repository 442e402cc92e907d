# Digital I/O addressing of the roboRIO hardware abstraction layer

This project models the addressing core of the HAL's digital subsystem
(`hal/lib/athena/DigitalInternal.cpp`) and proves properties of it in Dafny:

- **Pin remapping** (`Remap`): expansion-port (MXP) DIO pins 10 and up map to bit-field
  positions `pin - 10`; PWM-capable MXP pins 10–13 map to channels 0–3 and pins 14 and up to
  `pin - 6`, skipping channels 4–7, which belong to the SPI bus. Both are `uint32_t`
  subtractions, so below pin 10 they wrap around; the model keeps that wrap.
- **Digital source resolution** (`DigitalSource`): a handle is an analog trigger (pseudo-pin
  `(index << 2) + type`, module `pin >> 4` as `uint8_t`), a DIO pin (onboard header pin in
  module 0, or MXP pin remapped into module 1), or anything else, which fails and leaves the
  three reference parameters untouched.
- **Bring-up skeleton** (`DigitalInit`): the one-shot `digitalSystemsInitialized` guard and the
  loop that disables every PWM output and sets every period scale to 4x (register value 3),
  choosing the header or MXP register bank per channel. Register writes are recorded in a log
  carried by the subsystem state.

`Unsigned` spells out `uint32_t`/`uint8_t` wrap-around over unbounded integers, and `Handles`
gives handles as a (kind, index) pair.

The hardware constants (`kNumDigitalHeaders`, `kNumPWMPins`, `tPWM::kNumHdrRegisters`,
`tPWM::kNumPeriodScaleHdrElements`, `kPwmDisabled`) are declared in headers that are not part
of this model; they are parameters here. `RemapDigitalSource` takes the header count as a
parameter; where a property needs the controller's value of ten onboard DIO headers, it says
so in a `requires`.

## Model

| member | source | states |
|---|---|---|
| `Remap.RemapMXPChannel` | hal/lib/athena/DigitalInternal.cpp:93-97 | the bit-field position is `pin - 10` for pins 10 and up, and `pin - 10 + 2^32` (the `uint32_t` wrap) below 10 |
| `Remap.RemapMXPChannelBijective` | hal/lib/athena/DigitalInternal.cpp:97 | adding 10 modulo 2^32 undoes the remap in both directions, so distinct pins never share a bit field |
| `Remap.RemapMXPChannelRange` | hal/lib/athena/DigitalInternal.cpp:93-97 | the documented expansion pins 10 to 26 land in bit fields 0 to 16 with no wrap |
| `Remap.RemapMXPPWMChannel` | hal/lib/athena/DigitalInternal.cpp:99-105 | pins 10–13 give channels 0–3, pins 14 and up give `pin - 6` (at least 8), pins below 10 wrap; no input ever yields the SPI channels 4–7 |
| `Remap.RemapMXPPWMChannelRoundTrip` | hal/lib/athena/DigitalInternal.cpp:99-105 | on pins 10 and up the remap is inverted by adding 10 (channels 0–3) or 6 (channels 8 and up), and every such channel comes back to its pin |
| `Remap.RemapMXPPWMChannelInjective` | hal/lib/athena/DigitalInternal.cpp:99-105 | two expansion pins with the same PWM channel are the same pin |
| `Remap.RemapMXPPWMChannelCollidesBelowMXP` | hal/lib/athena/DigitalInternal.cpp:99-101 | without the caller's range check injectivity fails: pin 0 and pin 2^32-4 share a channel |
| `DigitalSource.AnalogTriggerPin` | hal/lib/athena/DigitalInternal.cpp:118 | the pseudo-pin is `(4 * index + type) mod 2^32` for every input; when the index survives the shift and the type fits in two bits it is `4 * index + type`, dividing back to the index with the type as remainder |
| `DigitalSource.AnalogTriggerModule` | hal/lib/athena/DigitalInternal.cpp:119 | the module is `(pin / 16) mod 256` for every pseudo-pin, and exactly `pin / 16` below 4096 |
| `DigitalSource.RemapDigitalSource` | hal/lib/athena/DigitalInternal.cpp:112-136 | succeeds exactly for analog-trigger and DIO handles; a trigger gets pin `(4*index + type) mod 2^32`, module `(pin / 16) mod 256` and the trigger flag; a DIO slot at or past the header count gets module 1 and a pin 10 below the slot modulo 2^32, a slot below it gets module 0 and its own number, both without the flag; any other handle fails and leaves pin, module and flag as they were |
| `DigitalSource.DIOAddressRoundTrip` | hal/lib/athena/DigitalInternal.cpp:122-132 | for any header count, the DIO slot is recovered from the resolved address, so distinct DIO slots get distinct addresses |
| `DigitalSource.AnalogTriggerAddressRoundTrip` | hal/lib/athena/DigitalInternal.cpp:115-121 | for a two-bit type and an index below 2^30, index and type are recovered from the pseudo-pin, the module is `(index / 4) mod 256`, and exactly `index / 4` for indices below 1024 |
| `DigitalSource.RemapDigitalSourceInjective` | hal/lib/athena/DigitalInternal.cpp:112-132 | two DIO or in-range analog-trigger sources that resolve to the same address are the same handle, and two triggers also have the same trigger type |
| `DigitalSource.DIOBanksWithTenHeaders` | hal/lib/athena/DigitalInternal.cpp:122-130 | with ten header pins, slots 0–9 stay in module 0 and slots 10–26 become bit fields 0–16 of module 1 |
| `DigitalSource.DIOBanksMisalignedBelowTenHeaders` | hal/lib/athena/DigitalInternal.cpp:124-125 | with a header count below ten the first MXP slot wraps to `2^32 - 10 + count` instead of landing on bit field 0 |
| `DigitalSource.FirstMXPSlotAlignedIffTenHeaders` | hal/lib/athena/DigitalInternal.cpp:124-125 | the first MXP slot lands on bit field 0 if and only if the header count is ten: the remap lines up only with ten headers |
| `DigitalSource.AnalogTriggerExample` | hal/lib/athena/DigitalInternal.cpp:115-121 | trigger slot 3 with type 2 resolves to pseudo-pin 14 in module 0, for any header count |
| `DigitalSource.FirstMXPSlotExample` | hal/lib/athena/DigitalInternal.cpp:122-127 | with ten headers, DIO slot 10 resolves to bit field 0 of module 1 |
| `DigitalInit.SelectBank` | hal/lib/athena/DigitalInternal.cpp:74-87 | a channel goes to the header bank exactly when it is below the header count |
| `DigitalInit.SelectBankBijective` | hal/lib/athena/DigitalInternal.cpp:74-87 | bank selection is a bijection between channels and reachable slots (every MXP offset, header offsets below the count) |
| `DigitalInit.ChannelWrite` | hal/lib/athena/DigitalInternal.cpp:74-87 | a channel's value write carries `kPwmDisabled` and its period-scale write carries 3; below its register kind's header count it goes to header register `channel`, otherwise to MXP register `channel - count` |
| `DigitalInit.DisableWrites` | hal/lib/athena/DigitalInternal.cpp:72-88 | n iterations perform 2n writes; write k is the value (k even) or period-scale (k odd) write of channel k/2 |
| `DigitalInit.DisablePwmOutputs` | hal/lib/athena/DigitalInternal.cpp:72-88 | the loop over channels 0 to `kNumPWMPins - 1` performs exactly the writes of DisableWrites, each carrying its register's disabled value |
| `DigitalInit.DisableWritesEachSlotOnce` | hal/lib/athena/DigitalInternal.cpp:72-88 | after n iterations each reachable register slot of a channel below n is written exactly once and every other slot never |
| `DigitalInit.InitializeDigital` | hal/lib/athena/DigitalInternal.cpp:39-91 | a call sets the flag; on an initialized system it changes nothing; otherwise it keeps earlier writes as a prefix and adds two writes per PWM channel |
| `DigitalInit.InitializeDigitalIdempotent` | hal/lib/athena/DigitalInternal.cpp:40 | a second call is a no-op |
| `DigitalInit.InitializeTimesIsOnce` | hal/lib/athena/DigitalInternal.cpp:39-91 | any positive number of successive calls has the effect of a single call |
| `DigitalInit.ProgrammedExactlyOnce` | hal/lib/athena/DigitalInternal.cpp:39-91 | from start-up, any positive number of calls leaves the system initialized with every reachable PWM register slot programmed exactly once, PWM values with `kPwmDisabled` and period scales with 3 |

## Left out

- Creation of the DIO, relay and PWM hardware objects (`tDIO::create`, `tRelay::create`, `tPWM::create`) and the relay zeroing writes (lines 42-52): they go through the FPGA register interface, which is not part of this model.
- The wait for a non-zero loop timing (line 56): an unbounded hardware poll with `std::this_thread::yield` whose termination depends on the hardware.
- The loop-timing mismatch status and the period and minimum-high computation and writes (lines 58-70): they depend on a hardware read and on `double` arithmetic with `+ .5` rounding.
- `digitalPwmMutex` and thread safety: the file only declares the mutex; the model treats calls as sequential. The guard in the source is a plain `bool`, read without a lock and set only after the loop, so there is no separate "initializing" state and nothing stops two first callers from both running the sequence; the model has the two states the flag can hold.
- Status accumulation through `int32_t* status`: it only threads through the hardware calls left out above.
- `digitalPinHandles` and the handle encoding: `DigitalHandleResource`, `isHandleType` and `getHandleIndex` are declared in headers that are not part of this model; handles are a (kind, index) pair with the index already converted to `uint32_t`.
- The exact set of `HAL_AnalogTriggerType` values is defined in a header that is not part of this model; the trigger type is taken as the `uint32_t` it becomes in `(index << 2) + type`, and the round-trip properties assume it is below 4.
- The hardware constants' values are not modelled; they are parameters. The controller's ten onboard DIO headers (`CONTROLLER_DIGITAL_HEADERS`) appear only in the `requires` of `DIOBanksWithTenHeaders` and `FirstMXPSlotExample`, as the bound in `DIOBanksMisalignedBelowTenHeaders`, and in the equivalence of `FirstMXPSlotAlignedIffTenHeaders`.

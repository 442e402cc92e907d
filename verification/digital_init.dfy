/** The control skeleton of the digital subsystem's one-shot bring-up.

    Bring-up is guarded by a process-wide flag. Of the hardware programming it
    performs, this model keeps the loop that forces every PWM output to the
    disabled value and every period scale to 4x, sending each channel to the
    onboard header registers or to the expansion-port (MXP) registers. Register
    writes are recorded in a log of abstract writes.
 */
module DigitalInit {
  import opened Unsigned

  /** The two physical register banks of the PWM hardware. */
  datatype Bank = Header | MXP

  /** The per-channel PWM registers the disable loop writes. */
  datatype Register = PwmValue | PeriodScale

  /** A register position: a bank and an offset within it. */
  datatype Slot = Slot(bank: Bank, offset: nat)

  /** One register write: which register, where, and the value written. */
  datatype Write = Write(register: Register, bank: Bank, offset: nat, value: nat)

  /** The compile-time constants the loop depends on: the number of PWM channels,
      how many PWM value and period-scale registers sit in the header bank, and
      the value that disables an output. */
  datatype PwmConstants = PwmConstants(
    numPWMPins: u32,
    numHdrRegisters: u32,
    numPeriodScaleHdrElements: u32,
    pwmDisabled: nat)

  /** Period-scale register value selecting the 4x scale. */
  const PERIOD_SCALE_4X: nat := 3

  /** The digital subsystem's process-wide state: the initialized flag and the
      register writes performed so far. */
  datatype DigitalSystem = DigitalSystem(initialized: bool, writes: seq<Write>)

  /** Bank selection: a channel below `headerCount` is header register `channel`;
      the others are MXP registers numbered from `headerCount`. */
  function SelectBank(channel: nat, headerCount: nat): (s: Slot)
    ensures s.bank == Header <==> channel < headerCount
  {
    if channel < headerCount then Slot(Header, channel) else Slot(MXP, channel - headerCount)
  }

  /** The slots bank selection can reach: every MXP offset, and header offsets below `headerCount`. */
  predicate IsReachableSlot(s: Slot, headerCount: nat)
  {
    s.bank == MXP || s.offset < headerCount
  }

  /** The channel a reachable slot belongs to: the inverse of SelectBank. */
  function ChannelOf(s: Slot, headerCount: nat): nat
  {
    match s.bank
    case Header => s.offset
    case MXP => s.offset + headerCount
  }

  /** Bank selection partitions the channels: every channel gets one reachable slot,
      and every reachable slot belongs to exactly one channel. */
  lemma SelectBankBijective(channel: nat, s: Slot, headerCount: nat)
    ensures IsReachableSlot(SelectBank(channel, headerCount), headerCount)
    ensures ChannelOf(SelectBank(channel, headerCount), headerCount) == channel
    ensures IsReachableSlot(s, headerCount) ==> SelectBank(ChannelOf(s, headerCount), headerCount) == s
  {
  }

  /** Number of registers of a kind that sit in the header bank. */
  function HeaderCount(c: PwmConstants, reg: Register): nat
  {
    match reg
    case PwmValue => c.numHdrRegisters
    case PeriodScale => c.numPeriodScaleHdrElements
  }

  /** The value the disable loop writes to a register of a kind. */
  function DisabledValue(c: PwmConstants, reg: Register): nat
  {
    match reg
    case PwmValue => c.pwmDisabled
    case PeriodScale => PERIOD_SCALE_4X
  }

  /** The write the disable loop performs on register `reg` of `channel`. */
  function ChannelWrite(c: PwmConstants, reg: Register, channel: nat): (w: Write)
    ensures w.register == reg
    ensures reg == PwmValue ==> w.value == c.pwmDisabled
    ensures reg == PeriodScale ==> w.value == PERIOD_SCALE_4X
    ensures channel < HeaderCount(c, reg) ==> w.bank == Header && w.offset == channel
    ensures channel >= HeaderCount(c, reg) ==> w.bank == MXP && w.offset == channel - HeaderCount(c, reg)
  {
    var s := SelectBank(channel, HeaderCount(c, reg));
    Write(reg, s.bank, s.offset, DisabledValue(c, reg))
  }

  /** Which register the `k`-th write of the loop targets: the value, then the period scale. */
  function RegisterAt(k: nat): Register
  {
    if k % 2 == 0 then PwmValue else PeriodScale
  }

  /** The writes of the first `n` iterations of the disable loop, in order:
      write `k` is register RegisterAt(k) of channel `k / 2`. */
  function DisableWrites(c: PwmConstants, n: nat): (ws: seq<Write>)
    ensures |ws| == 2 * n
    ensures forall k :: 0 <= k < |ws| ==> ws[k] == ChannelWrite(c, RegisterAt(k), k / 2)
  {
    if n == 0 then []
    else DisableWrites(c, n - 1) + [ChannelWrite(c, PwmValue, n - 1), ChannelWrite(c, PeriodScale, n - 1)]
  }

  /** The disable loop as the bring-up runs it, over channels 0 to numPWMPins - 1:
      each PWM value register gets the disabled value and each period scale gets 4x,
      in the header bank below the header count and in the MXP bank above it. */
  method DisablePwmOutputs(c: PwmConstants) returns (ws: seq<Write>)
    ensures ws == DisableWrites(c, c.numPWMPins)
    ensures forall k :: 0 <= k < |ws| ==> ws[k].value == DisabledValue(c, ws[k].register)
  {
    ws := [];
    var index: u32 := 0;
    while index < c.numPWMPins
      invariant index <= c.numPWMPins
      invariant ws == DisableWrites(c, index)
    {
      var valueWrite;
      if index < c.numHdrRegisters {
        valueWrite := Write(PwmValue, Header, index, c.pwmDisabled);
      } else {
        valueWrite := Write(PwmValue, MXP, index - c.numHdrRegisters, c.pwmDisabled);
      }
      var scaleWrite;
      if index < c.numPeriodScaleHdrElements {
        scaleWrite := Write(PeriodScale, Header, index, PERIOD_SCALE_4X);
      } else {
        scaleWrite := Write(PeriodScale, MXP, index - c.numPeriodScaleHdrElements, PERIOD_SCALE_4X);
      }
      ws := ws + [valueWrite, scaleWrite];
      index := index + 1;
    }
  }

  /** How many writes in `ws` target register `reg` at slot `s`. */
  function CountWrites(ws: seq<Write>, reg: Register, s: Slot): nat
  {
    if |ws| == 0 then 0
    else (if ws[0].register == reg && Slot(ws[0].bank, ws[0].offset) == s then 1 else 0)
         + CountWrites(ws[1..], reg, s)
  }

  /** Counting distributes over concatenation of logs. */
  lemma {:induction false} CountWritesAppend(a: seq<Write>, b: seq<Write>, reg: Register, s: Slot)
    ensures CountWrites(a + b, reg, s) == CountWrites(a, reg, s) + CountWrites(b, reg, s)
  {
    if |a| == 0 {
      assert a + b == b;
    } else {
      assert (a + b)[1..] == a[1..] + b;
      CountWritesAppend(a[1..], b, reg, s);
    }
  }

  /** After `n` iterations every reachable register slot whose channel is below `n`
      has been written exactly once, and no other slot has been written. */
  lemma {:induction false} DisableWritesEachSlotOnce(c: PwmConstants, n: nat, reg: Register, s: Slot)
    ensures CountWrites(DisableWrites(c, n), reg, s)
            == if IsReachableSlot(s, HeaderCount(c, reg)) && ChannelOf(s, HeaderCount(c, reg)) < n then 1 else 0
  {
    if n > 0 {
      var hc := HeaderCount(c, reg);
      var last := [ChannelWrite(c, PwmValue, n - 1), ChannelWrite(c, PeriodScale, n - 1)];
      DisableWritesEachSlotOnce(c, n - 1, reg, s);
      CountWritesAppend(DisableWrites(c, n - 1), last, reg, s);
      SelectBankBijective(n - 1, s, hc);
      assert last[1..][1..] == [];
      assert CountWrites(last[1..][1..], reg, s) == 0;
    }
  }

  /** One call of the bring-up entry point. A call on an initialized system has no
      effect; otherwise it appends the disable loop's writes to the log, leaving
      earlier writes in place, and sets the flag. */
  function InitializeDigital(s: DigitalSystem, c: PwmConstants): (r: DigitalSystem)
    ensures r.initialized
    ensures s.initialized ==> r == s
    ensures s.writes <= r.writes
    ensures |r.writes| == |s.writes| + (if s.initialized then 0 else 2 * c.numPWMPins)
  {
    if s.initialized then s
    else DigitalSystem(true, s.writes + DisableWrites(c, c.numPWMPins))
  }

  /** The state of the process at start-up: not initialized, nothing written. */
  const Uninitialized: DigitalSystem := DigitalSystem(false, [])

  /** `k` successive calls of the bring-up entry point. */
  function InitializeTimes(s: DigitalSystem, c: PwmConstants, k: nat): DigitalSystem
    decreases k
  {
    if k == 0 then s else InitializeTimes(InitializeDigital(s, c), c, k - 1)
  }

  /** A second call of the bring-up entry point is a no-op. */
  lemma InitializeDigitalIdempotent(s: DigitalSystem, c: PwmConstants)
    ensures InitializeDigital(InitializeDigital(s, c), c) == InitializeDigital(s, c)
  {
  }

  /** However many times the entry point is called, from the second call on
      nothing changes: the result is that of a single call. */
  lemma {:induction false} InitializeTimesIsOnce(s: DigitalSystem, c: PwmConstants, k: nat)
    requires k >= 1
    ensures InitializeTimes(s, c, k) == InitializeDigital(s, c)
    decreases k
  {
    if k > 1 {
      InitializeTimesIsOnce(InitializeDigital(s, c), c, k - 1);
    }
  }

  /** From start-up, any positive number of calls programs every reachable register
      slot of the PWM channels exactly once and no other slot, each PWM value with
      the disabled value and each period scale with 4x, and leaves the system
      initialized. */
  lemma ProgrammedExactlyOnce(c: PwmConstants, k: nat, reg: Register, s: Slot)
    requires k >= 1
    ensures InitializeTimes(Uninitialized, c, k).initialized
    ensures CountWrites(InitializeTimes(Uninitialized, c, k).writes, reg, s)
            == if IsReachableSlot(s, HeaderCount(c, reg)) && ChannelOf(s, HeaderCount(c, reg)) < c.numPWMPins
               then 1 else 0
    ensures var ws := InitializeTimes(Uninitialized, c, k).writes;
            forall j :: 0 <= j < |ws| ==>
              (ws[j].register == PwmValue ==> ws[j].value == c.pwmDisabled) &&
              (ws[j].register == PeriodScale ==> ws[j].value == PERIOD_SCALE_4X)
  {
    InitializeTimesIsOnce(Uninitialized, c, k);
    assert InitializeTimes(Uninitialized, c, k).writes == [] + DisableWrites(c, c.numPWMPins);
    assert [] + DisableWrites(c, c.numPWMPins) == DisableWrites(c, c.numPWMPins);
    DisableWritesEachSlotOnce(c, c.numPWMPins, reg, s);
  }
}

/** The device snapshot as the machine mutates it: fields updated in place, loops over T-cycles. */
module DeviceClass {

  import opened Wrappers
  import opened Timer
  import opened Devices
  import opened HaltSkips
  import opened Mmio

  class DmgDevices {
    var interruptRequest: Lines
    var interruptEnable: Lines
    var serialData: int
    var serialControl: int
    var serialCyclesRemaining: int
    var timer: TimerState
    var lcdControl: int
    var lcdStatusControl: int
    var plain: Plain
    var lineCompare: int
    var ppuLine: int
    var ppuDot: int
    var joypadSelect: int
    var joypadButtons: int
    var dmaSourceHigh: int
    var dmaIndex: int
    var dmaActive: bool
    var dmaOwed: int

    function PpuState(): Ppu
      reads this
    {
      Ppu(lcdControl, lcdStatusControl, lineCompare, ppuLine, ppuDot)
    }

    function SerialState(): Serial
      reads this
    {
      Serial(serialData, serialControl, serialCyclesRemaining)
    }

    function DmaState(): Dma
      reads this
    {
      Dma(dmaSourceHigh, dmaIndex, dmaActive, dmaOwed)
    }

    function State(): Device
      reads this
    {
      Device(interruptRequest, interruptEnable, SerialState(), timer, PpuState(), plain, joypadSelect, joypadButtons,
             DmaState())
    }

    constructor (d: Device)
      ensures State() == d
    {
      interruptRequest, interruptEnable := d.request, d.enable;
      serialData, serialControl, serialCyclesRemaining := d.serial.data, d.serial.control, d.serial.remaining;
      timer := d.timer;
      lcdControl, lcdStatusControl, lineCompare := d.ppu.lcdControl, d.ppu.statControl, d.ppu.lineCompare;
      ppuLine, ppuDot := d.ppu.line, d.ppu.dot;
      plain := d.plain;
      joypadSelect, joypadButtons := d.joypadSelect, d.joypadButtons;
      dmaSourceHigh, dmaIndex, dmaActive, dmaOwed := d.dma.sourceHigh, d.dma.index, d.dma.active, d.dma.owed;
    }

    /** Raises STAT when the composite line was low before the update and is high now. */
    method RequestStatRisingEdge(before: bool)
      modifies this`interruptRequest
      ensures interruptRequest
              == old(interruptRequest).(stat := old(interruptRequest.stat) || (!before && PpuState().Signal()))
    {
      if !before && PpuState().Signal() {
        interruptRequest := interruptRequest.(stat := true);
      }
    }

    method AdvancePpuTCycle()
      modifies this`ppuLine, this`ppuDot, this`interruptRequest
      ensures PpuState() == old(PpuState()).Tick()
      ensures interruptRequest ==
              old(interruptRequest).Or(Lines(old(PpuState()).EntersVBlank(), old(PpuState()).StatRises(), false, false,
                                             false))
    {
      if lcdControl < 128 {
        ppuLine := 0;
        ppuDot := 0;
        return;
      }
      var statBefore := PpuState().Signal();
      ppuDot := ppuDot + 1;
      if ppuDot == 456 {
        ppuDot := 0;
        ppuLine := if ppuLine == 153 then 0 else ppuLine + 1;
        if ppuLine == 144 {
          interruptRequest := interruptRequest.(vblank := true);
        }
      }
      RequestStatRisingEdge(statBefore);
    }

    method AdvanceTimerTCycles(ticks: nat)
      modifies this`timer, this`interruptRequest
      ensures State() == old(State()).(timer := Ticks(old(timer), ticks),
                request := old(interruptRequest).(timer := old(interruptRequest.timer) || Requested(old(timer), ticks)))
    {
      var requested := false;
      for i := 0 to ticks
        invariant timer == Ticks(old(timer), i)
        invariant requested == Requested(old(timer), i)
        invariant interruptRequest == old(interruptRequest)
      {
        requested := requested || timer.Requests();
        timer := timer.Tick();
      }
      interruptRequest := interruptRequest.(timer := interruptRequest.timer || requested);
    }

    method AdvanceSerialTCycles(ticks: nat)
      requires SerialState().remaining >= 0
      modifies this`serialData, this`serialControl, this`serialCyclesRemaining, this`interruptRequest
      ensures State() == old(State()).(serial := old(SerialState()).Advance(ticks),
                request := old(interruptRequest).(serial := old(interruptRequest.serial)
                                                  || old(SerialState()).Completes(ticks)))
    {
      if serialCyclesRemaining == 0 {
        return;
      }
      serialCyclesRemaining := if ticks > serialCyclesRemaining then 0 else serialCyclesRemaining - ticks;
      if serialCyclesRemaining == 0 {
        serialControl := serialControl % 128;
        serialData := 0xff;
        interruptRequest := interruptRequest.(serial := true);
      }
    }

    method AdvancePpuTCycles(ticks: nat)
      modifies this`ppuLine, this`ppuDot, this`interruptRequest
      ensures State() == old(State()).(ppu := PpuTicks(old(PpuState()), ticks),
                request := old(interruptRequest).Or(
                  Lines(VBlankRaised(old(PpuState()), ticks), StatRaised(old(PpuState()), ticks), false, false, false)))
    {
      ghost var p := PpuState();
      for i := 0 to ticks
        invariant PpuState() == PpuTicks(p, i)
        invariant interruptRequest
                  == old(interruptRequest).Or(Lines(VBlankRaised(p, i), StatRaised(p, i), false, false, false))
      {
        AdvancePpuTCycle();
      }
    }

    /** Timer, then serial, then the PPU loop: the order does not show in the result. */
    method AdvanceTCycles(tCycles: nat)
      requires State().serial.remaining >= 0
      modifies this
      ensures State() == old(State()).AdvanceT(tCycles)
      ensures State().serial.remaining >= 0
    {
      hide Ticks, Requested, PpuTicks, VBlankRaised, StatRaised, Serial.Advance, Serial.Completes, Device.AdvanceT,
           Device.Raised;
      ghost var d := State();
      AdvanceTimerTCycles(tCycles);
      AdvanceSerialTCycles(tCycles);
      AdvancePpuTCycles(tCycles);
      AssembleAdvance(d, tCycles, State());
    }

    method AdvanceMCycles(mCycles: nat)
      requires mCycles < 256 && State().serial.remaining >= 0
      modifies this
      ensures State() == old(State()).AdvanceM(mCycles)
      ensures State().serial.remaining >= 0
    {
      hide Device.AdvanceT;
      AdvanceTCycles(if 4 * mCycles > 255 then 255 else 4 * mCycles);
    }

    /** The while loop over 63-cycle chunks ends where single M-cycles end. */
    method AdvanceQuietLong(mCycles: nat)
      requires State().serial.remaining >= 0
      modifies this
      ensures State() == SingleSteps(old(State()), mCycles)
    {
      hide Device.AdvanceT, Device.AdvanceM, SingleSteps, State;
      ghost var start := State();
      ghost var done: nat := 0;
      var left := mCycles;
      AdvanceNothing(start);
      while left != 0
        invariant 0 <= left <= mCycles && done == mCycles - left
        invariant State().serial.remaining >= 0
        invariant State() == start.AdvanceT(4 * done)
      {
        var chunk := if left < 63 then left else 63;
        AdvanceMCycles(chunk);
        ExtendBy(start, 4 * done, chunk);
        done := done + chunk;
        left := left - chunk;
      }
      SingleStepsAdvance(start, mCycles);
    }

    /** Projects a copy one M-cycle at a time: the first pending M-cycle of the next six, or six. */
    method HaltIdleMCycles() returns (elapsed: nat)
      requires State().serial.remaining >= 0
      ensures 1 <= elapsed <= 6
      ensures forall k: nat :: 1 <= k < elapsed ==> !PendingAfter(State(), k)
      ensures PendingAfter(State(), elapsed) || elapsed == 6
    {
      hide Device.AdvanceT, Device.AdvanceM, Device.Pending;
      ghost var start := State();
      AdvanceNothing(start);
      var projected := new DmgDevices(State());
      elapsed := 1;
      while elapsed <= 6
        invariant 1 <= elapsed <= 7
        invariant fresh(projected) && projected.State().serial.remaining >= 0
        invariant projected.State() == start.AdvanceT(4 * (elapsed - 1))
        invariant forall k: nat :: 1 <= k < elapsed ==> !PendingAfter(start, k)
      {
        projected.AdvanceMCycles(1);
        ExtendBy(start, 4 * (elapsed - 1), 1);
        var pending := PendingInterrupt(projected.State());
        if pending.Some? { return; }
        elapsed := elapsed + 1;
      }
      elapsed := 6;
    }

    method ScheduleDmaBytes(mCycles: nat, activeAtStart: bool)
      modifies this`dmaOwed
      ensures State() == old(State()).(dma := old(DmaState()).Schedule(mCycles, activeAtStart))
    {
      if !activeAtStart {
        dmaOwed := 0;
        return;
      }
      var remaining := if dmaIndex > 160 then 0 else 160 - dmaIndex;
      dmaOwed := if mCycles < remaining then mCycles else remaining;
    }

    method CompleteDmaByte()
      modifies this`dmaOwed, this`dmaIndex, this`dmaActive
      ensures State() == old(State()).(dma := old(DmaState()).Complete())
    {
      dmaOwed := if dmaOwed == 0 then 0 else dmaOwed - 1;
      if dmaIndex == 159 {
        dmaIndex := 160;
        dmaActive := false;
      } else {
        dmaIndex := if dmaIndex == 255 then 255 else dmaIndex + 1;
      }
    }

    method SampleJoypadButtons(buttons: int) returns (visible: int)
      modifies this`joypadButtons, this`interruptRequest
      ensures State() == SampleJoypad(old(State()), buttons)
      ensures visible == VisibleJoypad(joypadSelect, buttons)
    {
      var falls := JoypadFalls(joypadSelect, joypadButtons, joypadSelect, buttons);
      joypadButtons := buttons;
      if falls { interruptRequest := interruptRequest.(joypad := true); }
      visible := VisibleJoypad(joypadSelect, joypadButtons);
    }

    /** FF40, FF41 and FF45: the register first, then the STAT edge it causes. */
    method WriteVideo(address: int, value: int)
      requires address in {0xff40, 0xff41, 0xff45}
      modifies this`lcdControl, this`lcdStatusControl, this`lineCompare, this`ppuLine, this`ppuDot,
        this`interruptRequest
      ensures State() == old(State()).(ppu := WritePpu(old(PpuState()), address, value),
                request := WriteRequest(old(State()), address, value))
    {
      hide Ppu.Signal;
      var statBefore := PpuState().Signal();
      if address == 0xff40 {
        lcdControl := value;
        if lcdControl < 128 {
          ppuLine := 0;
          ppuDot := 0;
        }
      } else if address == 0xff41 {
        lcdStatusControl := value / 8 % 16 * 8;
      } else {
        lineCompare := value;
      }
      RequestStatRisingEdge(statBefore);
    }

    method WriteSelect(value: int)
      modifies this`joypadSelect, this`interruptRequest
      ensures State()
              == old(State()).(joypadSelect := value / 16 % 4 * 16,
                               request := WriteRequest(old(State()), 0xff00, value))
    {
      hide JoypadFalls;
      var falls := JoypadFalls(joypadSelect, joypadButtons, value / 16 % 4 * 16, joypadButtons);
      joypadSelect := value / 16 % 4 * 16;
      if falls { interruptRequest := interruptRequest.(joypad := true); }
    }

    method WriteSerialRegister(address: int, value: int)
      requires address == 0xff01 || address == 0xff02
      modifies this`serialData, this`serialControl, this`serialCyclesRemaining
      ensures SerialState() == WriteSerial(old(SerialState()), address, value)
    {
      if address == 0xff01 {
        serialData := value;
      } else {
        serialControl := value;
        serialCyclesRemaining := if value >= 128 && value % 2 == 1 then 4096 else 0;
      }
    }

    method WriteFlags(value: int)
      modifies this`interruptRequest
      ensures State() == old(State()).(request := WriteRequest(old(State()), 0xff0f, value))
    {
      interruptRequest := FromByte(value);
    }

    /** Sequential writes; an unimplemented address leaves every field alone. */
    method WriteRegister(address: int, value: int) returns (accepted: bool)
      modifies this
      ensures accepted <==> Implemented(address)
      ensures accepted ==> WriteMmio(old(State()), address, value) == Some(State())
      ensures !accepted ==> State() == old(State())
    {
      hide FromByte, WriteSerial, WritePpu, WritePlain, TimerState.Write, WriteRequest;
      accepted := Implemented(address);
      if !accepted { return; }
      if address == 0xff00 {
        WriteSelect(value);
      } else if address == 0xff01 || address == 0xff02 {
        WriteSerialRegister(address, value);
      } else if 0xff04 <= address <= 0xff07 {
        timer := timer.Write(address, value);
      } else if address == 0xff0f {
        WriteFlags(value);
      } else if address in {0xff40, 0xff41, 0xff45} {
        WriteVideo(address, value);
      } else if address == 0xff46 {
        dmaSourceHigh, dmaIndex, dmaActive, dmaOwed := value, 0, true, 0;
      } else if address == 0xffff {
        interruptEnable := FromByte(value);
      } else {
        plain := WritePlain(plain, address, value);
      }
    }
  }
}

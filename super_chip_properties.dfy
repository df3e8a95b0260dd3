/**
 * What the SUPER-CHIP interpreter promises, proved about the specification in
 * `SuperChip` and therefore about the methods of `SuperChip.Backend`.
 */
module SuperChipProperties {
  import opened Types
  import opened Instructions
  import opened Errors
  import opened Interfaces
  import Chip8
  import opened SuperChip
  import Chip8Properties

  /** A new backend starts in half resolution with a blank display and no exit. */
  lemma InitialState(options: Options, displayOptions: DisplayOptions)
    ensures var m := Initial(options, displayOptions);
      && m.display.halfResolution && !m.programExited && !m.display.dirty
      && m.display.wrapSprites == displayOptions.wrapSprites
      && (forall r, c :: 0 <= r < DISPLAY_BUFFER_HEIGHT && 0 <= c < DISPLAY_BUFFER_WIDTH ==> !m.display.grid[r][c])
      && m.inner == Chip8.Initial(options, None)
  {
  }

  /** Reset clears the exit flag and resets the CHIP-8 machine; the display, its
      resolution included, is left as it was. */
  lemma ResetClearsExit(m: Machine)
    requires m.Valid()
    ensures var r := ResetSpec(m);
      && !r.programExited && r.inner == Chip8.ResetSpec(m.inner) && r.display == m.display
  {
  }

  /** 00FD sets the exit flag and ends the batch; nothing else changes. */
  lemma ExitEndsBatch(m: Machine, storage: seq<u8>, at: nat, ins: Instruction, keys: seq<bool>, random: u8)
    requires m.Valid() && IsStorage(storage) && |keys| == KEY_COUNT && ins.value == 0x00FD
    ensures Step(m, storage, at, ins, keys, random) == Ok((m.(programExited := true), storage, Chip8.Break))
  {
    assert ins.OperatorCode() == 0x0 && ins.OperandNNN() == 0x0FD;
  }

  /** 00FE switches to half resolution and 00FF to full resolution; nothing else changes. */
  lemma ResolutionSwitch(m: Machine, storage: seq<u8>, at: nat, ins: Instruction, keys: seq<bool>, random: u8)
    requires m.Valid() && IsStorage(storage) && |keys| == KEY_COUNT && ins.value in {0x00FE, 0x00FF}
    ensures var r := Step(m, storage, at, ins, keys, random);
      && r.Ok? && r.value.1 == storage && r.value.2 == Chip8.Continue
      && r.value.0 == m.(display := m.display.(halfResolution := ins.value == 0x00FE))
  {
    assert ins.OperatorCode() == 0x0 && ins.OperandNNN() == ins.value as nat;
  }

  /** 00E0 turns every pixel of the display off. */
  lemma ClearScreen(m: Machine, storage: seq<u8>, at: nat, ins: Instruction, keys: seq<bool>, random: u8)
    requires m.Valid() && IsStorage(storage) && |keys| == KEY_COUNT && ins.value == 0x00E0
    ensures var r := Step(m, storage, at, ins, keys, random);
      && r.Ok? && r.value.1 == storage && r.value.2 == Chip8.Continue
      && r.value.0 == m.(display := r.value.0.display)
      && r.value.0.display.dirty && r.value.0.display.halfResolution == m.display.halfResolution
      && forall row, c :: 0 <= row < DISPLAY_BUFFER_HEIGHT && 0 <= c < DISPLAY_BUFFER_WIDTH ==> !r.value.0.display.grid[row][c]
  {
    assert ins.OperatorCode() == 0x0 && ins.OperandNNN() == 0x0E0;
    ClearBlank(m.display);
  }

  /** DXYN draws N rows, or 32 for DXY0 in full resolution, and refuses a sprite
      read from past the end of memory. VF counts the rows that turned a lit pixel
      off, or in half resolution tells whether any did; the batch goes on. */
  lemma DrawRows(m: Machine, storage: seq<u8>, at: nat, ins: Instruction, keys: seq<bool>, random: u8)
    requires m.Valid() && IsStorage(storage) && |keys| == KEY_COUNT && ins.OperatorCode() == 0xD
    ensures var r := Step(m, storage, at, ins, keys, random);
      var s := m.display;
      var n := if !s.halfResolution && ins.OperandN() == 0 then 32 else ins.OperandN() as nat;
      && (r.Err? <==> m.inner.address + n >= Chip8.MEMORY_SIZE)
      && (r.Err? ==> r.error.kind == MemoryOverflow)
      && (r.Ok? ==>
        var sprite := m.inner.memory[m.inner.address..m.inner.address + n];
        var vx, vy := m.inner.general[ins.OperandX()] as nat, m.inner.general[ins.OperandY()] as nat;
        var vf := r.value.0.inner.general[Chip8.FLAG];
        && r.value.2 == Chip8.Continue && r.value.1 == storage
        && r.value.0.display == s.Drawn(vx, vy, sprite)
        && (!s.halfResolution ==> vf as nat == s.Collisions(vx, vy, sprite))
        && (s.halfResolution ==> vf <= 1 && (vf == 1 <==> s.Collisions(vx, vy, sprite) > 0))
        && r.value.0.inner == m.inner.(general := m.inner.general[Chip8.FLAG := vf]))
  {
  }

  /** FX29 accepts a hexadecimal digit (a 5-byte glyph at 5 * VX), or a value with bit
      4 set and a decimal low nibble d (a 10-byte glyph at 80 + 10 * d), and refuses
      everything else. */
  lemma FontCharacterIff(m: Machine, storage: seq<u8>, at: nat, ins: Instruction, keys: seq<bool>, random: u8)
    requires m.Valid() && IsStorage(storage) && |keys| == KEY_COUNT && ins.OperatorCode() == 0xF && ins.OperandNN() == 0x29
    ensures var r := Step(m, storage, at, ins, keys, random);
      var v := m.inner.general[ins.OperandX()] as nat;
      var hires := (v / 0x10) % 2 == 1 && v % 0x10 < HIRES_CHARACTER_COUNT;
      && (r.Ok? <==> v < KEY_COUNT || hires)
      && (r.Err? ==> r.error.kind == UnrecognizedSprite)
      && (r.Ok? ==> r.value.1 == storage && r.value.0 == m.(inner := m.inner.(address := r.value.0.inner.address)))
      && (v < KEY_COUNT ==> r.Ok? && r.value.0.inner.address == v * 5)
      && (v >= KEY_COUNT && hires ==> r.Ok? && r.value.0.inner.address == Chip8.FONT_SIZE + (v % 0x10) * 10)
  {
    NibbleMasks(m.inner.general[ins.OperandX()]);
  }

  /** FX30 points I at the 10-byte glyph of decimal digit VX, inside the
      high-resolution font, and refuses any other VX. */
  lemma HiresCharacterIff(m: Machine, storage: seq<u8>, at: nat, ins: Instruction, keys: seq<bool>, random: u8)
    requires m.Valid() && IsStorage(storage) && |keys| == KEY_COUNT && ins.OperatorCode() == 0xF && ins.OperandNN() == 0x30
    ensures var r := Step(m, storage, at, ins, keys, random);
      var v := m.inner.general[ins.OperandX()] as nat;
      && (r.Ok? <==> v < HIRES_CHARACTER_COUNT)
      && (r.Err? ==> r.error.kind == UnrecognizedSprite)
      && (r.Ok? ==>
        && r.value.0 == m.(inner := m.inner.(address := Chip8.FONT_SIZE + v * HIRES_CHARACTER_SIZE))
        && Chip8.FONT_SIZE <= r.value.0.inner.address && r.value.0.inner.address + HIRES_CHARACTER_SIZE <= FONT_SIZE)
  {
  }

  /** FX75 saves V0..V(min(X, 7)) to the flag storage and changes nothing else. */
  lemma SaveFlags(m: Machine, storage: seq<u8>, at: nat, ins: Instruction, keys: seq<bool>, random: u8)
    requires m.Valid() && IsStorage(storage) && |keys| == KEY_COUNT && ins.OperatorCode() == 0xF && ins.OperandNN() == 0x75
    ensures var r := Step(m, storage, at, ins, keys, random);
      var n := if ins.OperandX() < 7 then ins.OperandX() + 1 else 8;
      && r.Ok? && r.value.0 == m && r.value.2 == Chip8.Continue
      && (forall i :: 0 <= i < n ==> r.value.1[i] == m.inner.general[i])
      && (forall i :: n <= i < PERSISTENT_STORAGE_SIZE ==> r.value.1[i] == storage[i])
  {
  }

  /** FX85 restores V0..V(min(X, 7)) from the flag storage and changes nothing else. */
  lemma RestoreFlags(m: Machine, storage: seq<u8>, at: nat, ins: Instruction, keys: seq<bool>, random: u8)
    requires m.Valid() && IsStorage(storage) && |keys| == KEY_COUNT && ins.OperatorCode() == 0xF && ins.OperandNN() == 0x85
    ensures var r := Step(m, storage, at, ins, keys, random);
      var n := if ins.OperandX() < 7 then ins.OperandX() + 1 else 8;
      var g := r.value.0.inner.general;
      && r.Ok? && r.value.1 == storage && r.value.2 == Chip8.Continue
      && r.value.0 == m.(inner := m.inner.(general := g))
      && (forall i :: 0 <= i < n ==> g[i] == storage[i])
      && (forall i :: n <= i < Chip8.REGISTER_COUNT ==> g[i] == m.inner.general[i])
  {
  }

  /** Saving flags and restoring them with the same X gives back the machine as it
      was: the registers round-trip through the storage. */
  lemma SaveRestoreRoundTrip(m: Machine, storage: seq<u8>, at: nat, save: Instruction, at2: nat, restore: Instruction, keys: seq<bool>, random: u8)
    requires m.Valid() && IsStorage(storage) && |keys| == KEY_COUNT
    requires save.OperatorCode() == 0xF && save.OperandNN() == 0x75
    requires restore.OperatorCode() == 0xF && restore.OperandNN() == 0x85 && restore.OperandX() == save.OperandX()
    ensures var r := Step(m, storage, at, save, keys, random);
      && r.Ok?
      && Step(r.value.0, r.value.1, at2, restore, keys, random) == Ok((m, r.value.1, Chip8.Continue))
  {
    var n := Held(save.OperandX());
    var stored := Chip8.Overwrite(storage, 0, m.inner.general[..n]);
    assert Step(m, storage, at, save, keys, random) == Ok((m, stored, Chip8.Continue));
    assert stored[..n] == m.inner.general[..n];
    assert Chip8.Overwrite(m.inner.general, 0, stored[..n]) == m.inner.general;
  }

  /** Every instruction the SUPER-CHIP layer does not take over behaves exactly as on
      the CHIP-8 interpreter; the display, the exit flag and the storage stay put. */
  lemma Delegation(m: Machine, storage: seq<u8>, at: nat, ins: Instruction, keys: seq<bool>, random: u8)
    requires m.Valid() && IsStorage(storage) && |keys| == KEY_COUNT
    requires !(ins.OperatorCode() == 0x0 && ins.OperandNNN() in {0x0E0, 0x0FD, 0x0FE, 0x0FF})
    requires ins.OperatorCode() != 0xD && !(ins.OperatorCode() == 0xF && ins.OperandNN() in {0x29, 0x30, 0x75, 0x85})
    ensures var r, c := Step(m, storage, at, ins, keys, random), Chip8.Step(m.inner, at, ins, keys, random);
      && (r.Err? <==> c.Err?)
      && (r.Err? ==> r.error == c.error)
      && (r.Ok? ==> r.value == (m.(inner := c.value.0), storage, c.value.1))
  {
  }

  /** Only 00FD and FX0A end the batch: unlike CHIP-8, DXYN does not. */
  lemma BreakIff(m: Machine, storage: seq<u8>, at: nat, ins: Instruction, keys: seq<bool>, random: u8)
    requires m.Valid() && IsStorage(storage) && |keys| == KEY_COUNT
    ensures var r := Step(m, storage, at, ins, keys, random);
      r.Ok? ==> (r.value.2 == Chip8.Break <==> ins.value == 0x00FD || (ins.OperatorCode() == 0xF && ins.OperandNN() == 0x0A))
  {
    assert ins.OperatorCode() == 0x0 && ins.OperandNNN() == 0x0FD <==> ins.value == 0x00FD;
    if !(ins.OperatorCode() == 0x0 && ins.OperandNNN() in {0x0E0, 0x0FD, 0x0FE, 0x0FF})
      && ins.OperatorCode() != 0xD && !(ins.OperatorCode() == 0xF && ins.OperandNN() in {0x29, 0x30, 0x75, 0x85}) {
      Chip8.StepKeepsDisplay(m.inner, at, ins, keys, random);
      var c := Chip8.Step(m.inner, at, ins, keys, random);
      if c.Ok? && c.value.1 == Chip8.Break {
        assert ins.OperatorCode() == 0xF && ins.OperandNN() == 0x0A by {
          if ins.OperatorCode() == 0xD {
          } else if !(ins.OperatorCode() == 0xF && ins.OperandNN() == 0x0A) {
            Chip8Properties.BreakIff(m.inner, at, ins, keys, random);
          }
        }
      }
    }
  }

  /** A tick before any program is loaded is refused and changes nothing. */
  lemma TickNotLoaded(m: Machine, storage: seq<u8>, n: nat, keys: seq<bool>, random: nat -> u8)
    requires m.Valid() && IsStorage(storage) && |keys| == KEY_COUNT && !m.inner.loaded
    ensures TickSpec(m, storage, n, keys, random) == (m, storage, Err(BackendError(None, ProgramNotLoaded)))
  {
  }

  /** A program counter too close to the end of memory to fetch from makes a tick
      fail at that address, after the timers have counted down. */
  lemma TickFetchFault(m: Machine, storage: seq<u8>, n: nat, keys: seq<bool>, random: nat -> u8)
    requires m.Valid() && IsStorage(storage) && |keys| == KEY_COUNT && m.inner.loaded
    requires n > 0 && m.inner.index + 1 >= Chip8.MEMORY_SIZE
    ensures TickSpec(m, storage, n, keys, random) ==
      (m.(inner := m.inner.(timers := Decremented(m.inner.timers))), storage,
       Err(BackendError(Some((m.inner.index, None)), MemoryOverflow)))
  {
    var m' := m.(inner := m.inner.(timers := Decremented(m.inner.timers)));
    assert Run(m', storage, n, 0, keys, random) == Fetch(m', storage, n, 0, keys, random);
  }

  /** FX75, the only instruction that writes the flag storage. */
  predicate SavesFlags(ins: Instruction)
  {
    ins.OperatorCode() == 0xF && ins.OperandNN() == 0x75
  }

  /** None of the instructions writes the flag storage. */
  predicate SaveFree(t: seq<Instruction>)
  {
    forall j :: 0 <= j < |t| ==> !SavesFlags(t[j])
  }

  lemma SaveFreeTail(t: seq<Instruction>, rest: seq<Instruction>)
    requires SaveFree(t) && |t| > 0 && t == [t[0]] + rest
    ensures SaveFree(rest) && !SavesFlags(t[0])
  {
    forall j | 0 <= j < |rest|
      ensures !SavesFlags(rest[j])
    {
      assert rest[j] == t[j + 1];
    }
  }

  /** Only FX15 and FX18 set a timer here too. */
  lemma StepKeepsTimers(m: Machine, storage: seq<u8>, at: nat, ins: Instruction, keys: seq<bool>, random: u8)
    requires m.Valid() && IsStorage(storage) && |keys| == KEY_COUNT && !Chip8Properties.SetsTimer(ins)
    ensures var r := Step(m, storage, at, ins, keys, random);
      r.Ok? ==> r.value.0.inner.timers == m.inner.timers
  {
    if !(ins.OperatorCode() == 0x0 && ins.OperandNNN() in {0x0E0, 0x0FD, 0x0FE, 0x0FF})
      && ins.OperatorCode() != 0xD && !(ins.OperatorCode() == 0xF && ins.OperandNN() in {0x29, 0x30, 0x75, 0x85}) {
      Delegation(m, storage, at, ins, keys, random);
      Chip8Properties.TimersUntouched(m.inner, at, ins, keys, random);
    }
  }

  /** Only FX75 writes the flag storage. */
  lemma StepKeepsStorage(m: Machine, storage: seq<u8>, at: nat, ins: Instruction, keys: seq<bool>, random: u8)
    requires m.Valid() && IsStorage(storage) && |keys| == KEY_COUNT && !SavesFlags(ins)
    ensures var r := Step(m, storage, at, ins, keys, random);
      r.Ok? ==> r.value.1 == storage
  {
  }

  /** The instructions a batch of at most k rounds fetches, in order, as for CHIP-8:
      never more than k. */
  function Trace(m: Machine, storage: seq<u8>, k: nat, i: nat, keys: seq<bool>, random: nat -> u8): (t: seq<Instruction>)
    requires m.Valid() && IsStorage(storage) && |keys| == KEY_COUNT
    ensures |t| <= k
    ensures |t| > 0 <==> k > 0 && m.inner.index + 1 < Chip8.MEMORY_SIZE
    ensures |t| > 0 ==> t[0] == Instruction.New(m.inner.memory[m.inner.index], m.inner.memory[m.inner.index + 1])
    decreases k
  {
    var pc := m.inner.index;
    if k == 0 || pc + 1 >= Chip8.MEMORY_SIZE then []
    else
      var ins := Instruction.New(m.inner.memory[pc], m.inner.memory[pc + 1]);
      var outcome := Step(Fetched(m), storage, pc, ins, keys, random(i));
      if outcome.Ok? && outcome.value.2 == Chip8.Continue then [ins] + Trace(outcome.value.0, outcome.value.1, k - 1, i + 1, keys, random)
      else [ins]
  }

  /** The machine and storage after the batch's next round, when that round fetches
      and goes on. */
  function Continued(m: Machine, storage: seq<u8>, k: nat, i: nat, keys: seq<bool>, random: nat -> u8): (r: Option<(Machine, seq<u8>)>)
    requires m.Valid() && IsStorage(storage) && |keys| == KEY_COUNT
    ensures r.Some? ==> r.value.0.Valid() && IsStorage(r.value.1)
  {
    var pc := m.inner.index;
    if k == 0 || pc + 1 >= Chip8.MEMORY_SIZE then None
    else
      var outcome := Step(Fetched(m), storage, pc, Instruction.New(m.inner.memory[pc], m.inner.memory[pc + 1]), keys, random(i));
      if outcome.Ok? && outcome.value.2 == Chip8.Continue then Some((outcome.value.0, outcome.value.1)) else None
  }

  /** The next round of a batch: what it keeps of the timers and the storage, and
      that the rest of the batch fetches the rest of the trace. */
  lemma RoundKeeps(m: Machine, storage: seq<u8>, k: nat, i: nat, keys: seq<bool>, random: nat -> u8)
    requires m.Valid() && IsStorage(storage) && |keys| == KEY_COUNT
    ensures var t, next, r := Trace(m, storage, k, i, keys, random), Continued(m, storage, k, i, keys, random), Run(m, storage, k, i, keys, random);
      && (next.None? && Chip8Properties.TimerFree(t) ==> r.0.inner.timers == m.inner.timers)
      && (next.None? && SaveFree(t) ==> r.1 == storage)
      && (next.Some? ==>
            && r == Run(next.value.0, next.value.1, k - 1, i + 1, keys, random)
            && (Chip8Properties.TimerFree(t) ==>
                  next.value.0.inner.timers == m.inner.timers
                  && Chip8Properties.TimerFree(Trace(next.value.0, next.value.1, k - 1, i + 1, keys, random)))
            && (SaveFree(t) ==>
                  next.value.1 == storage && SaveFree(Trace(next.value.0, next.value.1, k - 1, i + 1, keys, random))))
  {
    if k > 0 {
      assert Run(m, storage, k, i, keys, random) == Fetch(m, storage, k, i, keys, random);
      var pc := m.inner.index;
      if pc + 1 < Chip8.MEMORY_SIZE {
        var ins := Instruction.New(m.inner.memory[pc], m.inner.memory[pc + 1]);
        var t := Trace(m, storage, k, i, keys, random);
        var next := Continued(m, storage, k, i, keys, random);
        RunOnce(m, storage, k, i, keys, random);
        assert t[0] == ins;
        if !Chip8Properties.SetsTimer(ins) {
          StepKeepsTimers(Fetched(m), storage, pc, ins, keys, random(i));
        }
        if !SavesFlags(ins) {
          StepKeepsStorage(Fetched(m), storage, pc, ins, keys, random(i));
        }
        if next.Some? {
          var rest := Trace(next.value.0, next.value.1, k - 1, i + 1, keys, random);
          if Chip8Properties.TimerFree(t) {
            Chip8Properties.TimerFreeTail(t, rest);
          }
          if SaveFree(t) {
            SaveFreeTail(t, rest);
          }
        }
      }
    }
  }

  /** A batch that fetches neither FX15 nor FX18 ends with the timers it started
      with, whether it runs out of rounds, breaks or faults. */
  lemma {:induction false} RunKeepsTimers(m: Machine, storage: seq<u8>, k: nat, i: nat, keys: seq<bool>, random: nat -> u8)
    requires m.Valid() && IsStorage(storage) && |keys| == KEY_COUNT
    requires Chip8Properties.TimerFree(Trace(m, storage, k, i, keys, random))
    ensures Run(m, storage, k, i, keys, random).0.inner.timers == m.inner.timers
    decreases k
  {
    var next := Continued(m, storage, k, i, keys, random);
    RoundKeeps(m, storage, k, i, keys, random);
    if next.Some? {
      RunKeepsTimers(next.value.0, next.value.1, k - 1, i + 1, keys, random);
    }
  }

  /** A batch that fetches no FX75 leaves the flag storage as it was. */
  lemma {:induction false} RunKeepsStorage(m: Machine, storage: seq<u8>, k: nat, i: nat, keys: seq<bool>, random: nat -> u8)
    requires m.Valid() && IsStorage(storage) && |keys| == KEY_COUNT
    requires SaveFree(Trace(m, storage, k, i, keys, random))
    ensures Run(m, storage, k, i, keys, random).1 == storage
    decreases k
  {
    var next := Continued(m, storage, k, i, keys, random);
    RoundKeeps(m, storage, k, i, keys, random);
    if next.Some? {
      RunKeepsStorage(next.value.0, next.value.1, k - 1, i + 1, keys, random);
    }
  }

  /** However many rounds it has and however it ends, a tick that fetches neither
      FX15 nor FX18 counts each timer down exactly once, stopping at zero; and one
      that fetches no FX75 leaves the flag storage alone. */
  lemma TickDecrementsOnce(m: Machine, storage: seq<u8>, n: nat, keys: seq<bool>, random: nat -> u8)
    requires m.Valid() && IsStorage(storage) && |keys| == KEY_COUNT && m.inner.loaded
    ensures var m' := m.(inner := m.inner.(timers := Decremented(m.inner.timers)));
      var t, r := Trace(m', storage, n, 0, keys, random), TickSpec(m, storage, n, keys, random);
      && (Chip8Properties.TimerFree(t) ==>
            && r.0.inner.timers == Decremented(m.inner.timers)
            && r.0.inner.timers.delay as int == (if m.inner.timers.delay == 0 then 0 else m.inner.timers.delay as int - 1)
            && r.0.inner.timers.sound as int == (if m.inner.timers.sound == 0 then 0 else m.inner.timers.sound as int - 1))
      && (SaveFree(t) ==> r.1 == storage)
  {
    var m' := m.(inner := m.inner.(timers := Decremented(m.inner.timers)));
    var t := Trace(m', storage, n, 0, keys, random);
    if Chip8Properties.TimerFree(t) {
      RunKeepsTimers(m', storage, n, 0, keys, random);
    }
    if SaveFree(t) {
      RunKeepsStorage(m', storage, n, 0, keys, random);
    }
  }

  /** A batch of k rounds draws random bytes only for its first k instructions. */
  lemma {:induction false} RunRandomWindow(m: Machine, storage: seq<u8>, k: nat, i: nat, keys: seq<bool>, random: nat -> u8, random': nat -> u8)
    requires m.Valid() && IsStorage(storage) && |keys| == KEY_COUNT
    requires forall j :: i <= j < i + k ==> random(j) == random'(j)
    ensures Run(m, storage, k, i, keys, random) == Run(m, storage, k, i, keys, random')
    decreases k
  {
    if k > 0 {
      assert Run(m, storage, k, i, keys, random) == Fetch(m, storage, k, i, keys, random);
      assert Run(m, storage, k, i, keys, random') == Fetch(m, storage, k, i, keys, random');
      var pc := m.inner.index;
      if pc + 1 < Chip8.MEMORY_SIZE {
        RunOnce(m, storage, k, i, keys, random);
        RunOnce(m, storage, k, i, keys, random');
        assert random(i) == random'(i);
        var ins := Instruction.New(m.inner.memory[pc], m.inner.memory[pc + 1]);
        var outcome := Step(Fetched(m), storage, pc, ins, keys, random(i));
        if outcome.Ok? && outcome.value.2 == Chip8.Continue {
          RunRandomWindow(outcome.value.0, outcome.value.1, k - 1, i + 1, keys, random, random');
        }
      }
    }
  }

  /** A tick of n instructions uses at most the random bytes for positions 0..n-1. */
  lemma TickRandomWindow(m: Machine, storage: seq<u8>, n: nat, keys: seq<bool>, random: nat -> u8, random': nat -> u8)
    requires m.Valid() && IsStorage(storage) && |keys| == KEY_COUNT
    requires forall j :: 0 <= j < n ==> random(j) == random'(j)
    ensures TickSpec(m, storage, n, keys, random) == TickSpec(m, storage, n, keys, random')
  {
    if m.inner.loaded {
      RunRandomWindow(m.(inner := m.inner.(timers := Decremented(m.inner.timers))), storage, n, 0, keys, random, random');
    }
  }

  /** Loading puts the font's first 80 bytes and the program where CHIP-8 does, and
      the 100 bytes of high-resolution digits after the first 80: from the font when
      it has them all, else from the bundled font. Nothing else in memory changes. */
  lemma LoadLayout(m: Machine, font: Option<seq<u8>>, program: seq<u8>)
    requires m.Valid() && (font.Some? ==> |font.value| >= Chip8.FONT_SIZE)
    ensures var r := LoadSpec(m, font, program);
      var f := if font.Some? then font.value else BACKEND_FONT;
      var hires := if |f| >= FONT_SIZE then f else BACKEND_FONT;
      && (r.1.Err? <==> |program| > Chip8.MEMORY_SIZE - Chip8.MEMORY_PADDING)
      && (r.1.Err? ==> r == (m, Err(BackendError(None, ProgramInvalid))))
      && (r.1.Ok? ==>
        && r.0 == m.(inner := m.inner.(memory := r.0.inner.memory, loaded := true))
        && (forall i :: 0 <= i < Chip8.FONT_SIZE ==> r.0.inner.memory[i] == f[i])
        && (forall i :: Chip8.FONT_SIZE <= i < FONT_SIZE ==> r.0.inner.memory[i] == hires[i])
        && (forall i :: 0 <= i < |program| ==> r.0.inner.memory[Chip8.MEMORY_PADDING + i] == program[i])
        && forall i :: FONT_SIZE <= i < Chip8.MEMORY_SIZE && !(Chip8.MEMORY_PADDING <= i < Chip8.MEMORY_PADDING + |program|) ==>
          r.0.inner.memory[i] == m.inner.memory[i])
  {
    var f := if font.Some? then font.value else BACKEND_FONT;
    if |program| <= Chip8.MEMORY_SIZE - Chip8.MEMORY_PADDING {
      var once := Chip8.Overwrite(m.inner.memory, 0, f[..Chip8.FONT_SIZE]);
      var twice := Chip8.Overwrite(once, Chip8.MEMORY_PADDING, program);
      assert Chip8.LoadSpec(m.inner, Some(f[..Chip8.FONT_SIZE]), program).0.memory == twice;
      forall i | 0 <= i < |program|
        ensures twice[Chip8.MEMORY_PADDING + i] == program[i]
      {
        assert Chip8.MEMORY_PADDING <= Chip8.MEMORY_PADDING + i < Chip8.MEMORY_PADDING + |program|;
      }
    }
  }

  // ---- FX75 and FX85 as written ----

  /** FX75 as written: `copy_from_slice` between the min(X, 7) + 1 registers and the
      whole storage, which panics (None) unless the two have the same length. */
  function SaveAsWritten(general: seq<u8>, storage: seq<u8>, x: nat): (r: Option<seq<u8>>)
    requires |general| == Chip8.REGISTER_COUNT && x < 16
    ensures r.Some? <==> Held(x) == |storage|
    ensures r.Some? ==> r.value == general[..|storage|]
  {
    var registers := general[..Held(x)];
    if |registers| != |storage| then None else Some(registers)
  }

  /** FX85 as written: the min(X, 7) + 1 registers are overwritten with all eight
      bytes of storage, which panics (None) unless X is at least 7. */
  function RestoreAsWritten(general: seq<u8>, storage: seq<u8>, x: nat): (r: Option<seq<u8>>)
    requires |general| == Chip8.REGISTER_COUNT && IsStorage(storage) && x < 16
    ensures r.Some? <==> x >= 7
    ensures r.Some? ==> |r.value| == Chip8.REGISTER_COUNT && r.value[..PERSISTENT_STORAGE_SIZE] == storage
  {
    var n := Held(x);
    if n != PERSISTENT_STORAGE_SIZE then None else Some(Chip8.Overwrite(general, 0, storage[..PERSISTENT_STORAGE_SIZE]))
  }

  /** F375 saves V0..V3: as written it stops the program, the corrected version
      writes the four registers and keeps the other four bytes. */
  lemma SaveFlagsPanics(m: Machine, storage: seq<u8>, keys: seq<bool>)
    requires m.Valid() && IsStorage(storage) && |keys| == KEY_COUNT
    ensures var ins := Instruction(0xF375);
      && SaveAsWritten(m.inner.general, storage, ins.OperandX()) == None
      && Step(m, storage, 0x200, ins, keys, 0) == Ok((m, m.inner.general[..4] + storage[4..], Chip8.Continue))
  {
    var ins := Instruction(0xF375);
    assert ins.OperatorCode() == 0xF && ins.OperandNN() == 0x75 && ins.OperandX() == 3 && Held(3) == 4;
    assert Chip8.Overwrite(storage, 0, m.inner.general[..4]) == m.inner.general[..4] + storage[4..];
  }

  /** F385 restores V0..V3: as written it stops the program, the corrected version
      loads the four registers from the first four bytes. */
  lemma RestoreFlagsPanics(m: Machine, storage: seq<u8>, keys: seq<bool>)
    requires m.Valid() && IsStorage(storage) && |keys| == KEY_COUNT
    ensures var ins := Instruction(0xF385);
      && RestoreAsWritten(m.inner.general, storage, ins.OperandX()) == None
      && Step(m, storage, 0x200, ins, keys, 0) == Ok((m.(inner := m.inner.(general := storage[..4] + m.inner.general[4..])), storage, Chip8.Continue))
  {
    var ins := Instruction(0xF385);
    assert ins.OperatorCode() == 0xF && ins.OperandNN() == 0x85 && ins.OperandX() == 3 && Held(3) == 4;
    assert Chip8.Overwrite(m.inner.general, 0, storage[..4]) == storage[..4] + m.inner.general[4..];
  }

  /** Where the written code does not panic (X at least 7), the corrected FX75 and
      FX85 do what it does. */
  lemma FlagsAgreeFromV7(m: Machine, storage: seq<u8>, at: nat, ins: Instruction, keys: seq<bool>, random: u8)
    requires m.Valid() && IsStorage(storage) && |keys| == KEY_COUNT
    requires ins.OperatorCode() == 0xF && ins.OperandNN() in {0x75, 0x85} && ins.OperandX() >= 7
    ensures var r := Step(m, storage, at, ins, keys, random);
      && r.Ok?
      && (ins.OperandNN() == 0x75 ==> Some(r.value.1) == SaveAsWritten(m.inner.general, storage, ins.OperandX()))
      && (ins.OperandNN() == 0x85 ==> Some(r.value.0.inner.general) == RestoreAsWritten(m.inner.general, storage, ins.OperandX()))
  {
    if ins.OperandNN() == 0x75 {
      assert Chip8.Overwrite(storage, 0, m.inner.general[..8]) == m.inner.general[..8];
    }
  }
}

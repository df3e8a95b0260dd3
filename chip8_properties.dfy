/**
 * What the CHIP-8 interpreter promises, proved about the specification in `Chip8`
 * and therefore about the methods of `Chip8.Backend`, which follow it.
 *
 * In every lemma about a single instruction, `m` is the machine as the instruction
 * finds it: the program counter `m.index` already points past the instruction,
 * which was fetched from `at`.
 */
module Chip8Properties {
  import opened Types
  import opened Instructions
  import opened Errors
  import opened Interfaces
  import opened Chip8

  /** The instruction whose operator code and operands are the given nibbles. */
  function Word(op: nat, x: nat, y: nat, n: nat): (ins: Instruction)
    requires op < 16 && x < 16 && y < 16 && n < 16
    ensures ins.OperatorCode() as nat == op && ins.OperandX() == x && ins.OperandY() == y && ins.OperandN() as nat == n
  {
    InstructionFields(op, x, y, n);
    Instruction((((op * 16 + x) * 16 + y) * 16 + n) as u16)
  }

  lemma InstructionFields(op: nat, x: nat, y: nat, n: nat)
    requires op < 16 && x < 16 && y < 16 && n < 16
    ensures var ins := Instruction((((op * 16 + x) * 16 + y) * 16 + n) as u16);
      ins.OperatorCode() as nat == op && ins.OperandX() == x && ins.OperandY() == y && ins.OperandN() as nat == n
  {
  }

  // ---- Subroutines ----

  /** 2NNN fails exactly when sixteen return addresses are already stacked. */
  lemma CallOverflow(m: Machine, at: nat, ins: Instruction, keys: seq<bool>, random: u8)
    requires m.Valid() && |keys| == KEY_COUNT && ins.OperatorCode() == 0x2
    ensures var r := Step(m, at, ins, keys, random);
      && (r.Err? <==> |m.stack| == STACK_SIZE)
      && (r.Err? ==> r.error.kind == StackOverflow)
      && (r.Ok? ==> r.value.0.index == ins.OperandNNN() && r.value.0.stack == m.stack + [(m.index % 0x1_0000) as u16])
  {
  }

  /** 00EE fails exactly when the stack is empty; otherwise it jumps to the top
      address and pops it. */
  lemma ReturnUnderflow(m: Machine, at: nat, ins: Instruction, keys: seq<bool>, random: u8)
    requires m.Valid() && |keys| == KEY_COUNT && ins.value == 0x00EE
    ensures var r := Step(m, at, ins, keys, random);
      && (r.Err? <==> |m.stack| == 0)
      && (r.Err? ==> r.error.kind == StackUnderflow)
      && (r.Ok? ==> r.value.0.index == m.stack[|m.stack| - 1] as nat && r.value.0.stack + [m.stack[|m.stack| - 1]] == m.stack)
  {
    assert ins.OperatorCode() == 0x0 && ins.OperandNNN() == 0x0EE;
  }

  /** A call followed by a return comes back to the instruction after the call with
      the stack as it was; nothing else changes. The return address is stored in 16
      bits, so this holds for calls from below 64 KiB. */
  lemma CallThenReturn(m: Machine, at: nat, call: Instruction, at2: nat, ret: Instruction, keys: seq<bool>, random: u8)
    requires m.Valid() && |keys| == KEY_COUNT && |m.stack| < STACK_SIZE && m.index < 0x1_0000
    requires call.OperatorCode() == 0x2 && ret.value == 0x00EE
    ensures var r := Step(m, at, call, keys, random);
      r.Ok? && Step(r.value.0, at2, ret, keys, random) == Ok((m, Continue))
  {
    assert ret.OperatorCode() == 0x0 && ret.OperandNNN() == 0x0EE;
    var m' := m.(stack := m.stack + [m.index as u16], index := call.OperandNNN());
    assert Step(m, at, call, keys, random) == Ok((m', Continue));
    assert m'.stack[..|m'.stack| - 1] == m.stack;
  }

  // ---- Skips ----

  /** The condition under which 3XNN, 4XNN, 5XY0 and 9XY0 skip. */
  predicate SkipCondition(m: Machine, ins: Instruction)
    requires m.Valid() && ins.OperatorCode() in {0x3, 0x4, 0x5, 0x9}
  {
    var vx := m.general[ins.OperandX()];
    match ins.OperatorCode()
    case 0x3 => vx == ins.OperandNN()
    case 0x4 => vx != ins.OperandNN()
    case 0x5 => vx == m.general[ins.OperandY()]
    case _ => vx != m.general[ins.OperandY()]
  }

  /** A conditional skip moves the program counter on by one instruction exactly when
      its comparison holds, and changes nothing else. */
  lemma SkipIff(m: Machine, at: nat, ins: Instruction, keys: seq<bool>, random: u8)
    requires m.Valid() && |keys| == KEY_COUNT && ins.OperatorCode() in {0x3, 0x4, 0x5, 0x9}
    ensures var r := Step(m, at, ins, keys, random);
      && r.Ok? && r.value.1 == Continue
      && r.value.0.(index := m.index) == m
      && (r.value.0.index == m.index + INSTRUCTION_SIZE <==> SkipCondition(m, ins))
      && (r.value.0.index == m.index <==> !SkipCondition(m, ins))
  {
  }

  // ---- Arithmetic ----

  /** The registers other than VX and VF. */
  predicate OthersKept(g: seq<u8>, g': seq<u8>, x: nat)
    requires |g| == |g'| == REGISTER_COUNT
  {
    forall i :: 0 <= i < REGISTER_COUNT && i != x && i != FLAG ==> g'[i] == g[i]
  }

  /** 8XY4: VX + VY is recomposed from the new VX and the carry in VF; VF holds the
      carry even when X is F, because it is written last. */
  lemma AddCarry(m: Machine, at: nat, ins: Instruction, keys: seq<bool>, random: u8)
    requires m.Valid() && |keys| == KEY_COUNT && ins.OperatorCode() == 0x8 && ins.OperandN() == 0x4
    ensures var r := Step(m, at, ins, keys, random);
      var x, y := ins.OperandX(), ins.OperandY();
      && r.Ok? && r.value.1 == Continue
      && var g' := r.value.0.general;
      && r.value.0 == m.(general := g')
      && g'[FLAG] <= 1
      && (g'[FLAG] == 1 <==> m.general[x] as int + m.general[y] as int >= 0x100)
      && (x != FLAG ==> m.general[x] as int + m.general[y] as int == g'[x] as int + 0x100 * g'[FLAG] as int)
      && OthersKept(m.general, g', x)
  {
  }

  /** 8XY5 and 8XY7: the difference (VX - VY, or VY - VX) is recomposed from the new
      VX and the not-borrow in VF. */
  lemma SubtractBorrow(m: Machine, at: nat, ins: Instruction, keys: seq<bool>, random: u8)
    requires m.Valid() && |keys| == KEY_COUNT && ins.OperatorCode() == 0x8 && ins.OperandN() in {0x5, 0x7}
    ensures var r := Step(m, at, ins, keys, random);
      var x, y := ins.OperandX(), ins.OperandY();
      var (a, b) := if ins.OperandN() == 0x5 then (m.general[x], m.general[y]) else (m.general[y], m.general[x]);
      && r.Ok? && r.value.1 == Continue
      && var g' := r.value.0.general;
      && r.value.0 == m.(general := g')
      && g'[FLAG] <= 1
      && (g'[FLAG] == 1 <==> a >= b)
      && (x != FLAG ==> a as int - b as int == g'[x] as int - 0x100 * (1 - g'[FLAG] as int))
      && OthersKept(m.general, g', x)
  {
  }

  /** 8XY6 and 8XYE shift VY when the copy-and-shift quirk is on and VX otherwise; the
      shifted value is recomposed from the new VX and the bit shifted out into VF. */
  lemma ShiftQuirk(m: Machine, at: nat, ins: Instruction, keys: seq<bool>, random: u8)
    requires m.Valid() && |keys| == KEY_COUNT && ins.OperatorCode() == 0x8 && ins.OperandN() in {0x6, 0xE}
    ensures var r := Step(m, at, ins, keys, random);
      var x := ins.OperandX();
      var src := m.general[if m.options.copyAndShift then ins.OperandY() else x];
      && r.Ok? && r.value.1 == Continue
      && var g' := r.value.0.general;
      && r.value.0 == m.(general := g')
      && g'[FLAG] <= 1
      && (ins.OperandN() == 0x6 ==> (g'[FLAG] == 1 <==> src % 2 == 1))
      && (ins.OperandN() == 0xE ==> (g'[FLAG] == 1 <==> src >= 0x80))
      && (x != FLAG && ins.OperandN() == 0x6 ==> src as int == 2 * g'[x] as int + g'[FLAG] as int)
      && (x != FLAG && ins.OperandN() == 0xE ==> 2 * src as int == g'[x] as int + 0x100 * g'[FLAG] as int)
      && OthersKept(m.general, g', x)
  {
  }

  /** 8XY1, 8XY2 and 8XY3 clear VF exactly when the reset-flag quirk is on (or when
      VF itself is the destination and the result is zero). */
  lemma LogicResetsFlag(m: Machine, at: nat, ins: Instruction, keys: seq<bool>, random: u8)
    requires m.Valid() && |keys| == KEY_COUNT && ins.OperatorCode() == 0x8 && ins.OperandN() in {0x1, 0x2, 0x3}
    ensures var r := Step(m, at, ins, keys, random);
      var x, y := ins.OperandX(), ins.OperandY();
      var vx, vy := m.general[x], m.general[y];
      var result := match ins.OperandN() case 0x1 => BitOr(vx, vy) case 0x2 => BitAnd(vx, vy) case _ => BitXor(vx, vy);
      && r.Ok? && r.value.1 == Continue
      && var g' := r.value.0.general;
      && r.value.0 == m.(general := g')
      && (m.options.resetFlag ==> g'[FLAG] == 0)
      && (!m.options.resetFlag ==> g'[FLAG] == if x == FLAG then result else m.general[FLAG])
      && (x != FLAG ==> g'[x] == result)
      && OthersKept(m.general, g', x)
  {
  }

  /** 7XNN adds NN to VX modulo 256 and leaves VF alone: no carry is reported. */
  lemma AddImmediate(m: Machine, at: nat, ins: Instruction, keys: seq<bool>, random: u8)
    requires m.Valid() && |keys| == KEY_COUNT && ins.OperatorCode() == 0x7
    ensures var r := Step(m, at, ins, keys, random);
      var x := ins.OperandX();
      && r.Ok? && r.value.1 == Continue
      && var g' := r.value.0.general;
      && r.value.0 == m.(general := g')
      && (g'[x] as int - m.general[x] as int - ins.OperandNN() as int) % 0x100 == 0
      && forall i :: 0 <= i < REGISTER_COUNT && i != x ==> g'[i] == m.general[i]
  {
  }

  /** BNNN jumps to NNN plus V0, or plus VX under the quirky-jump quirk. */
  lemma JumpQuirk(m: Machine, at: nat, ins: Instruction, keys: seq<bool>, random: u8)
    requires m.Valid() && |keys| == KEY_COUNT && ins.OperatorCode() == 0xB
    ensures var r := Step(m, at, ins, keys, random);
      && r.Ok? && r.value.1 == Continue
      && r.value.0 == m.(index := r.value.0.index)
      && (m.options.quirkyJump ==> r.value.0.index == m.general[ins.OperandX()] as nat + ins.OperandNNN())
      && (!m.options.quirkyJump ==> r.value.0.index == m.general[0] as nat + ins.OperandNNN())
  {
  }

  /** A byte has no bit set outside a mask exactly when masking leaves it unchanged. */
  predicate WithinMask(v: u8, mask: u8)
  {
    BitAnd(v, mask) == v
  }

  /** CXNN: whatever the random byte, VX ends up with no bit outside NN, hence at most NN. */
  lemma RandomMasked(m: Machine, at: nat, ins: Instruction, keys: seq<bool>, random: u8)
    requires m.Valid() && |keys| == KEY_COUNT && ins.OperatorCode() == 0xC
    ensures var r := Step(m, at, ins, keys, random);
      && r.Ok? && r.value.1 == Continue
      && var v := r.value.0.general[ins.OperandX()];
      && WithinMask(v, ins.OperandNN())
      && v <= ins.OperandNN()
      && r.value.0 == m.(general := m.general[ins.OperandX() := v])
  {
    MaskedByte(random, ins.OperandNN());
  }

  // ---- Memory and the index register ----

  /** FX33 stores the hundreds, tens and units digits of VX at I, I+1 and I+2, unless
      that reaches past memory. */
  lemma DecimalDigits(m: Machine, at: nat, ins: Instruction, keys: seq<bool>, random: u8)
    requires m.Valid() && |keys| == KEY_COUNT && ins.OperatorCode() == 0xF && ins.OperandNN() == 0x33
    ensures var r := Step(m, at, ins, keys, random);
      && (r.Err? <==> m.address + 2 >= MEMORY_SIZE)
      && (r.Err? ==> r.error.kind == MemoryOverflow)
      && (r.Ok? ==>
        var mem, a := r.value.0.memory, m.address;
        && r.value.0 == m.(memory := mem) && r.value.1 == Continue
        && mem[a] < 10 && mem[a + 1] < 10 && mem[a + 2] < 10
        && 100 * mem[a] as int + 10 * mem[a + 1] as int + mem[a + 2] as int == m.general[ins.OperandX()] as int
        && forall i :: 0 <= i < MEMORY_SIZE && !(a <= i < a + 3) ==> mem[i] == m.memory[i])
  {
  }

  /** FX55 copies V0..VX to memory from I on and, under the increment-address quirk,
      moves I past them; it refuses, changing nothing, when the block would end past
      memory. */
  lemma StoreRegisters(m: Machine, at: nat, ins: Instruction, keys: seq<bool>, random: u8)
    requires m.Valid() && |keys| == KEY_COUNT && ins.OperatorCode() == 0xF && ins.OperandNN() == 0x55
    ensures var r := Step(m, at, ins, keys, random);
      var x, a := ins.OperandX(), m.address;
      && (r.Err? <==> a + x >= MEMORY_SIZE)
      && (r.Err? ==> r.error.kind == MemoryOverflow)
      && (r.Ok? ==>
        var mem := r.value.0.memory;
        && r.value.0 == m.(memory := mem, address := r.value.0.address) && r.value.1 == Continue
        && r.value.0.address == a + (if m.options.incrementAddress then x + 1 else 0)
        && (forall i :: 0 <= i <= x ==> mem[a + i] == m.general[i])
        && forall i :: 0 <= i < MEMORY_SIZE && !(a <= i <= a + x) ==> mem[i] == m.memory[i])
  {
  }

  /** FX65 loads V0..VX from memory from I on and, under the increment-address quirk,
      moves I past them; it refuses, changing nothing, when the block would end past
      memory. */
  lemma LoadRegisters(m: Machine, at: nat, ins: Instruction, keys: seq<bool>, random: u8)
    requires m.Valid() && |keys| == KEY_COUNT && ins.OperatorCode() == 0xF && ins.OperandNN() == 0x65
    ensures var r := Step(m, at, ins, keys, random);
      var x, a := ins.OperandX(), m.address;
      && (r.Err? <==> a + x >= MEMORY_SIZE)
      && (r.Err? ==> r.error.kind == MemoryOverflow)
      && (r.Ok? ==>
        var g' := r.value.0.general;
        && r.value.0 == m.(general := g', address := r.value.0.address) && r.value.1 == Continue
        && r.value.0.address == a + (if m.options.incrementAddress then x + 1 else 0)
        && (forall i :: 0 <= i <= x ==> g'[i] == m.memory[a + i])
        && forall i :: x < i < REGISTER_COUNT ==> g'[i] == m.general[i])
  {
  }

  /** FX1E adds VX to I, keeping the 12 bits of an address. */
  lemma AddToIndex(m: Machine, at: nat, ins: Instruction, keys: seq<bool>, random: u8)
    requires m.Valid() && |keys| == KEY_COUNT && ins.OperatorCode() == 0xF && ins.OperandNN() == 0x1E
    ensures var r := Step(m, at, ins, keys, random);
      && r.Ok? && r.value.1 == Continue
      && r.value.0 == m.(address := r.value.0.address)
      && r.value.0.address < 0x1000
      && (r.value.0.address - m.address - m.general[ins.OperandX()] as int) % 0x1000 == 0
  {
  }

  /** FX29 points I at the 5-byte glyph of digit VX, and refuses a VX that is not a
      hexadecimal digit. */
  lemma FontCharacter(m: Machine, at: nat, ins: Instruction, keys: seq<bool>, random: u8)
    requires m.Valid() && |keys| == KEY_COUNT && ins.OperatorCode() == 0xF && ins.OperandNN() == 0x29
    ensures var r := Step(m, at, ins, keys, random);
      var vx := m.general[ins.OperandX()] as nat;
      && (r.Err? <==> vx >= KEY_COUNT)
      && (r.Err? ==> r.error.kind == UnrecognizedSprite)
      && (r.Ok? ==> r.value.0 == m.(address := vx * CHARACTER_SIZE) && r.value.0.address + CHARACTER_SIZE <= FONT_SIZE)
  {
  }

  // ---- Timers and the keypad ----

  /** FX07 reads the delay timer; FX15 and FX18 set the delay and sound timers. */
  lemma TimerInstructions(m: Machine, at: nat, ins: Instruction, keys: seq<bool>, random: u8)
    requires m.Valid() && |keys| == KEY_COUNT && ins.OperatorCode() == 0xF && ins.OperandNN() in {0x07, 0x15, 0x18}
    ensures var r := Step(m, at, ins, keys, random);
      var x := ins.OperandX();
      && r.Ok? && r.value.1 == Continue
      && (ins.OperandNN() == 0x07 ==> r.value.0 == m.(general := m.general[x := m.timers.delay]))
      && (ins.OperandNN() == 0x15 ==> r.value.0 == m.(timers := Timers(m.general[x], m.timers.sound)))
      && (ins.OperandNN() == 0x18 ==> r.value.0 == m.(timers := Timers(m.timers.delay, m.general[x])))
  {
  }

  /** Only FX15 and FX18 touch the timers. */
  lemma TimersUntouched(m: Machine, at: nat, ins: Instruction, keys: seq<bool>, random: u8)
    requires m.Valid() && |keys| == KEY_COUNT
    requires !(ins.OperatorCode() == 0xF && ins.OperandNN() in {0x15, 0x18})
    ensures var r := Step(m, at, ins, keys, random);
      r.Ok? ==> r.value.0.timers == m.timers
  {
  }

  /** The key `FirstPressed` finds is the lowest-numbered one held down. */
  lemma LowestPressed(keys: seq<bool>, k: nat)
    requires k < |keys| && keys[k] && forall j :: 0 <= j < k ==> !keys[j]
    ensures FirstPressed(keys, 0) == Some(k)
  {
    var r := FirstPressed(keys, 0);
    assert r.Some?;
    assert !(r.value < k);
    assert !(k < r.value);
  }

  /** FX0A stores the lowest-numbered key held down in VX; with none held, it moves
      the program counter back onto itself, so that it runs again in the next tick.
      Either way it ends the batch. */
  lemma WaitForKey(m: Machine, at: nat, ins: Instruction, keys: seq<bool>, random: u8)
    requires m.Valid() && |keys| == KEY_COUNT && ins.OperatorCode() == 0xF && ins.OperandNN() == 0x0A
    ensures var r := Step(m, at, ins, keys, random);
      && r.Ok? && r.value.1 == Break
      && ((forall k :: 0 <= k < KEY_COUNT ==> !keys[k]) ==> r.value.0 == m.(index := at))
      && forall k :: 0 <= k < KEY_COUNT && keys[k] && (forall j :: 0 <= j < k ==> !keys[j]) ==>
        r.value.0 == m.(general := m.general[ins.OperandX() := k as u8])
  {
    assert Step(m, at, ins, keys, random) == Misc(m, at, ins, keys);
    forall k | 0 <= k < KEY_COUNT && keys[k] && (forall j :: 0 <= j < k ==> !keys[j])
      ensures FirstPressed(keys, 0) == Some(k)
    {
      LowestPressed(keys, k);
    }
  }

  /** EX9E and EXA1 refuse a VX that names no key; otherwise they skip when the key
      is, or is not, held down. */
  lemma KeySkip(m: Machine, at: nat, ins: Instruction, keys: seq<bool>, random: u8)
    requires m.Valid() && |keys| == KEY_COUNT && ins.OperatorCode() == 0xE && ins.OperandNN() in {0x9E, 0xA1}
    ensures var r := Step(m, at, ins, keys, random);
      var key := m.general[ins.OperandX()] as nat;
      && (r.Err? <==> key >= KEY_COUNT)
      && (r.Err? ==> r.error.kind == UnrecognizedKey)
      && (r.Ok? ==>
        var skip := if ins.OperandNN() == 0x9E then keys[key] else !keys[key];
        && r.value.1 == Continue
        && r.value.0 == m.(index := if skip then m.index + INSTRUCTION_SIZE else m.index))
  {
  }

  // ---- Decoding ----

  /** The instructions the interpreter knows, listed independently of `Step`. */
  predicate Recognized(ins: Instruction)
  {
    var op, n, nn := ins.OperatorCode(), ins.OperandN(), ins.OperandNN();
    || op in {0x0, 0x1, 0x2, 0x3, 0x4, 0x5, 0x6, 0x7, 0x9, 0xA, 0xB, 0xC, 0xD}
    || (op == 0x8 && n in {0x0, 0x1, 0x2, 0x3, 0x4, 0x5, 0x6, 0x7, 0xE})
    || (op == 0xE && nn in {0x9E, 0xA1})
    || (op == 0xF && nn in {0x07, 0x0A, 0x15, 0x18, 0x1E, 0x29, 0x33, 0x55, 0x65})
  }

  /** An instruction is refused as unrecognized exactly when it is not in the list. */
  lemma UnrecognizedIff(m: Machine, at: nat, ins: Instruction, keys: seq<bool>, random: u8)
    requires m.Valid() && |keys| == KEY_COUNT
    ensures var r := Step(m, at, ins, keys, random);
      r.Err? && r.error.kind == UnrecognizedInstruction <==> !Recognized(ins)
  {
  }

  /** 0NNN other than 00E0 and 00EE (a call into host machine code) does nothing. */
  lemma MachineCallIgnored(m: Machine, at: nat, ins: Instruction, keys: seq<bool>, random: u8)
    requires m.Valid() && |keys| == KEY_COUNT && ins.OperatorCode() == 0x0 && ins.OperandNNN() !in {0x0E0, 0x0EE}
    ensures Step(m, at, ins, keys, random) == Ok((m, Continue))
  {
  }

  /** Only DXYN and FX0A end the batch of a tick. */
  lemma BreakIff(m: Machine, at: nat, ins: Instruction, keys: seq<bool>, random: u8)
    requires m.Valid() && |keys| == KEY_COUNT
    ensures var r := Step(m, at, ins, keys, random);
      r.Ok? ==> (r.value.1 == Break <==> ins.OperatorCode() == 0xD || (ins.OperatorCode() == 0xF && ins.OperandNN() == 0x0A))
  {
  }

  /** DXYN refuses a sprite that would be read from past the end of memory, and needs
      a display; the flag tells whether a lit pixel was turned off. */
  lemma DrawChecks(m: Machine, at: nat, ins: Instruction, keys: seq<bool>, random: u8)
    requires m.Valid() && |keys| == KEY_COUNT && ins.OperatorCode() == 0xD
    ensures var r := Step(m, at, ins, keys, random);
      && (m.address + ins.OperandN() as nat >= MEMORY_SIZE ==> r == Err(Fault(at, ins, MemoryOverflow)))
      && (m.address + ins.OperandN() as nat < MEMORY_SIZE && m.display.None? ==> r == Err(Fault(at, ins, DisplayNotConnected)))
      && (r.Ok? ==>
        var s := m.display.value;
        var sprite := m.memory[m.address..m.address + ins.OperandN() as nat];
        var vx, vy := m.general[ins.OperandX()] as nat, m.general[ins.OperandY()] as nat;
        && r.value.0.display == Some(s.Drawn(vx, vy, sprite))
        && (r.value.0.general[FLAG] == 1 <==> s.Collisions(vx, vy, sprite) > 0)
        && r.value.0 == m.(display := r.value.0.display, general := m.general[FLAG := r.value.0.general[FLAG]]))
  {
  }

  // ---- Ticks ----

  /** A tick before any program is loaded is refused and changes nothing. */
  lemma TickNotLoaded(m: Machine, n: nat, keys: seq<bool>, random: nat -> u8)
    requires m.Valid() && |keys| == KEY_COUNT && !m.loaded
    ensures TickSpec(m, n, keys, random) == (m, Err(BackendError(None, ProgramNotLoaded)))
  {
  }

  /** A tick of no instructions only counts both timers down, each stopping at zero. */
  lemma TickTimersOnly(m: Machine, keys: seq<bool>, random: nat -> u8)
    requires m.Valid() && |keys| == KEY_COUNT && m.loaded
    ensures var r := TickSpec(m, 0, keys, random);
      && r.1 == Ok(())
      && r.0 == m.(timers := r.0.timers)
      && r.0.timers.delay as int == (if m.timers.delay == 0 then 0 else m.timers.delay as int - 1)
      && r.0.timers.sound as int == (if m.timers.sound == 0 then 0 else m.timers.sound as int - 1)
  {
  }

  /** A program counter too close to the end of memory to fetch from makes a tick fail
      at that address, after the timers have counted down. */
  lemma TickFetchFault(m: Machine, n: nat, keys: seq<bool>, random: nat -> u8)
    requires m.Valid() && |keys| == KEY_COUNT && m.loaded && n > 0 && m.index + 1 >= MEMORY_SIZE
    ensures TickSpec(m, n, keys, random) ==
      (m.(timers := Decremented(m.timers)), Err(BackendError(Some((m.index, None)), MemoryOverflow)))
  {
    var m' := m.(timers := Decremented(m.timers));
    assert Run(m', n, 0, keys, random) == Fetch(m', n, 0, keys, random);
  }

  /** FX15 and FX18, the only instructions that set a timer. */
  predicate SetsTimer(ins: Instruction)
  {
    ins.OperatorCode() == 0xF && ins.OperandNN() in {0x15, 0x18}
  }

  /** None of the instructions sets a timer. */
  predicate TimerFree(t: seq<Instruction>)
  {
    forall j :: 0 <= j < |t| ==> !SetsTimer(t[j])
  }

  lemma TimerFreeTail(t: seq<Instruction>, rest: seq<Instruction>)
    requires TimerFree(t) && |t| > 0 && t == [t[0]] + rest
    ensures TimerFree(rest) && !SetsTimer(t[0])
  {
    forall j | 0 <= j < |rest|
      ensures !SetsTimer(rest[j])
    {
      assert rest[j] == t[j + 1];
    }
  }

  /** The instructions a batch of at most k rounds fetches, in order: it stops after
      one that faults or ends the batch, and a fetch past memory fetches nothing.
      A batch never runs more instructions than it has rounds. */
  function Trace(m: Machine, k: nat, i: nat, keys: seq<bool>, random: nat -> u8): (t: seq<Instruction>)
    requires m.Valid() && |keys| == KEY_COUNT
    ensures |t| <= k
    ensures |t| > 0 <==> k > 0 && m.index + 1 < MEMORY_SIZE
    ensures |t| > 0 ==> t[0] == Instruction.New(m.memory[m.index], m.memory[m.index + 1])
    decreases k
  {
    if k == 0 || m.index + 1 >= MEMORY_SIZE then []
    else
      var ins := Instruction.New(m.memory[m.index], m.memory[m.index + 1]);
      var outcome := Step(Fetched(m), m.index, ins, keys, random(i));
      if outcome.Ok? && outcome.value.1 == Continue then [ins] + Trace(outcome.value.0, k - 1, i + 1, keys, random)
      else [ins]
  }

  /** The machine after the batch's next round, when that round fetches and goes on. */
  function Continued(m: Machine, k: nat, i: nat, keys: seq<bool>, random: nat -> u8): (r: Option<Machine>)
    requires m.Valid() && |keys| == KEY_COUNT
    ensures r.Some? ==> r.value.Valid()
  {
    if k == 0 || m.index + 1 >= MEMORY_SIZE then None
    else
      var outcome := Step(Fetched(m), m.index, Instruction.New(m.memory[m.index], m.memory[m.index + 1]), keys, random(i));
      if outcome.Ok? && outcome.value.1 == Continue then Some(outcome.value.0) else None
  }

  /** The next round of a batch that fetches neither FX15 nor FX18: either the
      batch stops there with the timers it had, or it goes on, with those timers, to
      a batch that fetches neither either. */
  lemma RoundKeepsTimers(m: Machine, k: nat, i: nat, keys: seq<bool>, random: nat -> u8)
    requires m.Valid() && |keys| == KEY_COUNT && TimerFree(Trace(m, k, i, keys, random))
    ensures var next := Continued(m, k, i, keys, random);
      && (next.None? ==> Run(m, k, i, keys, random).0.timers == m.timers)
      && (next.Some? ==>
            && next.value.timers == m.timers
            && TimerFree(Trace(next.value, k - 1, i + 1, keys, random))
            && Run(m, k, i, keys, random) == Run(next.value, k - 1, i + 1, keys, random))
  {
    if k > 0 {
      assert Run(m, k, i, keys, random) == Fetch(m, k, i, keys, random);
      if m.index + 1 < MEMORY_SIZE {
        var ins := Instruction.New(m.memory[m.index], m.memory[m.index + 1]);
        var t := Trace(m, k, i, keys, random);
        var next := Continued(m, k, i, keys, random);
        RunOnce(m, k, i, keys, random);
        assert t[0] == ins;
        TimersUntouched(Fetched(m), m.index, ins, keys, random(i));
        if next.Some? {
          TimerFreeTail(t, Trace(next.value, k - 1, i + 1, keys, random));
        }
      }
    }
  }

  /** A batch that fetches neither FX15 nor FX18 ends with the timers it started
      with, whether it runs out of rounds, breaks or faults. */
  lemma {:induction false} RunKeepsTimers(m: Machine, k: nat, i: nat, keys: seq<bool>, random: nat -> u8)
    requires m.Valid() && |keys| == KEY_COUNT && TimerFree(Trace(m, k, i, keys, random))
    ensures Run(m, k, i, keys, random).0.timers == m.timers
    decreases k
  {
    var next := Continued(m, k, i, keys, random);
    RoundKeepsTimers(m, k, i, keys, random);
    if next.Some? {
      RunKeepsTimers(next.value, k - 1, i + 1, keys, random);
    }
  }

  /** Whatever the number of rounds, and whether the batch completes, breaks or
      faults part-way, a tick that fetches neither FX15 nor FX18 counts each timer
      down exactly once, stopping at zero. */
  lemma TickDecrementsOnce(m: Machine, n: nat, keys: seq<bool>, random: nat -> u8)
    requires m.Valid() && |keys| == KEY_COUNT && m.loaded
    requires TimerFree(Trace(m.(timers := Decremented(m.timers)), n, 0, keys, random))
    ensures var timers := TickSpec(m, n, keys, random).0.timers;
      && timers == Decremented(m.timers)
      && timers.delay as int == (if m.timers.delay == 0 then 0 else m.timers.delay as int - 1)
      && timers.sound as int == (if m.timers.sound == 0 then 0 else m.timers.sound as int - 1)
  {
    RunKeepsTimers(m.(timers := Decremented(m.timers)), n, 0, keys, random);
  }

  /** A batch of k rounds draws random bytes only for its first k instructions: two
      random sources that agree there give the same outcome. */
  lemma {:induction false} RunRandomWindow(m: Machine, k: nat, i: nat, keys: seq<bool>, random: nat -> u8, random': nat -> u8)
    requires m.Valid() && |keys| == KEY_COUNT
    requires forall j :: i <= j < i + k ==> random(j) == random'(j)
    ensures Run(m, k, i, keys, random) == Run(m, k, i, keys, random')
    decreases k
  {
    if k > 0 {
      assert Run(m, k, i, keys, random) == Fetch(m, k, i, keys, random);
      assert Run(m, k, i, keys, random') == Fetch(m, k, i, keys, random');
      if m.index + 1 < MEMORY_SIZE {
        RunOnce(m, k, i, keys, random);
        RunOnce(m, k, i, keys, random');
        assert random(i) == random'(i);
        var ins := Instruction.New(m.memory[m.index], m.memory[m.index + 1]);
        var outcome := Step(Fetched(m), m.index, ins, keys, random(i));
        if outcome.Ok? && outcome.value.1 == Continue {
          RunRandomWindow(outcome.value.0, k - 1, i + 1, keys, random, random');
        }
      }
    }
  }

  /** A tick of n instructions uses at most the random bytes for positions 0..n-1. */
  lemma TickRandomWindow(m: Machine, n: nat, keys: seq<bool>, random: nat -> u8, random': nat -> u8)
    requires m.Valid() && |keys| == KEY_COUNT
    requires forall j :: 0 <= j < n ==> random(j) == random'(j)
    ensures TickSpec(m, n, keys, random) == TickSpec(m, n, keys, random')
  {
    if m.loaded {
      RunRandomWindow(m.(timers := Decremented(m.timers)), n, 0, keys, random, random');
    }
  }

  // ---- Loading and resetting ----

  /** A program longer than the 3584 bytes after the reserved area is refused and
      nothing changes; any other is loaded at 512 with the font's first 80 bytes at
      the start of memory, and no other byte of memory changes. */
  lemma LoadLayout(m: Machine, font: Option<seq<u8>>, program: seq<u8>)
    requires m.Valid() && (font.Some? ==> |font.value| >= FONT_SIZE)
    ensures var r := LoadSpec(m, font, program);
      var f := if font.Some? then font.value else BACKEND_FONT;
      && (r.1.Err? <==> |program| > 3584)
      && (r.1.Err? ==> r == (m, Err(BackendError(None, ProgramInvalid))))
      && (r.1.Ok? ==>
        var mem := r.0.memory;
        && r.0 == m.(memory := mem, loaded := true)
        && (forall i :: 0 <= i < FONT_SIZE ==> mem[i] == f[i])
        && (forall i :: 0 <= i < |program| ==> mem[MEMORY_PADDING + i] == program[i])
        && forall i :: FONT_SIZE <= i < MEMORY_SIZE && !(MEMORY_PADDING <= i < MEMORY_PADDING + |program|) ==> mem[i] == m.memory[i])
  {
    if |program| <= 3584 {
      var f := if font.Some? then font.value else BACKEND_FONT;
      var mem := LoadSpec(m, font, program).0.memory;
      var once := Overwrite(m.memory, 0, f[..FONT_SIZE]);
      assert mem == Overwrite(once, MEMORY_PADDING, program);
      forall i | 0 <= i < |program|
        ensures mem[MEMORY_PADDING + i] == program[i]
      {
        assert MEMORY_PADDING <= MEMORY_PADDING + i < MEMORY_PADDING + |program|;
      }
    }
  }

  /** Reset keeps memory, the loaded flag, the options and the display, and puts
      the registers, stack and timers back to how a new backend has them. */
  lemma ResetKeeps(m: Machine, options: Options, displayOptions: Option<DisplayOptions>)
    requires m.Valid()
    ensures var r := ResetSpec(m);
      var init := Initial(options, displayOptions);
      && r.memory == m.memory && r.loaded == m.loaded && r.options == m.options && r.display == m.display
      && r.index == init.index && r.address == init.address && r.general == init.general
      && r.stack == init.stack && r.timers == init.timers
  {
  }

  /** Resetting twice is resetting once, and a new backend is already reset. */
  lemma ResetIdempotent(m: Machine, options: Options, displayOptions: Option<DisplayOptions>)
    requires m.Valid()
    ensures ResetSpec(ResetSpec(m)) == ResetSpec(m)
    ensures ResetSpec(Initial(options, displayOptions)) == Initial(options, displayOptions)
  {
  }

  /** A new backend has no program, an empty stack, stopped timers and its program
      counter at 512; with a display, every pixel is off. */
  lemma InitialState(options: Options, displayOptions: Option<DisplayOptions>)
    ensures var m := Initial(options, displayOptions);
      && !m.loaded && m.stack == [] && m.index == MEMORY_PADDING && m.timers == Timers(0, 0)
      && (forall i :: 0 <= i < MEMORY_SIZE ==> m.memory[i] == 0)
      && (m.display.Some? <==> displayOptions.Some?)
      && (m.display.Some? ==> forall r, c :: 0 <= r < DISPLAY_BUFFER_HEIGHT && 0 <= c < DISPLAY_BUFFER_WIDTH ==> !m.display.value.grid[r][c])
  {
  }

  // ---- The FX65 fault location ----

  /** FX65 as written: its fault reports the program counter, which by then points
      past the instruction, where every other fault reports the instruction's own
      address. */
  function RestoreAsWritten(m: Machine, at: nat, ins: Instruction): (r: Result<(Machine, Flow), BackendError>)
    requires m.Valid() && ins.OperatorCode() == 0xF && ins.OperandNN() == 0x65
    ensures r.Err? ==> r.error.instruction == Some((m.index, Some(ins)))
  {
    var x := ins.OperandX();
    if m.address + x >= MEMORY_SIZE then Err(BackendError(Some((m.index, Some(ins))), MemoryOverflow))
    else Ok((Advanced(m.(general := Overwrite(m.general, 0, m.memory[m.address..m.address + x + 1])), x), Continue))
  }

  /** FX65 at 0x200 with I = 0xFFF: the fault as written points at 0x202, the
      instruction after the one that failed; the corrected one points at 0x200. */
  lemma RestoreFaultMisplaced()
    ensures var m := Initial(DEFAULT_OPTIONS, None).(address := 0xFFF, index := 0x202);
      var ins := Word(0xF, 1, 6, 5);
      && RestoreAsWritten(m, 0x200, ins) == Err(BackendError(Some((0x202, Some(ins))), MemoryOverflow))
      && Step(m, 0x200, ins, seq(KEY_COUNT, _ => false), 0) == Err(BackendError(Some((0x200, Some(ins))), MemoryOverflow))
  {
    var ins := Word(0xF, 1, 6, 5);
    assert ins.OperandNN() == 0x65;
  }

  /** Apart from the fault location, the corrected FX65 does what the written one does. */
  lemma RestoreAgrees(m: Machine, at: nat, ins: Instruction, keys: seq<bool>, random: u8)
    requires m.Valid() && |keys| == KEY_COUNT && ins.OperatorCode() == 0xF && ins.OperandNN() == 0x65
    ensures var written, corrected := RestoreAsWritten(m, at, ins), Step(m, at, ins, keys, random);
      && (written.Ok? <==> corrected.Ok?)
      && (written.Ok? ==> written == corrected)
      && (written.Err? ==> corrected == Err(BackendError(Some((at, Some(ins))), written.error.kind)))
  {
  }
}

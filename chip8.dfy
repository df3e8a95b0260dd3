/**
 * The original CHIP-8 interpreter: 4 KiB of memory, sixteen byte registers V0-VF,
 * the address register I, a program counter, a sixteen-entry call stack, the two
 * timers and, optionally, a 64x32 display.
 *
 * `Machine` is the value of a backend and `Step`, `Run`, `TickSpec`, `LoadSpec` and
 * `ResetSpec` say what its operations do to that value; the class `Backend` holds
 * the same state in place and each of its methods is proved to follow them.
 */
module Chip8 {
  import opened Types
  import opened Instructions
  import opened Errors
  import opened Interfaces

  const DISPLAY_BUFFER_HEIGHT: nat := 32
  const DISPLAY_BUFFER_WIDTH: nat := 64
  const CHARACTER_SIZE: nat := 5
  const FONT_SIZE: nat := CHARACTER_SIZE * KEY_COUNT
  const MEMORY_PADDING: nat := 512
  const MEMORY_SIZE: nat := 4096
  const REGISTER_COUNT: nat := 16
  const STACK_SIZE: nat := 16
  /** The size of one instruction: how far the program counter moves past it. */
  const INSTRUCTION_SIZE: nat := 2
  /** VF, the flag register. */
  const FLAG: nat := 15

  /** Whether the batch of instructions in a tick goes on after this one. */
  datatype Flow = Continue | Break

  datatype Machine = Machine(
    memory: seq<u8>,
    general: seq<u8>,      // V0-VF
    address: nat,          // I
    index: nat,            // the program counter
    stack: seq<u16>,
    timers: Timers,
    options: Options,
    loaded: bool,
    display: Option<Screen>)
  {
    predicate Valid()
    {
      && |memory| == MEMORY_SIZE
      && |general| == REGISTER_COUNT
      && |stack| <= STACK_SIZE
      && (display.Some? ==> Fits(display.value))
    }
  }

  /** A valid 64x32 screen. */
  predicate Fits(s: Screen)
  {
    s.Valid() && s.width == DISPLAY_BUFFER_WIDTH && s.height == DISPLAY_BUFFER_HEIGHT
  }

  /** The bytes of s with those from `at` on replaced by src. */
  function Overwrite(s: seq<u8>, at: nat, src: seq<u8>): (r: seq<u8>)
    requires at + |src| <= |s|
    ensures |r| == |s|
    ensures forall i :: 0 <= i < |s| ==> r[i] == if at <= i < at + |src| then src[i - at] else s[i]
  {
    s[..at] + src + s[at + |src|..]
  }

  /** A fault raised by the instruction fetched from `at`. */
  function Fault(at: nat, ins: Instruction, kind: BackendErrorKind): BackendError
  {
    BackendError(Some((at, Some(ins))), kind)
  }

  /** Skips the next instruction when c holds. */
  function SkipIf(m: Machine, c: bool): Machine
  {
    if c then m.(index := m.index + INSTRUCTION_SIZE) else m
  }

  // ---- Executing one instruction ----
  //
  // `at` is where the instruction was fetched from; by the time it runs, the program
  // counter `m.index` already points past it. `keys` is the keypad and `random` the
  // byte the random source yields for CXNN. A fault leaves the machine as it was.

  function Step(m: Machine, at: nat, ins: Instruction, keys: seq<bool>, random: u8): (r: Result<(Machine, Flow), BackendError>)
    requires m.Valid() && |keys| == KEY_COUNT
    ensures r.Ok? ==> r.value.0.Valid()
    ensures r.Err? ==> r.error.instruction == Some((at, Some(ins)))
  {
    var x, y, nn, nnn := ins.OperandX(), ins.OperandY(), ins.OperandNN(), ins.OperandNNN();
    match ins.OperatorCode()
    case 0x0 => System(m, at, ins)
    case 0x1 => Ok((m.(index := nnn), Continue))
    case 0x2 =>
      if |m.stack| == STACK_SIZE then Err(Fault(at, ins, StackOverflow))
      else Ok((m.(stack := m.stack + [(m.index % 0x1_0000) as u16], index := nnn), Continue))
    case 0x3 => Ok((SkipIf(m, m.general[x] == nn), Continue))
    case 0x4 => Ok((SkipIf(m, m.general[x] != nn), Continue))
    case 0x5 => Ok((SkipIf(m, m.general[x] == m.general[y]), Continue))
    case 0x6 => Ok((m.(general := m.general[x := nn]), Continue))
    case 0x7 => Ok((m.(general := m.general[x := ((m.general[x] as int + nn as int) % 0x100) as u8]), Continue))
    case 0x8 => Arithmetic(m, at, ins)
    case 0x9 => Ok((SkipIf(m, m.general[x] != m.general[y]), Continue))
    case 0xA => Ok((m.(address := nnn), Continue))
    case 0xB => Ok((m.(index := m.general[if m.options.quirkyJump then x else 0] as nat + nnn), Continue))
    case 0xC => Ok((m.(general := m.general[x := BitAnd(random, nn)]), Continue))
    case 0xD => DrawSprite(m, at, ins)
    case 0xE => KeyState(m, at, ins, keys)
    case _ => Misc(m, at, ins, keys)  // 0xF: the operator code is a nibble
  }

  /** No instruction connects or disconnects the display. */
  lemma StepKeepsDisplay(m: Machine, at: nat, ins: Instruction, keys: seq<bool>, random: u8)
    requires m.Valid() && |keys| == KEY_COUNT
    ensures var r := Step(m, at, ins, keys, random);
      r.Ok? ==> r.value.0.display.None? == m.display.None?
  {
    match ins.OperatorCode()
    case 0x0 => assert Step(m, at, ins, keys, random) == System(m, at, ins);
    case 0x8 => assert Step(m, at, ins, keys, random) == Arithmetic(m, at, ins);
    case 0xD => assert Step(m, at, ins, keys, random) == DrawSprite(m, at, ins);
    case 0xE => assert Step(m, at, ins, keys, random) == KeyState(m, at, ins, keys);
    case 0xF => assert Step(m, at, ins, keys, random) == Misc(m, at, ins, keys);
    case _ =>
  }

  /** 00E0 clears the display, 00EE returns from a subroutine; any other 0NNN would
      call machine code of the host processor and does nothing. */
  function System(m: Machine, at: nat, ins: Instruction): (r: Result<(Machine, Flow), BackendError>)
    requires m.Valid() && ins.OperatorCode() == 0x0
    ensures r.Ok? ==> r.value.0.Valid() && r.value.1 == Continue
    ensures r.Err? ==> r.error.instruction == Some((at, Some(ins)))
  {
    if ins.OperandNNN() == 0x0E0 then
      if m.display.None? then Err(Fault(at, ins, DisplayNotConnected))
      else Ok((m.(display := Some(m.display.value.Cleared())), Continue))
    else if ins.OperandNNN() == 0x0EE then
      if |m.stack| == 0 then Err(Fault(at, ins, StackUnderflow))
      else Ok((m.(index := m.stack[|m.stack| - 1] as nat, stack := m.stack[..|m.stack| - 1]), Continue))
    else Ok((m, Continue))
  }

  /** 8XY_: register-to-register moves, logic, arithmetic with a carry or borrow in VF,
      and one-bit shifts with the bit shifted out in VF. */
  function Arithmetic(m: Machine, at: nat, ins: Instruction): (r: Result<(Machine, Flow), BackendError>)
    requires m.Valid() && ins.OperatorCode() == 0x8
    ensures r.Ok? ==> r.value.0.Valid() && r.value.1 == Continue
    ensures r.Err? ==> r.error.instruction == Some((at, Some(ins)))
  {
    var x, y := ins.OperandX(), ins.OperandY();
    var g := m.general;
    var reset := m.options.resetFlag;
    var src := if m.options.copyAndShift then g[y] else g[x];
    match ins.OperandN()
    case 0x0 => Ok((m.(general := g[x := g[y]]), Continue))
    case 0x1 => Ok((m.(general := Logic(g[x := BitOr(g[x], g[y])], reset)), Continue))
    case 0x2 => Ok((m.(general := Logic(g[x := BitAnd(g[x], g[y])], reset)), Continue))
    case 0x3 => Ok((m.(general := Logic(g[x := BitXor(g[x], g[y])], reset)), Continue))
    case 0x4 =>
      var sum := g[x] as int + g[y] as int;
      Ok((m.(general := g[x := (sum % 0x100) as u8][FLAG := if sum >= 0x100 then 1 else 0]), Continue))
    case 0x5 =>
      Ok((m.(general := g[x := ((g[x] as int - g[y] as int) % 0x100) as u8][FLAG := if g[x] >= g[y] then 1 else 0]), Continue))
    case 0x7 =>
      Ok((m.(general := g[x := ((g[y] as int - g[x] as int) % 0x100) as u8][FLAG := if g[y] >= g[x] then 1 else 0]), Continue))
    case 0x6 => Ok((m.(general := g[x := src / 2][FLAG := src % 2]), Continue))
    case 0xE => Ok((m.(general := g[x := ((src as int * 2) % 0x100) as u8][FLAG := src / 0x80]), Continue))
    case _ => Err(Fault(at, ins, UnrecognizedInstruction))
  }

  /** After 8XY1/8XY2/8XY3, VF is cleared when the reset-flag quirk is on. */
  function Logic(g: seq<u8>, reset: bool): seq<u8>
    requires |g| == REGISTER_COUNT
  {
    if reset then g[FLAG := 0] else g
  }

  /** DXYN XORs the N bytes at I onto the display at (VX, VY), sets VF when a lit
      pixel was turned off, and ends the batch so that the frame can be shown. */
  function DrawSprite(m: Machine, at: nat, ins: Instruction): (r: Result<(Machine, Flow), BackendError>)
    requires m.Valid() && ins.OperatorCode() == 0xD
    ensures r.Ok? ==> r.value.0.Valid() && r.value.1 == Break
    ensures r.Err? ==> r.error.instruction == Some((at, Some(ins)))
  {
    var n := ins.OperandN() as nat;
    if m.address + n >= MEMORY_SIZE then Err(Fault(at, ins, MemoryOverflow))
    else if m.display.None? then Err(Fault(at, ins, DisplayNotConnected))
    else
      var s := m.display.value;
      var vx, vy := m.general[ins.OperandX()] as nat, m.general[ins.OperandY()] as nat;
      var sprite := m.memory[m.address..m.address + n];
      var collided := s.Collisions(vx, vy, sprite) > 0;
      Ok((m.(display := Some(s.Drawn(vx, vy, sprite)), general := m.general[FLAG := if collided then 1 else 0]), Break))
  }

  /** EX9E and EXA1 skip the next instruction when key VX is, or is not, held down. */
  function KeyState(m: Machine, at: nat, ins: Instruction, keys: seq<bool>): (r: Result<(Machine, Flow), BackendError>)
    requires m.Valid() && ins.OperatorCode() == 0xE && |keys| == KEY_COUNT
    ensures r.Ok? ==> r.value.0.Valid() && r.value.1 == Continue
    ensures r.Err? ==> r.error.instruction == Some((at, Some(ins)))
  {
    var key := m.general[ins.OperandX()] as nat;
    if ins.OperandNN() == 0x9E then
      if key >= KEY_COUNT then Err(Fault(at, ins, UnrecognizedKey))
      else Ok((SkipIf(m, keys[key]), Continue))
    else if ins.OperandNN() == 0xA1 then
      if key >= KEY_COUNT then Err(Fault(at, ins, UnrecognizedKey))
      else Ok((SkipIf(m, !keys[key]), Continue))
    else Err(Fault(at, ins, UnrecognizedInstruction))
  }

  /** FX__: timers, waiting for a key, I arithmetic, the font, BCD, and block copies
      between the registers and memory at I. */
  function Misc(m: Machine, at: nat, ins: Instruction, keys: seq<bool>): (r: Result<(Machine, Flow), BackendError>)
    requires m.Valid() && ins.OperatorCode() == 0xF && |keys| == KEY_COUNT
    ensures r.Ok? ==> r.value.0.Valid()
    ensures r.Ok? ==> (r.value.1 == Break <==> ins.OperandNN() == 0x0A)
    ensures r.Err? ==> r.error.instruction == Some((at, Some(ins)))
  {
    var x := ins.OperandX();
    var vx := m.general[x];
    match ins.OperandNN()
    case 0x07 => Ok((m.(general := m.general[x := m.timers.delay]), Continue))
    case 0x0A =>
      (match FirstPressed(keys, 0)
       case Some(key) => Ok((m.(general := m.general[x := key as u8]), Break))
       case None => Ok((m.(index := at), Break)))
    case 0x15 => Ok((m.(timers := m.timers.(delay := vx)), Continue))
    case 0x18 => Ok((m.(timers := m.timers.(sound := vx)), Continue))
    case 0x1E => Ok((m.(address := (m.address + vx as nat) % 0x1000), Continue))
    case 0x29 =>
      if vx as nat >= KEY_COUNT then Err(Fault(at, ins, UnrecognizedSprite))
      else Ok((m.(address := vx as nat * CHARACTER_SIZE), Continue))
    case 0x33 =>
      if m.address + 2 >= MEMORY_SIZE then Err(Fault(at, ins, MemoryOverflow))
      else
        var a := m.address;
        Ok((m.(memory := m.memory[a := (vx / 10) / 10][a + 1 := (vx / 10) % 10][a + 2 := vx % 10]), Continue))
    case 0x55 =>
      if m.address + x >= MEMORY_SIZE then Err(Fault(at, ins, MemoryOverflow))
      else Ok((Advanced(m.(memory := Overwrite(m.memory, m.address, m.general[..x + 1])), x), Continue))
    case 0x65 =>
      if m.address + x >= MEMORY_SIZE then Err(Fault(at, ins, MemoryOverflow))
      else Ok((Advanced(m.(general := Overwrite(m.general, 0, m.memory[m.address..m.address + x + 1])), x), Continue))
    case _ => Err(Fault(at, ins, UnrecognizedInstruction))
  }

  /** After FX55/FX65, I moves past the block when the increment-address quirk is on. */
  function Advanced(m: Machine, x: nat): Machine
  {
    if m.options.incrementAddress then m.(address := m.address + x + 1) else m
  }

  // ---- Ticks ----

  // A tick runs rounds until k are done, one of them ends the batch, or one faults.
  // The four functions below follow the loop of a tick: its test, the fetch, the
  // execution, and the decision whether to go on.

  /** Up to k more rounds, the next being the i-th of the tick. */
  function Run(m: Machine, k: nat, i: nat, keys: seq<bool>, random: nat -> u8): (r: (Machine, Result<(), BackendError>))
    requires m.Valid() && |keys| == KEY_COUNT
    ensures r.0.Valid()
    decreases k, 3
  {
    if k == 0 then (m, Ok(())) else Fetch(m, k, i, keys, random)
  }

  /** A round fetches the two bytes at the program counter, unless they would lie
      past the end of memory, and moves the counter past them. */
  function Fetch(m: Machine, k: nat, i: nat, keys: seq<bool>, random: nat -> u8): (r: (Machine, Result<(), BackendError>))
    requires m.Valid() && |keys| == KEY_COUNT && k > 0
    ensures r.0.Valid()
    decreases k, 2
  {
    if m.index + 1 >= MEMORY_SIZE then (m, Err(BackendError(Some((m.index, None)), MemoryOverflow)))
    else Resume(Fetched(m), m.index, Instruction.New(m.memory[m.index], m.memory[m.index + 1]), k, i, keys, random)
  }

  /** The fetched instruction runs; a fault leaves the machine as fetched. */
  function Resume(m: Machine, at: nat, ins: Instruction, k: nat, i: nat, keys: seq<bool>, random: nat -> u8): (r: (Machine, Result<(), BackendError>))
    requires m.Valid() && |keys| == KEY_COUNT && k > 0
    ensures r.0.Valid()
    decreases k, 1
  {
    var outcome := Step(m, at, ins, keys, random(i));
    if outcome.Err? then Proceed(Err(outcome.error), m, k, i, keys, random)
    else Proceed(Ok(outcome.value.1), outcome.value.0, k, i, keys, random)
  }

  /** After a round whose outcome is r left the machine as m: a fault or an
      instruction that ends the batch stops the tick, anything else goes on. */
  function Proceed(r: Result<Flow, BackendError>, m: Machine, k: nat, i: nat, keys: seq<bool>, random: nat -> u8): (s: (Machine, Result<(), BackendError>))
    requires m.Valid() && |keys| == KEY_COUNT && k > 0
    ensures s.0.Valid()
    decreases k, 0
  {
    match r
    case Err(e) => (m, Err(e))
    case Ok(Break) => (m, Ok(()))
    case Ok(Continue) => Run(m, k - 1, i + 1, keys, random)
  }

  /** The machine with the program counter moved past the instruction it points at. */
  function Fetched(m: Machine): Machine
  {
    m.(index := m.index + INSTRUCTION_SIZE)
  }

  /** One round of `Run`, unfolded: fetch, execute, then go on or stop. */
  lemma RunOnce(m: Machine, k: nat, i: nat, keys: seq<bool>, random: nat -> u8)
    requires m.Valid() && |keys| == KEY_COUNT && k > 0 && m.index + 1 < MEMORY_SIZE
    ensures var ins := Instruction.New(m.memory[m.index], m.memory[m.index + 1]);
      var outcome := Step(Fetched(m), m.index, ins, keys, random(i));
      Run(m, k, i, keys, random) ==
        if outcome.Err? then Proceed(Err(outcome.error), Fetched(m), k, i, keys, random)
        else Proceed(Ok(outcome.value.1), outcome.value.0, k, i, keys, random)
  {
    var ins := Instruction.New(m.memory[m.index], m.memory[m.index + 1]);
    assert Run(m, k, i, keys, random) == Fetch(m, k, i, keys, random);
    assert Fetch(m, k, i, keys, random) == Resume(Fetched(m), m.index, ins, k, i, keys, random);
  }

  /** A tick: refused before a program is loaded; otherwise both timers count down
      once and then up to n instructions run. */
  function TickSpec(m: Machine, n: nat, keys: seq<bool>, random: nat -> u8): (r: (Machine, Result<(), BackendError>))
    requires m.Valid() && |keys| == KEY_COUNT
    ensures r.0.Valid()
  {
    if !m.loaded then (m, Err(BackendError(None, ProgramNotLoaded)))
    else Run(m.(timers := Decremented(m.timers)), n, 0, keys, random)
  }

  // ---- Loading and resetting ----

  /** A program that does not fit after the reserved first 512 bytes is refused;
      otherwise the font goes to the start of memory and the program at 512. */
  function LoadSpec(m: Machine, font: Option<seq<u8>>, program: seq<u8>): (r: (Machine, Result<(), BackendError>))
    requires m.Valid()
    requires font.Some? ==> |font.value| >= FONT_SIZE
    ensures r.0.Valid()
  {
    if |program| > MEMORY_SIZE - MEMORY_PADDING then (m, Err(BackendError(None, ProgramInvalid)))
    else
      var f := if font.Some? then font.value else BACKEND_FONT;
      (m.(memory := Overwrite(Overwrite(m.memory, 0, f[..FONT_SIZE]), MEMORY_PADDING, program), loaded := true), Ok(()))
  }

  /** Registers, stack and timers go back to their power-on values; memory, the
      loaded flag, the options and the display are kept. */
  function ResetSpec(m: Machine): (r: Machine)
    requires m.Valid()
    ensures r.Valid()
  {
    m.(index := MEMORY_PADDING, address := 0, general := seq(REGISTER_COUNT, _ => 0), stack := [], timers := Timers(0, 0))
  }

  /** A new backend: zeroed memory and registers, the program counter at 512, no
      program loaded, and a blank display when one is connected. */
  function Initial(options: Options, displayOptions: Option<DisplayOptions>): (m: Machine)
    ensures m.Valid()
  {
    Machine(seq(MEMORY_SIZE, _ => 0), seq(REGISTER_COUNT, _ => 0), 0, MEMORY_PADDING, [], Timers(0, 0), options, false,
      match displayOptions
      case None => None
      case Some(o) => Some(Screen(DISPLAY_BUFFER_WIDTH, DISPLAY_BUFFER_HEIGHT, Blank(DISPLAY_BUFFER_WIDTH, DISPLAY_BUFFER_HEIGHT), false, o.wrapSprites, false)))
  }

  /** The quirks of the original interpreter, and sprites clipped at the edges. */
  const DEFAULT_OPTIONS := Options(copyAndShift := true, incrementAddress := true, quirkyJump := false, resetFlag := true)

  /** A method result agrees with a specification result: the same outcome, and on
      success the specified state, on failure the state before. */
  predicate Agrees<T(==)>(r: Result<T, BackendError>, before: Machine, after: Machine, spec: Result<(Machine, T), BackendError>)
  {
    match spec
    case Ok((m, t)) => r == Ok(t) && after == m
    case Err(e) => r == Err(e) && after == before
  }

  /** Copies src into a from position `at` on. */
  method CopyInto(a: array<u8>, at: nat, src: seq<u8>)
    requires at + |src| <= a.Length
    modifies a
    ensures a[..] == Overwrite(old(a[..]), at, src)
  {
    for i := 0 to |src|
      invariant a[..] == Overwrite(old(a[..]), at, src[..i])
    {
      a[at + i] := src[i];
    }
    assert src[..|src|] == src;
  }

  class Backend {
    const display: DisplayBuffer?
    var index: nat
    var loaded: bool
    const memory: array<u8>
    var options: Options
    var address: nat
    const general: array<u8>
    var stack: seq<u16>
    var timers: Timers

    ghost function Repr(): set<object>
    {
      {this, memory, general} + (if display != null then {display, display.buffer} else {})
    }

    ghost predicate Valid()
      reads Repr()
    {
      && memory.Length == MEMORY_SIZE
      && general.Length == REGISTER_COUNT
      && memory != general
      && |stack| <= STACK_SIZE
      && (display != null ==> display.Valid() && display.width == DISPLAY_BUFFER_WIDTH && display.height == DISPLAY_BUFFER_HEIGHT)
    }

    ghost function Abs(): (m: Machine)
      reads Repr()
      ensures Valid() ==> m.Valid()
    {
      Machine(memory[..], general[..], address, index, stack, timers, options, loaded,
        if display == null then None else Some(display.Snapshot()))
    }

    constructor (options: Options, displayOptions: Option<DisplayOptions>)
      ensures Valid() && fresh(Repr())
      ensures (display == null <==> displayOptions.None?)
      ensures Abs() == Initial(options, displayOptions)
    {
      if displayOptions.Some? {
        display := new DisplayBuffer(DISPLAY_BUFFER_WIDTH, DISPLAY_BUFFER_HEIGHT, displayOptions.value);
      } else {
        display := null;
      }
      index := MEMORY_PADDING;
      loaded := false;
      memory := new u8[MEMORY_SIZE](_ => 0);
      this.options := options;
      address := 0;
      general := new u8[REGISTER_COUNT](_ => 0);
      stack := [];
      timers := Timers(0, 0);
      new;
      assert memory[..] == seq(MEMORY_SIZE, _ => 0);
      assert general[..] == seq(REGISTER_COUNT, _ => 0);
    }

    /** The default backend: the original quirks and a clipping display. */
    constructor Default()
      ensures Valid() && fresh(Repr()) && display != null
      ensures Abs() == Initial(DEFAULT_OPTIONS, Some(DisplayOptions(wrapSprites := false)))
    {
      display := new DisplayBuffer(DISPLAY_BUFFER_WIDTH, DISPLAY_BUFFER_HEIGHT, DisplayOptions(wrapSprites := false));
      index := MEMORY_PADDING;
      loaded := false;
      memory := new u8[MEMORY_SIZE](_ => 0);
      options := DEFAULT_OPTIONS;
      address := 0;
      general := new u8[REGISTER_COUNT](_ => 0);
      stack := [];
      timers := Timers(0, 0);
      new;
      assert memory[..] == seq(MEMORY_SIZE, _ => 0);
      assert general[..] == seq(REGISTER_COUNT, _ => 0);
    }

    method Execute(at: nat, ins: Instruction, keypad: KeypadState, random: u8) returns (r: Result<Flow, BackendError>)
      requires Valid() && keypad.Valid()
      modifies Repr()
      ensures Valid()
      ensures Agrees(r, old(Abs()), Abs(), Step(old(Abs()), at, ins, keypad.state, random))
    {
      var x, y, nn, nnn := ins.OperandX(), ins.OperandY(), ins.OperandNN(), ins.OperandNNN();
      match ins.OperatorCode() {
        case 0x0 =>
          r := ExecuteSystem(at, ins);
          return;
        case 0x1 =>
          index := nnn;
        case 0x2 =>
          if |stack| == STACK_SIZE {
            return Err(Fault(at, ins, StackOverflow));
          }
          stack := stack + [(index % 0x1_0000) as u16];
          index := nnn;
        case 0x3 =>
          r := ExecuteSkip(at, ins, keypad.state, random);
          return;
        case 0x4 =>
          r := ExecuteSkip(at, ins, keypad.state, random);
          return;
        case 0x5 =>
          r := ExecuteSkip(at, ins, keypad.state, random);
          return;
        case 0x6 =>
          general[x] := nn;
        case 0x7 =>
          general[x] := ((general[x] as int + nn as int) % 0x100) as u8;
        case 0x8 =>
          r := ExecuteArithmetic(at, ins);
          return;
        case 0x9 =>
          r := ExecuteSkip(at, ins, keypad.state, random);
          return;
        case 0xA =>
          address := nnn;
        case 0xB =>
          index := general[if options.quirkyJump then x else 0] as nat + nnn;
        case 0xC =>
          general[x] := BitAnd(random, nn);
        case 0xD =>
          r := ExecuteDraw(at, ins);
          return;
        case 0xE =>
          r := ExecuteKeyState(at, ins, keypad);
          return;
        case _ =>
          r := ExecuteMisc(at, ins, keypad);
          return;
      }
      r := Ok(Continue);
    }

    /** 3XNN, 4XNN, 5XY0 and 9XY0: skip the next instruction on a comparison. */
    method ExecuteSkip(at: nat, ins: Instruction, ghost keys: seq<bool>, ghost random: u8) returns (r: Result<Flow, BackendError>)
      requires Valid() && ins.OperatorCode() in {0x3, 0x4, 0x5, 0x9} && |keys| == KEY_COUNT
      modifies this
      ensures Valid()
      ensures Agrees(r, old(Abs()), Abs(), Step(old(Abs()), at, ins, keys, random))
    {
      var x, y, nn := ins.OperandX(), ins.OperandY(), ins.OperandNN();
      var skip := match ins.OperatorCode()
        case 0x3 => general[x] == nn
        case 0x4 => general[x] != nn
        case 0x5 => general[x] == general[y]
        case _ => general[x] != general[y];
      if skip {
        index := index + INSTRUCTION_SIZE;
      }
      r := Ok(Continue);
    }

    method ExecuteSystem(at: nat, ins: Instruction) returns (r: Result<Flow, BackendError>)
      requires Valid() && ins.OperatorCode() == 0x0
      modifies Repr()
      ensures Valid()
      ensures Agrees(r, old(Abs()), Abs(), System(old(Abs()), at, ins))
    {
      if ins.OperandNNN() == 0x0E0 {
        if display == null {
          return Err(Fault(at, ins, DisplayNotConnected));
        }
        display.Clear();
      } else if ins.OperandNNN() == 0x0EE {
        if |stack| == 0 {
          return Err(Fault(at, ins, StackUnderflow));
        }
        index := stack[|stack| - 1] as nat;
        stack := stack[..|stack| - 1];
      }
      r := Ok(Continue);
    }

    method ExecuteArithmetic(at: nat, ins: Instruction) returns (r: Result<Flow, BackendError>)
      requires Valid() && ins.OperatorCode() == 0x8
      modifies general
      ensures Valid()
      ensures Agrees(r, old(Abs()), Abs(), Arithmetic(old(Abs()), at, ins))
    {
      var x, y := ins.OperandX(), ins.OperandY();
      match ins.OperandN() {
        case 0x0 =>
          general[x] := general[y];
        case 0x1 =>
          general[x] := BitOr(general[x], general[y]);
          if options.resetFlag {
            general[FLAG] := 0;
          }
        case 0x2 =>
          general[x] := BitAnd(general[x], general[y]);
          if options.resetFlag {
            general[FLAG] := 0;
          }
        case 0x3 =>
          general[x] := BitXor(general[x], general[y]);
          if options.resetFlag {
            general[FLAG] := 0;
          }
        case 0x4 =>
          r := ExecuteCarry(at, ins);
          return;
        case 0x5 =>
          r := ExecuteCarry(at, ins);
          return;
        case 0x7 =>
          r := ExecuteCarry(at, ins);
          return;
        case 0x6 =>
          r := ExecuteShift(at, ins);
          return;
        case 0xE =>
          r := ExecuteShift(at, ins);
          return;
        case _ =>
          return Err(Fault(at, ins, UnrecognizedInstruction));
      }
      r := Ok(Continue);
    }

    /** 8XY4, 8XY5 and 8XY7: addition and the two subtractions, carry or no-borrow in VF. */
    method ExecuteCarry(at: nat, ins: Instruction) returns (r: Result<Flow, BackendError>)
      requires Valid() && ins.OperatorCode() == 0x8 && ins.OperandN() in {0x4, 0x5, 0x7}
      modifies general
      ensures Valid()
      ensures Agrees(r, old(Abs()), Abs(), Arithmetic(old(Abs()), at, ins))
    {
      var x, y := ins.OperandX(), ins.OperandY();
      if ins.OperandN() == 0x4 {
        var sum := general[x] as int + general[y] as int;
        general[x] := (sum % 0x100) as u8;
        general[FLAG] := if sum >= 0x100 then 1 else 0;
      } else if ins.OperandN() == 0x5 {
        var result := ((general[x] as int - general[y] as int) % 0x100) as u8;
        var flag: u8 := if general[x] >= general[y] then 1 else 0;
        general[x] := result;
        general[FLAG] := flag;
      } else {
        var result := ((general[y] as int - general[x] as int) % 0x100) as u8;
        var flag: u8 := if general[y] >= general[x] then 1 else 0;
        general[x] := result;
        general[FLAG] := flag;
      }
      r := Ok(Continue);
    }

    /** 8XY6 and 8XYE: one-bit shifts of VX (of VY first copied into VX under the
        copy-and-shift quirk), the bit shifted out in VF. */
    method ExecuteShift(at: nat, ins: Instruction) returns (r: Result<Flow, BackendError>)
      requires Valid() && ins.OperatorCode() == 0x8 && ins.OperandN() in {0x6, 0xE}
      modifies general
      ensures Valid()
      ensures Agrees(r, old(Abs()), Abs(), Arithmetic(old(Abs()), at, ins))
    {
      var x, y := ins.OperandX(), ins.OperandY();
      if options.copyAndShift {
        general[x] := general[y];
      }
      if ins.OperandN() == 0x6 {
        var result, flag := general[x] / 2, general[x] % 2;
        general[x] := result;
        general[FLAG] := flag;
      } else {
        var result, flag := ((general[x] as int * 2) % 0x100) as u8, general[x] / 0x80;
        general[x] := result;
        general[FLAG] := flag;
      }
      r := Ok(Continue);
    }

    method ExecuteDraw(at: nat, ins: Instruction) returns (r: Result<Flow, BackendError>)
      requires Valid() && ins.OperatorCode() == 0xD
      modifies Repr()
      ensures Valid()
      ensures Agrees(r, old(Abs()), Abs(), DrawSprite(old(Abs()), at, ins))
    {
      var n := ins.OperandN() as nat;
      if address + n >= memory.Length {
        return Err(Fault(at, ins, MemoryOverflow));
      }
      if display == null {
        return Err(Fault(at, ins, DisplayNotConnected));
      }
      var collidingRows := display.Draw(general[ins.OperandX()] as nat, general[ins.OperandY()] as nat, memory[address..address + n]);
      general[FLAG] := if collidingRows > 0 then 1 else 0;
      return Ok(Break);
    }

    method ExecuteKeyState(at: nat, ins: Instruction, keypad: KeypadState) returns (r: Result<Flow, BackendError>)
      requires Valid() && ins.OperatorCode() == 0xE && keypad.Valid()
      modifies this
      ensures Valid()
      ensures Agrees(r, old(Abs()), Abs(), KeyState(old(Abs()), at, ins, keypad.state))
    {
      if ins.OperandNN() == 0x9E {
        var key := general[ins.OperandX()] as nat;
        if key >= KEY_COUNT {
          return Err(Fault(at, ins, UnrecognizedKey));
        }
        if keypad.Pressed(key) {
          index := index + INSTRUCTION_SIZE;
        }
      } else if ins.OperandNN() == 0xA1 {
        var key := general[ins.OperandX()] as nat;
        if key >= KEY_COUNT {
          return Err(Fault(at, ins, UnrecognizedKey));
        }
        if !keypad.Pressed(key) {
          index := index + INSTRUCTION_SIZE;
        }
      } else {
        return Err(Fault(at, ins, UnrecognizedInstruction));
      }
      r := Ok(Continue);
    }

    method ExecuteMisc(at: nat, ins: Instruction, keypad: KeypadState) returns (r: Result<Flow, BackendError>)
      requires Valid() && ins.OperatorCode() == 0xF && keypad.Valid()
      modifies this, memory, general
      ensures Valid()
      ensures Agrees(r, old(Abs()), Abs(), Misc(old(Abs()), at, ins, keypad.state))
    {
      var x := ins.OperandX();
      match ins.OperandNN() {
        case 0x07 =>
          general[x] := timers.delay;
        case 0x0A =>
          match keypad.PressedKey() {
            case Some(key) =>
              general[x] := key as u8;
            case None =>
              index := at;
          }
          return Ok(Break);
        case 0x15 =>
          timers := timers.(delay := general[x]);
        case 0x18 =>
          timers := timers.(sound := general[x]);
        case 0x1E =>
          address := (address + general[x] as nat) % 0x1000;
        case 0x29 =>
          var characterCode := general[x] as nat;
          if characterCode >= KEY_COUNT {
            return Err(Fault(at, ins, UnrecognizedSprite));
          }
          address := characterCode * CHARACTER_SIZE;
        case 0x33 =>
          r := ExecuteDecimal(at, ins, keypad);
          return;
        case 0x55 =>
          r := ExecuteStore(at, ins, keypad);
          return;
        case 0x65 =>
          r := ExecuteRestore(at, ins, keypad);
          return;
        case _ =>
          return Err(Fault(at, ins, UnrecognizedInstruction));
      }
      r := Ok(Continue);
    }

    /** FX33 stores the three decimal digits of VX at I, I+1 and I+2. */
    method ExecuteDecimal(at: nat, ins: Instruction, keypad: KeypadState) returns (r: Result<Flow, BackendError>)
      requires Valid() && ins.OperatorCode() == 0xF && keypad.Valid() && ins.OperandNN() == 0x33
      modifies memory
      ensures Valid()
      ensures Agrees(r, old(Abs()), Abs(), Misc(old(Abs()), at, ins, keypad.state))
    {
      if address + 2 >= memory.Length {
        return Err(Fault(at, ins, MemoryOverflow));
      }
      var number := general[ins.OperandX()];
      memory[address] := (number / 10) / 10;
      memory[address + 1] := (number / 10) % 10;
      memory[address + 2] := number % 10;
      r := Ok(Continue);
    }

    /** FX55 copies V0-VX to memory at I. */
    method ExecuteStore(at: nat, ins: Instruction, keypad: KeypadState) returns (r: Result<Flow, BackendError>)
      requires Valid() && ins.OperatorCode() == 0xF && keypad.Valid() && ins.OperandNN() == 0x55
      modifies this, memory
      ensures Valid()
      ensures Agrees(r, old(Abs()), Abs(), Misc(old(Abs()), at, ins, keypad.state))
    {
      var x := ins.OperandX();
      if address + x >= memory.Length {
        return Err(Fault(at, ins, MemoryOverflow));
      }
      CopyInto(memory, address, general[..x + 1]);
      if options.incrementAddress {
        address := address + x + 1;
      }
      r := Ok(Continue);
    }

    /** FX65 copies memory at I into V0-VX. */
    method ExecuteRestore(at: nat, ins: Instruction, keypad: KeypadState) returns (r: Result<Flow, BackendError>)
      requires Valid() && ins.OperatorCode() == 0xF && keypad.Valid() && ins.OperandNN() == 0x65
      modifies this, general
      ensures Valid()
      ensures Agrees(r, old(Abs()), Abs(), Misc(old(Abs()), at, ins, keypad.state))
    {
      var x := ins.OperandX();
      if address + x >= memory.Length {
        return Err(Fault(at, ins, MemoryOverflow));
      }
      CopyInto(general, 0, memory[address..address + x + 1]);
      if options.incrementAddress {
        address := address + x + 1;
      }
      r := Ok(Continue);
    }

    method Load(font: Option<seq<u8>>, program: seq<u8>) returns (r: Result<(), BackendError>)
      requires Valid()
      requires font.Some? ==> |font.value| >= FONT_SIZE
      modifies this, memory
      ensures Valid()
      ensures (Abs(), r) == LoadSpec(old(Abs()), font, program)
    {
      if |program| > MEMORY_SIZE - MEMORY_PADDING {
        return Err(BackendError(None, ProgramInvalid));
      }
      var f := if font.Some? then font.value else BACKEND_FONT;
      CopyInto(memory, 0, f[..FONT_SIZE]);
      CopyInto(memory, MEMORY_PADDING, program);
      loaded := true;
      r := Ok(());
    }

    method Reset()
      requires Valid()
      modifies this, general
      ensures Valid() && Abs() == ResetSpec(old(Abs()))
    {
      index := MEMORY_PADDING;
      address := 0;
      forall i | 0 <= i < general.Length {
        general[i] := 0;
      }
      stack := [];
      timers := Timers(0, 0);
      assert general[..] == seq(REGISTER_COUNT, _ => 0);
    }

    /** Fetches the instruction at the program counter, moves the counter past it and
        executes it: one round of `Run` with k rounds left, the i-th of the tick. */
    method FetchAndExecute(ghost k: nat, i: nat, keypad: KeypadState, random: nat -> u8) returns (r: Result<Flow, BackendError>)
      requires Valid() && keypad.Valid() && k > 0
      modifies Repr()
      ensures Valid()
      ensures Run(old(Abs()), k, i, keypad.state, random) == Proceed(r, Abs(), k, i, keypad.state, random)
    {
      ghost var current := Abs();
      if index + 1 >= memory.Length {
        return Err(BackendError(Some((index, None)), MemoryOverflow));
      }
      var ins := Instruction.New(memory[index], memory[index + 1]);
      var lastIndex := index;
      index := index + INSTRUCTION_SIZE;
      assert Abs() == Fetched(current);
      RunOnce(current, k, i, keypad.state, random);
      r := Execute(lastIndex, ins, keypad, random(i));
    }

    /** Runs one tick of at most n instructions; `random(i)` is the byte the random
        source yields to the i-th of them. */
    method Tick(n: u8, keypad: KeypadState, random: nat -> u8) returns (r: Result<(), BackendError>)
      requires Valid() && keypad.Valid()
      modifies Repr()
      ensures Valid()
      ensures (Abs(), r) == TickSpec(old(Abs()), n as nat, keypad.state, random)
    {
      if !loaded {
        return Err(BackendError(None, ProgramNotLoaded));
      }
      timers := Timers(SaturatingDecrement(timers.delay), SaturatingDecrement(timers.sound));
      ghost var keys := keypad.state;
      assert Abs() == old(Abs()).(timers := Decremented(old(Abs()).timers));
      ghost var outcome := TickSpec(old(Abs()), n as nat, keys, random);
      for i := 0 to n as nat
        invariant Valid() && keypad.state == keys
        invariant Run(Abs(), n as nat - i, i, keys, random) == outcome
      {
        var flow := FetchAndExecute(n as nat - i, i, keypad, random);
        if flow.Err? {
          return Err(flow.error);
        }
        if flow.value == Break {
          break;
        }
      }
      r := Ok(());
    }
  }
}

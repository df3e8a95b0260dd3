/**
 * The SUPER-CHIP interpreter: a CHIP-8 interpreter (without a display of its own)
 * wrapped with a 128x64 display that starts in half resolution, an exit flag, and
 * eight bytes of persistent flag storage kept by the host.
 *
 * It runs 00E0, 00FD, 00FE, 00FF, DXYN, FX29, FX30, FX75 and FX85 itself and hands
 * every other instruction to the CHIP-8 interpreter. As in `Chip8`, `Machine` is the
 * value of a backend, `Step`, `Run`, `TickSpec`, `LoadSpec` and `ResetSpec` say
 * what its operations do, and the class `Backend` follows them in place. The flag
 * storage is not part of the backend: every operation that may change it takes it
 * and gives it back.
 */
module SuperChip {
  import opened Types
  import opened Instructions
  import opened Errors
  import opened Interfaces
  import Chip8

  const DISPLAY_BUFFER_HEIGHT: nat := 64
  const DISPLAY_BUFFER_WIDTH: nat := 128
  const HIRES_CHARACTER_COUNT: nat := 10
  const HIRES_CHARACTER_SIZE: nat := 10
  const HIRES_FONT_SIZE: nat := HIRES_CHARACTER_SIZE * HIRES_CHARACTER_COUNT
  /** The low-resolution font followed by the ten high-resolution digits. */
  const FONT_SIZE: nat := Chip8.FONT_SIZE + HIRES_FONT_SIZE
  const PERSISTENT_STORAGE_SIZE: nat := 8

  datatype Machine = Machine(inner: Chip8.Machine, display: Screen, programExited: bool)
  {
    predicate Valid()
    {
      && inner.Valid() && inner.display.None?
      && display.Valid() && display.width == DISPLAY_BUFFER_WIDTH && display.height == DISPLAY_BUFFER_HEIGHT
    }
  }

  /** Persistent flag storage as the host keeps it. */
  predicate IsStorage(s: seq<u8>)
  {
    |s| == PERSISTENT_STORAGE_SIZE
  }

  // ---- Executing one instruction ----
  //
  // As in `Chip8.Step`: `at` is where the instruction was fetched from, the program
  // counter already points past it, and a fault leaves machine and storage unchanged.

  function Step(m: Machine, storage: seq<u8>, at: nat, ins: Instruction, keys: seq<bool>, random: u8): (r: Result<(Machine, seq<u8>, Chip8.Flow), BackendError>)
    requires m.Valid() && IsStorage(storage) && |keys| == KEY_COUNT
    ensures r.Ok? ==> r.value.0.Valid() && IsStorage(r.value.1)
    ensures r.Err? ==> r.error.instruction == Some((at, Some(ins)))
  {
    var op, nnn, nn := ins.OperatorCode(), ins.OperandNNN(), ins.OperandNN();
    if op == 0x0 && nnn == 0x0E0 then Ok((m.(display := m.display.Cleared()), storage, Chip8.Continue))
    else if op == 0x0 && nnn == 0x0FD then Ok((m.(programExited := true), storage, Chip8.Break))
    else if op == 0x0 && nnn == 0x0FE then Ok((m.(display := m.display.(halfResolution := true)), storage, Chip8.Continue))
    else if op == 0x0 && nnn == 0x0FF then Ok((m.(display := m.display.(halfResolution := false)), storage, Chip8.Continue))
    else if op == 0xD then DrawSprite(m, storage, at, ins)
    else if op == 0xF && nn == 0x29 then FontCharacter(m, storage, at, ins)
    else if op == 0xF && nn == 0x30 then HiresCharacter(m, storage, at, ins)
    else if op == 0xF && nn == 0x75 then
      Ok((m, Chip8.Overwrite(storage, 0, m.inner.general[..Held(ins.OperandX())]), Chip8.Continue))
    else if op == 0xF && nn == 0x85 then
      Ok((m.(inner := m.inner.(general := Chip8.Overwrite(m.inner.general, 0, storage[..Held(ins.OperandX())]))), storage, Chip8.Continue))
    else Delegate(m, storage, at, ins, keys, random)
  }

  /** Any other instruction runs on the CHIP-8 interpreter. */
  function Delegate(m: Machine, storage: seq<u8>, at: nat, ins: Instruction, keys: seq<bool>, random: u8): (r: Result<(Machine, seq<u8>, Chip8.Flow), BackendError>)
    requires m.Valid() && IsStorage(storage) && |keys| == KEY_COUNT
    ensures r.Ok? ==> r.value.0.Valid() && IsStorage(r.value.1)
    ensures r.Err? ==> r.error.instruction == Some((at, Some(ins)))
  {
    Chip8.StepKeepsDisplay(m.inner, at, ins, keys, random);
    var outcome := Chip8.Step(m.inner, at, ins, keys, random);
    if outcome.Err? then Err(outcome.error)
    else Ok((m.(inner := outcome.value.0), storage, outcome.value.1))
  }

  /** How many of V0.. FX75 and FX85 move: up to VX, but never more than the storage holds. */
  function Held(x: nat): (n: nat)
    ensures 1 <= n <= PERSISTENT_STORAGE_SIZE
  {
    if x < PERSISTENT_STORAGE_SIZE - 1 then x + 1 else PERSISTENT_STORAGE_SIZE
  }

  /** The number of sprite rows DXYN draws: 32 for DXY0 in full resolution, else N. */
  function SpriteRows(halfResolution: bool, ins: Instruction): (n: nat)
    ensures n <= 32
  {
    if !halfResolution && ins.OperandN() == 0 then 32 else ins.OperandN() as nat
  }

  /** DXYN draws without ending the batch; VF is the number of rows that turned a lit
      pixel off, or in half resolution whether there was any. */
  function DrawSprite(m: Machine, storage: seq<u8>, at: nat, ins: Instruction): (r: Result<(Machine, seq<u8>, Chip8.Flow), BackendError>)
    requires m.Valid() && IsStorage(storage) && ins.OperatorCode() == 0xD
    ensures r.Ok? ==> r.value.0.Valid() && IsStorage(r.value.1)
    ensures r.Err? ==> r.error.instruction == Some((at, Some(ins)))
  {
    var s := m.display;
    var n := SpriteRows(s.halfResolution, ins);
    var a := m.inner.address;
    if a + n >= Chip8.MEMORY_SIZE then Err(Chip8.Fault(at, ins, MemoryOverflow))
    else
      var vx, vy := m.inner.general[ins.OperandX()] as nat, m.inner.general[ins.OperandY()] as nat;
      var sprite := m.inner.memory[a..a + n];
      var count := s.Collisions(vx, vy, sprite);
      var flag: u8 := if s.halfResolution then (if count > 0 then 1 else 0) else count as u8;
      Ok((m.(display := s.Drawn(vx, vy, sprite), inner := m.inner.(general := m.inner.general[Chip8.FLAG := flag])), storage, Chip8.Continue))
  }

  /** FX29 points I at the low-resolution glyph of a hexadecimal digit, or at the
      high-resolution glyph of the decimal digit in the low nibble when bit 4 is set. */
  function FontCharacter(m: Machine, storage: seq<u8>, at: nat, ins: Instruction): (r: Result<(Machine, seq<u8>, Chip8.Flow), BackendError>)
    requires m.Valid() && IsStorage(storage) && ins.OperatorCode() == 0xF
    ensures r.Ok? ==> r.value.0.Valid() && IsStorage(r.value.1)
    ensures r.Err? ==> r.error.instruction == Some((at, Some(ins)))
  {
    var code := m.inner.general[ins.OperandX()];
    if code as nat < KEY_COUNT then Ok((m.(inner := m.inner.(address := code as nat * Chip8.CHARACTER_SIZE)), storage, Chip8.Continue))
    else if BitAnd(code, 0x10) == 0 || BitAnd(code, 0x0F) as nat >= HIRES_CHARACTER_COUNT then
      Err(Chip8.Fault(at, ins, UnrecognizedSprite))
    else
      Ok((m.(inner := m.inner.(address := Chip8.FONT_SIZE + BitAnd(code, 0x0F) as nat * HIRES_CHARACTER_SIZE)), storage, Chip8.Continue))
  }

  /** FX30 points I at the high-resolution glyph of decimal digit VX. */
  function HiresCharacter(m: Machine, storage: seq<u8>, at: nat, ins: Instruction): (r: Result<(Machine, seq<u8>, Chip8.Flow), BackendError>)
    requires m.Valid() && IsStorage(storage) && ins.OperatorCode() == 0xF
    ensures r.Ok? ==> r.value.0.Valid() && IsStorage(r.value.1)
    ensures r.Err? ==> r.error.instruction == Some((at, Some(ins)))
  {
    var code := m.inner.general[ins.OperandX()] as nat;
    if code >= HIRES_CHARACTER_COUNT then Err(Chip8.Fault(at, ins, UnrecognizedSprite))
    else Ok((m.(inner := m.inner.(address := Chip8.FONT_SIZE + code * HIRES_CHARACTER_SIZE)), storage, Chip8.Continue))
  }

  // ---- Ticks ----
  //
  // The same loop as a CHIP-8 tick, with this interpreter's instructions and the
  // flag storage carried along.

  function Run(m: Machine, storage: seq<u8>, k: nat, i: nat, keys: seq<bool>, random: nat -> u8): (r: (Machine, seq<u8>, Result<(), BackendError>))
    requires m.Valid() && IsStorage(storage) && |keys| == KEY_COUNT
    ensures r.0.Valid() && IsStorage(r.1)
    decreases k, 3
  {
    if k == 0 then (m, storage, Ok(())) else Fetch(m, storage, k, i, keys, random)
  }

  function Fetch(m: Machine, storage: seq<u8>, k: nat, i: nat, keys: seq<bool>, random: nat -> u8): (r: (Machine, seq<u8>, Result<(), BackendError>))
    requires m.Valid() && IsStorage(storage) && |keys| == KEY_COUNT && k > 0
    ensures r.0.Valid() && IsStorage(r.1)
    decreases k, 2
  {
    var pc := m.inner.index;
    if pc + 1 >= Chip8.MEMORY_SIZE then (m, storage, Err(BackendError(Some((pc, None)), MemoryOverflow)))
    else Resume(Fetched(m), storage, pc, Instruction.New(m.inner.memory[pc], m.inner.memory[pc + 1]), k, i, keys, random)
  }

  function Resume(m: Machine, storage: seq<u8>, at: nat, ins: Instruction, k: nat, i: nat, keys: seq<bool>, random: nat -> u8): (r: (Machine, seq<u8>, Result<(), BackendError>))
    requires m.Valid() && IsStorage(storage) && |keys| == KEY_COUNT && k > 0
    ensures r.0.Valid() && IsStorage(r.1)
    decreases k, 1
  {
    var outcome := Step(m, storage, at, ins, keys, random(i));
    if outcome.Err? then Proceed(Err(outcome.error), m, storage, k, i, keys, random)
    else Proceed(Ok(outcome.value.2), outcome.value.0, outcome.value.1, k, i, keys, random)
  }

  function Proceed(r: Result<Chip8.Flow, BackendError>, m: Machine, storage: seq<u8>, k: nat, i: nat, keys: seq<bool>, random: nat -> u8): (s: (Machine, seq<u8>, Result<(), BackendError>))
    requires m.Valid() && IsStorage(storage) && |keys| == KEY_COUNT && k > 0
    ensures s.0.Valid() && IsStorage(s.1)
    decreases k, 0
  {
    match r
    case Err(e) => (m, storage, Err(e))
    case Ok(Break) => (m, storage, Ok(()))
    case Ok(Continue) => Run(m, storage, k - 1, i + 1, keys, random)
  }

  function Fetched(m: Machine): Machine
  {
    m.(inner := Chip8.Fetched(m.inner))
  }

  /** One round of `Run`, unfolded. */
  lemma RunOnce(m: Machine, storage: seq<u8>, k: nat, i: nat, keys: seq<bool>, random: nat -> u8)
    requires m.Valid() && IsStorage(storage) && |keys| == KEY_COUNT && k > 0 && m.inner.index + 1 < Chip8.MEMORY_SIZE
    ensures var pc := m.inner.index;
      var ins := Instruction.New(m.inner.memory[pc], m.inner.memory[pc + 1]);
      var outcome := Step(Fetched(m), storage, pc, ins, keys, random(i));
      Run(m, storage, k, i, keys, random) ==
        if outcome.Err? then Proceed(Err(outcome.error), Fetched(m), storage, k, i, keys, random)
        else Proceed(Ok(outcome.value.2), outcome.value.0, outcome.value.1, k, i, keys, random)
  {
    var pc := m.inner.index;
    var ins := Instruction.New(m.inner.memory[pc], m.inner.memory[pc + 1]);
    assert Run(m, storage, k, i, keys, random) == Fetch(m, storage, k, i, keys, random);
    assert Fetch(m, storage, k, i, keys, random) == Resume(Fetched(m), storage, pc, ins, k, i, keys, random);
  }

  /** A tick: refused before a program is loaded; otherwise both timers count down
      once and then up to n instructions run. */
  function TickSpec(m: Machine, storage: seq<u8>, n: nat, keys: seq<bool>, random: nat -> u8): (r: (Machine, seq<u8>, Result<(), BackendError>))
    requires m.Valid() && IsStorage(storage) && |keys| == KEY_COUNT
    ensures r.0.Valid() && IsStorage(r.1)
  {
    if !m.inner.loaded then (m, storage, Err(BackendError(None, ProgramNotLoaded)))
    else Run(m.(inner := m.inner.(timers := Decremented(m.inner.timers))), storage, n, 0, keys, random)
  }

  // ---- Loading and resetting ----

  /** The CHIP-8 load of the font's first 80 bytes and the program; then the
      high-resolution digits go after them, from the font when it has all 180
      bytes and from the bundled font otherwise. */
  function LoadSpec(m: Machine, font: Option<seq<u8>>, program: seq<u8>): (r: (Machine, Result<(), BackendError>))
    requires m.Valid()
    requires font.Some? ==> |font.value| >= Chip8.FONT_SIZE
    ensures r.0.Valid()
  {
    var f := if font.Some? then font.value else BACKEND_FONT;
    var (inner, result) := Chip8.LoadSpec(m.inner, Some(f[..Chip8.FONT_SIZE]), program);
    if result.Err? then (m, result)
    else
      var hires := if |f| >= FONT_SIZE then f[Chip8.FONT_SIZE..FONT_SIZE] else BACKEND_FONT[Chip8.FONT_SIZE..FONT_SIZE];
      (m.(inner := inner.(memory := Chip8.Overwrite(inner.memory, Chip8.FONT_SIZE, hires))), Ok(()))
  }

  /** The CHIP-8 reset, and the exit flag cleared. */
  function ResetSpec(m: Machine): (r: Machine)
    requires m.Valid()
    ensures r.Valid()
  {
    m.(inner := Chip8.ResetSpec(m.inner), programExited := false)
  }

  /** A new backend: a CHIP-8 machine without a display, a blank 128x64 display in
      half resolution, and no exit. */
  function Initial(options: Options, displayOptions: DisplayOptions): (m: Machine)
    ensures m.Valid()
  {
    Machine(Chip8.Initial(options, None),
      Screen(DISPLAY_BUFFER_WIDTH, DISPLAY_BUFFER_HEIGHT, Blank(DISPLAY_BUFFER_WIDTH, DISPLAY_BUFFER_HEIGHT), false, displayOptions.wrapSprites, true),
      false)
  }

  /** The SUPER-CHIP quirks, and sprites clipped at the edges. */
  const DEFAULT_OPTIONS := Options(copyAndShift := false, incrementAddress := false, quirkyJump := true, resetFlag := false)

  /** A method result agrees with a specification result: the same outcome, and on
      success the specified machine and storage, on failure those before. */
  predicate Agrees<T(==)>(r: Result<T, BackendError>, before: (Machine, seq<u8>), after: (Machine, seq<u8>), spec: Result<(Machine, seq<u8>, T), BackendError>)
  {
    match spec
    case Ok((m, s, t)) => r == Ok(t) && after == (m, s)
    case Err(e) => r == Err(e) && after == before
  }

  class Backend {
    const display: DisplayBuffer
    const inner: Chip8.Backend
    var programExited: bool

    ghost function Repr(): set<object>
    {
      {this, display, display.buffer} + inner.Repr()
    }

    ghost predicate Valid()
      reads Repr()
    {
      && inner.Valid() && inner.display == null
      && display.Valid() && display.width == DISPLAY_BUFFER_WIDTH && display.height == DISPLAY_BUFFER_HEIGHT
    }

    ghost function Abs(): (m: Machine)
      reads Repr()
      ensures Valid() ==> m.Valid()
    {
      Machine(inner.Abs(), display.Snapshot(), programExited)
    }

    /** Flag storage the backend may use: eight bytes of the host's own. */
    ghost predicate Usable(storage: array<u8>)
      reads this, inner
    {
      storage.Length == PERSISTENT_STORAGE_SIZE && storage != inner.memory && storage != inner.general
    }

    constructor (options: Options, displayOptions: DisplayOptions)
      ensures Valid() && fresh(Repr())
      ensures Abs() == Initial(options, displayOptions)
    {
      var d := new DisplayBuffer(DISPLAY_BUFFER_WIDTH, DISPLAY_BUFFER_HEIGHT, displayOptions);
      d.halfResolution := true;
      display := d;
      inner := new Chip8.Backend(options, None);
      programExited := false;
    }

    /** The default backend: the SUPER-CHIP quirks and a clipping display. */
    constructor Default()
      ensures Valid() && fresh(Repr())
      ensures Abs() == Initial(DEFAULT_OPTIONS, DisplayOptions(wrapSprites := false))
    {
      var d := new DisplayBuffer(DISPLAY_BUFFER_WIDTH, DISPLAY_BUFFER_HEIGHT, DisplayOptions(wrapSprites := false));
      d.halfResolution := true;
      display := d;
      inner := new Chip8.Backend(DEFAULT_OPTIONS, None);
      programExited := false;
    }

    method Execute(at: nat, ins: Instruction, keypad: KeypadState, random: u8, storage: array<u8>) returns (r: Result<Chip8.Flow, BackendError>)
      requires Valid() && keypad.Valid() && Usable(storage)
      modifies Repr(), storage
      ensures Valid()
      ensures Agrees(r, old((Abs(), storage[..])), (Abs(), storage[..]), Step(old(Abs()), old(storage[..]), at, ins, keypad.state, random))
    {
      var op, nnn, nn := ins.OperatorCode(), ins.OperandNNN(), ins.OperandNN();
      if op == 0x0 && nnn == 0x0E0 {
        display.Clear();
      } else if op == 0x0 && nnn == 0x0FD {
        programExited := true;
        return Ok(Chip8.Break);
      } else if op == 0x0 && nnn == 0x0FE {
        display.halfResolution := true;
      } else if op == 0x0 && nnn == 0x0FF {
        display.halfResolution := false;
      } else if op == 0xD {
        r := ExecuteDraw(at, ins, storage);
        return;
      } else if op == 0xF && nn in {0x29, 0x30} {
        r := ExecuteCharacter(at, ins, keypad.state, random, storage);
        return;
      } else if op == 0xF && nn in {0x75, 0x85} {
        r := ExecuteFlags(at, ins, keypad.state, random, storage);
        return;
      } else {
        r := ExecuteInner(at, ins, keypad, random, storage);
        return;
      }
      r := Ok(Chip8.Continue);
    }

    /** Hands the instruction to the CHIP-8 interpreter. */
    method ExecuteInner(at: nat, ins: Instruction, keypad: KeypadState, random: u8, storage: array<u8>) returns (r: Result<Chip8.Flow, BackendError>)
      requires Valid() && keypad.Valid() && Usable(storage)
      requires !(ins.OperatorCode() == 0x0 && ins.OperandNNN() in {0x0E0, 0x0FD, 0x0FE, 0x0FF})
      requires ins.OperatorCode() != 0xD && !(ins.OperatorCode() == 0xF && ins.OperandNN() in {0x29, 0x30, 0x75, 0x85})
      modifies inner.Repr()
      ensures Valid()
      ensures Agrees(r, old((Abs(), storage[..])), (Abs(), storage[..]), Step(old(Abs()), old(storage[..]), at, ins, keypad.state, random))
    {
      Chip8.StepKeepsDisplay(inner.Abs(), at, ins, keypad.state, random);
      r := inner.Execute(at, ins, keypad, random);
    }

    method ExecuteDraw(at: nat, ins: Instruction, storage: array<u8>) returns (r: Result<Chip8.Flow, BackendError>)
      requires Valid() && ins.OperatorCode() == 0xD && Usable(storage)
      modifies display, display.buffer, inner.general
      ensures Valid()
      ensures Agrees(r, old((Abs(), storage[..])), (Abs(), storage[..]), DrawSprite(old(Abs()), old(storage[..]), at, ins))
    {
      var n := if !display.halfResolution && ins.OperandN() == 0 then 32 else ins.OperandN() as nat;
      var a := inner.address;
      if a + n >= inner.memory.Length {
        return Err(Chip8.Fault(at, ins, MemoryOverflow));
      }
      var collidingRows := display.Draw(inner.general[ins.OperandX()] as nat, inner.general[ins.OperandY()] as nat, inner.memory[a..a + n]);
      inner.general[Chip8.FLAG] := if display.halfResolution then (if collidingRows > 0 then 1 else 0) else collidingRows as u8;
      r := Ok(Chip8.Continue);
    }

    /** FX29 and FX30. */
    method ExecuteCharacter(at: nat, ins: Instruction, ghost keys: seq<bool>, ghost random: u8, storage: array<u8>) returns (r: Result<Chip8.Flow, BackendError>)
      requires Valid() && ins.OperatorCode() == 0xF && ins.OperandNN() in {0x29, 0x30} && Usable(storage) && |keys| == KEY_COUNT
      modifies inner
      ensures Valid()
      ensures Agrees(r, old((Abs(), storage[..])), (Abs(), storage[..]), Step(old(Abs()), old(storage[..]), at, ins, keys, random))
    {
      var characterCode := inner.general[ins.OperandX()];
      if ins.OperandNN() == 0x29 {
        if characterCode as nat < KEY_COUNT {
          inner.address := characterCode as nat * Chip8.CHARACTER_SIZE;
          return Ok(Chip8.Continue);
        }
        if BitAnd(characterCode, 0x10) == 0 || BitAnd(characterCode, 0x0F) as nat >= HIRES_CHARACTER_COUNT {
          return Err(Chip8.Fault(at, ins, UnrecognizedSprite));
        }
        inner.address := Chip8.FONT_SIZE + BitAnd(characterCode, 0x0F) as nat * HIRES_CHARACTER_SIZE;
      } else {
        if characterCode as nat >= HIRES_CHARACTER_COUNT {
          return Err(Chip8.Fault(at, ins, UnrecognizedSprite));
        }
        inner.address := Chip8.FONT_SIZE + characterCode as nat * HIRES_CHARACTER_SIZE;
      }
      r := Ok(Chip8.Continue);
    }

    /** FX75 saves V0.. to the flag storage; FX85 restores them. */
    method ExecuteFlags(at: nat, ins: Instruction, ghost keys: seq<bool>, ghost random: u8, storage: array<u8>) returns (r: Result<Chip8.Flow, BackendError>)
      requires Valid() && ins.OperatorCode() == 0xF && ins.OperandNN() in {0x75, 0x85} && Usable(storage) && |keys| == KEY_COUNT
      modifies inner.general, storage
      ensures Valid()
      ensures Agrees(r, old((Abs(), storage[..])), (Abs(), storage[..]), Step(old(Abs()), old(storage[..]), at, ins, keys, random))
    {
      var n := Held(ins.OperandX());
      if ins.OperandNN() == 0x75 {
        Chip8.CopyInto(storage, 0, inner.general[..n]);
      } else {
        Chip8.CopyInto(inner.general, 0, storage[..n]);
      }
      r := Ok(Chip8.Continue);
    }

    method Load(font: Option<seq<u8>>, program: seq<u8>) returns (r: Result<(), BackendError>)
      requires Valid()
      requires font.Some? ==> |font.value| >= Chip8.FONT_SIZE
      modifies inner, inner.memory
      ensures Valid()
      ensures (Abs(), r) == LoadSpec(old(Abs()), font, program)
    {
      var f := if font.Some? then font.value else BACKEND_FONT;
      r := inner.Load(Some(f[..Chip8.FONT_SIZE]), program);
      if r.Err? {
        return;
      }
      var hires := if |f| >= FONT_SIZE then f[Chip8.FONT_SIZE..FONT_SIZE] else BACKEND_FONT[Chip8.FONT_SIZE..FONT_SIZE];
      Chip8.CopyInto(inner.memory, Chip8.FONT_SIZE, hires);
    }

    method Reset()
      requires Valid()
      modifies this, inner, inner.general
      ensures Valid() && Abs() == ResetSpec(old(Abs()))
    {
      programExited := false;
      inner.Reset();
    }

    /** One round of `Run` with k rounds left, the i-th of the tick. */
    method FetchAndExecute(ghost k: nat, i: nat, keypad: KeypadState, random: nat -> u8, storage: array<u8>) returns (r: Result<Chip8.Flow, BackendError>)
      requires Valid() && keypad.Valid() && Usable(storage) && k > 0
      modifies Repr(), storage
      ensures Valid()
      ensures Run(old(Abs()), old(storage[..]), k, i, keypad.state, random) == Proceed(r, Abs(), storage[..], k, i, keypad.state, random)
    {
      ghost var current := Abs();
      if inner.index + 1 >= inner.memory.Length {
        return Err(BackendError(Some((inner.index, None)), MemoryOverflow));
      }
      var ins := Instruction.New(inner.memory[inner.index], inner.memory[inner.index + 1]);
      var lastIndex := inner.index;
      inner.index := inner.index + Chip8.INSTRUCTION_SIZE;
      assert Abs() == Fetched(current);
      RunOnce(current, storage[..], k, i, keypad.state, random);
      r := Execute(lastIndex, ins, keypad, random(i), storage);
    }

    /** Runs one tick of at most n instructions; `random(i)` is the byte the random
        source yields to the i-th of them. */
    method Tick(n: u8, keypad: KeypadState, random: nat -> u8, storage: array<u8>) returns (r: Result<(), BackendError>)
      requires Valid() && keypad.Valid() && Usable(storage)
      modifies Repr(), storage
      ensures Valid()
      ensures (Abs(), storage[..], r) == TickSpec(old(Abs()), old(storage[..]), n as nat, keypad.state, random)
    {
      if !inner.loaded {
        return Err(BackendError(None, ProgramNotLoaded));
      }
      inner.timers := Timers(SaturatingDecrement(inner.timers.delay), SaturatingDecrement(inner.timers.sound));
      ghost var keys := keypad.state;
      assert Abs() == old(Abs()).(inner := old(Abs()).inner.(timers := Decremented(old(Abs()).inner.timers)));
      ghost var outcome := TickSpec(old(Abs()), old(storage[..]), n as nat, keys, random);
      for i := 0 to n as nat
        invariant Valid() && keypad.state == keys && Usable(storage)
        invariant Run(Abs(), storage[..], n as nat - i, i, keys, random) == outcome
      {
        var flow := FetchAndExecute(n as nat - i, i, keypad, random, storage);
        if flow.Err? {
          return Err(flow.error);
        }
        if flow.value == Chip8.Break {
          break;
        }
      }
      r := Ok(());
    }
  }
}

/**
 * The backend a front end drives: either interpreter, chosen when it is built,
 * behind one interface that forwards each request to the selected variant.
 */
module Backends {
  import opened Types
  import opened Errors
  import opened Interfaces
  import Chip8
  import SuperChip

  /** A font must hold at least the sixteen 5-byte digits; the SUPER-CHIP reads at
      most those and its ten 10-byte digits. */
  const MIN_FONT_SIZE: nat := Chip8.FONT_SIZE
  const MAX_FONT_SIZE: nat := SuperChip.FONT_SIZE

  datatype Backend = Chip8Backend(chip8: Chip8.Backend) | SuperChipBackend(superChip: SuperChip.Backend)
  {
    ghost function Repr(): set<object>
    {
      match this
      case Chip8Backend(b) => b.Repr()
      case SuperChipBackend(b) => b.Repr()
    }

    ghost predicate Valid()
      reads Repr()
    {
      match this
      case Chip8Backend(b) => b.Valid()
      case SuperChipBackend(b) => b.Valid()
    }

    ghost function Abs(): (s: State)
      reads Repr()
      ensures s.Chip8State? <==> Chip8Backend?
      ensures Valid() ==> s.Valid()
    {
      match this
      case Chip8Backend(b) => Chip8State(b.Abs())
      case SuperChipBackend(b) => SuperChipState(b.Abs())
    }
  }

  /** The state of the selected interpreter. */
  datatype State = Chip8State(chip8: Chip8.Machine) | SuperChipState(superChip: SuperChip.Machine)
  {
    predicate Valid()
    {
      match this
      case Chip8State(m) => m.Valid()
      case SuperChipState(m) => m.Valid()
    }

    /** Whether a display is attached: the SUPER-CHIP always has its own. */
    predicate Connected()
    {
      Chip8State? ==> chip8.display.Some?
    }
  }

  // ---- What the front end reads ----

  /** The display's dimensions as (width, height): twice as wide as it is high,
      which is the aspect ratio both interpreters report. */
  function DisplayBufferSize(b: Backend): (r: (nat, nat))
    ensures r.1 > 0 && r.0 == 2 * r.1 && r.0 / r.1 == 2
  {
    match b
    case Chip8Backend(_) => (Chip8.DISPLAY_BUFFER_WIDTH, Chip8.DISPLAY_BUFFER_HEIGHT)
    case SuperChipBackend(_) => (SuperChip.DISPLAY_BUFFER_WIDTH, SuperChip.DISPLAY_BUFFER_HEIGHT)
  }

  /** The pixels to show, or DisplayNotConnected (with no location) for a CHIP-8
      backend built without a display. */
  function Pixels(s: State): Result<Grid, BackendError>
  {
    match s
    case Chip8State(m) =>
      if m.display.None? then Err(BackendError(None, DisplayNotConnected)) else Ok(m.display.value.grid)
    case SuperChipState(m) => Ok(m.display.grid)
  }

  /** Whether the program ended itself with 00FD. */
  function Exited(s: State): bool
  {
    s.SuperChipState? && s.superChip.programExited
  }

  function OptionsOf(s: State): Options
  {
    match s
    case Chip8State(m) => m.options
    case SuperChipState(m) => m.inner.options
  }

  function TimersOf(s: State): Timers
  {
    match s
    case Chip8State(m) => m.timers
    case SuperChipState(m) => m.inner.timers
  }

  // ---- What the front end changes ----

  /** The selected interpreter's quirk options replaced, and nothing else. */
  function WithOptions(s: State, options: Options): (r: State)
    requires s.Valid()
    ensures r.Valid()
  {
    match s
    case Chip8State(m) => Chip8State(m.(options := options))
    case SuperChipState(m) => SuperChipState(m.(inner := m.inner.(options := options)))
  }

  /** The selected interpreter's load. */
  function LoadSpec(s: State, font: Option<seq<u8>>, program: seq<u8>): (r: (State, Result<(), BackendError>))
    requires s.Valid() && (font.Some? ==> |font.value| >= MIN_FONT_SIZE)
    ensures r.0.Valid()
  {
    match s
    case Chip8State(m) =>
      var (m', result) := Chip8.LoadSpec(m, font, program);
      (Chip8State(m'), result)
    case SuperChipState(m) =>
      var (m', result) := SuperChip.LoadSpec(m, font, program);
      (SuperChipState(m'), result)
  }

  /** The selected interpreter's tick; the flag storage only reaches the SUPER-CHIP. */
  function TickSpec(s: State, storage: seq<u8>, n: nat, keys: seq<bool>, random: nat -> u8): (r: (State, seq<u8>, Result<(), BackendError>))
    requires s.Valid() && SuperChip.IsStorage(storage) && |keys| == KEY_COUNT
    ensures r.0.Valid() && SuperChip.IsStorage(r.1)
  {
    match s
    case Chip8State(m) =>
      var (m', result) := Chip8.TickSpec(m, n, keys, random);
      (Chip8State(m'), storage, result)
    case SuperChipState(m) =>
      var (m', storage', result) := SuperChip.TickSpec(m, storage, n, keys, random);
      (SuperChipState(m'), storage', result)
  }

  /** The selected interpreter's reset, and the display cleared. */
  function ResetSpec(s: State): (r: State)
    requires s.Valid() && s.Connected()
    ensures r.Valid()
  {
    match s
    case Chip8State(m) => Chip8State(Chip8.ResetSpec(m).(display := Some(m.display.value.Cleared())))
    case SuperChipState(m) => SuperChipState(SuperChip.ResetSpec(m).(display := m.display.Cleared()))
  }

  // ---- The backend's operations ----

  /** The default backend: the CHIP-8 interpreter with its defaults. */
  method Default() returns (b: Backend)
    ensures b.Valid() && fresh(b.Repr())
    ensures b.Abs() == Chip8State(Chip8.Initial(Chip8.DEFAULT_OPTIONS, Some(DisplayOptions(wrapSprites := false))))
  {
    var c := new Chip8.Backend.Default();
    b := Chip8Backend(c);
  }

  method DisplayBuffer(b: Backend) returns (r: Result<Grid, BackendError>)
    requires b.Valid()
    ensures r == Pixels(b.Abs())
  {
    match b
    case Chip8Backend(c) =>
      if c.display == null {
        r := Err(BackendError(None, DisplayNotConnected));
      } else {
        r := Ok(c.display.buffer[..]);
      }
    case SuperChipBackend(s) =>
      r := Ok(s.display.buffer[..]);
  }

  method ProgramExited(b: Backend) returns (exited: bool)
    requires b.Valid()
    ensures exited == Exited(b.Abs())
  {
    match b
    case Chip8Backend(_) => exited := false;
    case SuperChipBackend(s) => exited := s.programExited;
  }

  method CurrentTimers(b: Backend) returns (t: Timers)
    requires b.Valid()
    ensures t == TimersOf(b.Abs())
  {
    match b
    case Chip8Backend(c) => t := c.timers;
    case SuperChipBackend(s) => t := s.inner.timers;
  }

  /** What a front end does through the options reference it is handed. */
  method SetOptions(b: Backend, options: Options)
    requires b.Valid()
    modifies b.Repr()
    ensures b.Valid() && b.Abs() == WithOptions(old(b.Abs()), options)
  {
    match b
    case Chip8Backend(c) => c.options := options;
    case SuperChipBackend(s) => s.inner.options := options;
  }

  method Load(b: Backend, font: Option<seq<u8>>, program: seq<u8>) returns (r: Result<(), BackendError>)
    requires b.Valid() && (font.Some? ==> |font.value| >= MIN_FONT_SIZE)
    modifies b.Repr()
    ensures b.Valid() && (b.Abs(), r) == LoadSpec(old(b.Abs()), font, program)
  {
    match b
    case Chip8Backend(c) => r := c.Load(font, program);
    case SuperChipBackend(s) => r := s.Load(font, program);
  }

  /** Runs one tick of at most n instructions on the selected interpreter. */
  method Tick(b: Backend, n: u8, keypad: KeypadState, random: nat -> u8, storage: array<u8>) returns (r: Result<(), BackendError>)
    requires b.Valid() && keypad.Valid() && storage.Length == SuperChip.PERSISTENT_STORAGE_SIZE && storage !in b.Repr()
    modifies b.Repr(), storage
    ensures b.Valid()
    ensures (b.Abs(), storage[..], r) == TickSpec(old(b.Abs()), old(storage[..]), n as nat, keypad.state, random)
  {
    match b
    case Chip8Backend(c) => r := c.Tick(n, keypad, random);
    case SuperChipBackend(s) => r := s.Tick(n, keypad, random, storage);
  }

  /** Resets the selected interpreter and clears its display; a CHIP-8 backend must
      have one. */
  method Reset(b: Backend)
    requires b.Valid() && b.Abs().Connected()
    modifies b.Repr()
    ensures b.Valid() && b.Abs() == ResetSpec(old(b.Abs()))
  {
    match b
    case Chip8Backend(c) =>
      c.Reset();
      c.display.Clear();
    case SuperChipBackend(s) =>
      s.Reset();
      s.display.Clear();
  }
}

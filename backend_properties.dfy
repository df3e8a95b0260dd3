/**
 * What the dispatching backend promises: each request reaches the selected
 * interpreter and has no effect beyond what that interpreter does, except that a
 * reset also blanks the display.
 */
module BackendProperties {
  import opened Types
  import opened Errors
  import opened Interfaces
  import Chip8
  import SuperChip
  import opened Backends

  /** A font holds 16 five-byte digits at least and, with the ten ten-byte
      high-resolution digits, 180 bytes at most. */
  lemma FontSizes()
    ensures MIN_FONT_SIZE == 16 * 5 == 80
    ensures MAX_FONT_SIZE == MIN_FONT_SIZE + 10 * 10 == 180
  {
  }

  /** The pixels come as `DisplayBufferSize` promises, 64x32 or 128x64, and only a
      CHIP-8 backend without a display has none. */
  lemma DisplayBufferShape(b: Backend)
    requires b.Valid()
    ensures DisplayBufferSize(b) == if b.Chip8Backend? then (64, 32) else (128, 64)
    ensures Pixels(b.Abs()).Ok? ==> Shaped(Pixels(b.Abs()).value, DisplayBufferSize(b).0, DisplayBufferSize(b).1)
    ensures Pixels(b.Abs()).Err? <==> b.Chip8Backend? && b.chip8.display == null
    ensures Pixels(b.Abs()).Err? ==> Pixels(b.Abs()).error == BackendError(None, DisplayNotConnected)
  {
  }

  /** After a reset every pixel is off, the display keeps its size, the timers are
      zero, the program has not exited, and the options are kept. */
  lemma ResetBlanks(s: State)
    requires s.Valid() && s.Connected()
    ensures var r := ResetSpec(s);
      && Pixels(r).Ok? && Pixels(s).Ok?
      && |Pixels(r).value| == |Pixels(s).value|
      && (forall y :: 0 <= y < |Pixels(r).value| ==> |Pixels(r).value[y]| == |Pixels(s).value[y]|)
      && (forall y, x :: 0 <= y < |Pixels(r).value| && 0 <= x < |Pixels(r).value[y]| ==> !Pixels(r).value[y][x])
      && !Exited(r) && TimersOf(r) == Timers(0, 0) && OptionsOf(r) == OptionsOf(s)
      && r.Chip8State? == s.Chip8State?
  {
  }

  /** A load changes memory only: the variant, the pixels, the exit flag, the
      timers and the options stay; a refused load changes nothing. */
  lemma LoadForwards(s: State, font: Option<seq<u8>>, program: seq<u8>)
    requires s.Valid() && (font.Some? ==> |font.value| >= MIN_FONT_SIZE)
    ensures var (r, result) := LoadSpec(s, font, program);
      && r.Chip8State? == s.Chip8State?
      && Pixels(r) == Pixels(s) && Exited(r) == Exited(s)
      && TimersOf(r) == TimersOf(s) && OptionsOf(r) == OptionsOf(s)
      && (result.Err? ==> r == s)
      && (result.Err? <==> |program| > Chip8.MEMORY_SIZE - Chip8.MEMORY_PADDING)
  {
  }

  /** A tick keeps the variant; a CHIP-8 backend never touches the flag storage
      and never reports an exit; before a load nothing changes. */
  lemma TickForwards(s: State, storage: seq<u8>, n: nat, keys: seq<bool>, random: nat -> u8)
    requires s.Valid() && SuperChip.IsStorage(storage) && |keys| == KEY_COUNT
    ensures var (r, storage', result) := TickSpec(s, storage, n, keys, random);
      && r.Chip8State? == s.Chip8State?
      && (s.Chip8State? ==> storage' == storage && !Exited(r))
      && (!(match s case Chip8State(m) => m.loaded case SuperChipState(m) => m.inner.loaded)
          ==> r == s && storage' == storage && result == Err(BackendError(None, ProgramNotLoaded)))
  {
  }

  /** Options written are the options read back, writing back what was read
      changes nothing, and nothing else is affected. */
  lemma OptionsRoundTrip(s: State, options: Options)
    requires s.Valid()
    ensures OptionsOf(WithOptions(s, options)) == options
    ensures WithOptions(s, OptionsOf(s)) == s
    ensures var r := WithOptions(s, options);
      Pixels(r) == Pixels(s) && Exited(r) == Exited(s) && TimersOf(r) == TimersOf(s) && r.Chip8State? == s.Chip8State?
  {
  }
}

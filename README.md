# CHIP-8 / SUPER-CHIP backend in Dafny

This project models the backend of a CHIP-8 and SUPER-CHIP interpreter written in Rust, and proves properties of the model.

The backend consists of:

- **The instruction word and its operand fields.** Modelled in `instruction.dfy`. Rust's hexadecimal formatting (`x`, `X`, `03x`, `04X`) is in `hex.dfy`.
- **The fault kinds and their display text.** `error.dfy` and `frontend_error.dfy` model these, including which faults stop emulation.
- **The devices.** `interfaces.dfy` holds the monochrome display buffer with its XOR sprite draw, and the sixteen-key keypad.
- **The CHIP-8 CPU.** `chip8.dfy` holds the fetch/execute loop of a tick, loading and resetting.
- **The SUPER-CHIP layer.** `super_chip.dfy` covers the exit instruction, the two resolutions, high-resolution glyphs, the persistent flag storage and its own draw.
- **The variant enum that dispatches to either CPU.** Modelled in `backend.dfy`.

## How the model is built

Each interpreter has two halves:

- **A value.** `Chip8.Machine` and `SuperChip.Machine` hold memory, registers, stack, timers, options, display and exit flag.
- **A class.** `Chip8.Backend` and `SuperChip.Backend` hold the same state in place: arrays for memory and registers, and a `DisplayBuffer` object.

Pure functions say what each operation does to the value:

- `Step` runs one instruction.
- `Run`/`Fetch`/`Resume`/`Proceed` are one tick's loop, unrolled round by round.
- `TickSpec`, `LoadSpec`, `ResetSpec` and `Initial` cover a whole tick, a load, a reset and a new backend.

Every method of the classes is proved to follow these functions. `Execute` agrees with `Step`. `Tick` ends in the state and result that `TickSpec` gives for the old state. The properties the source promises are then proved as lemmas about the functions, in `chip8_properties.dfy`, `super_chip_properties.dfy` and `backend_properties.dfy`.

Some things are not deterministic, or come from the host, so they are parameters:

- The random byte of CXNN. `Tick` takes a function `random: nat -> u8`, and the i-th instruction of the tick receives `random(i)`.
- The keypad state.
- The SUPER-CHIP's persistent flag storage.

Integer widths are modelled explicitly:

- `u8` and `u16` are newtypes.
- Additions wrap modulo 256, timers stop at zero, and FX1E keeps 12 bits.
- The 16-bit return address on the stack is reduced modulo 65536.
- `&`, `|` and `^` on bytes are defined bit by bit in `Types.Bitwise`.

Where the source and its description disagree, the model follows the source code:

- `BackendErrorKind::DisplayNotConnected` is used by `src/backend/chip8.rs` and `src/backend/mod.rs` but is missing from the enum in `src/backend/error.rs`. The model adds it, with its own message text.
- `DisplayBuffer` reads its width and height from constants that `src/backend/mod.rs` does not define. The model gives each buffer its own width and height: 64x32 for CHIP-8 and 128x64 for SUPER-CHIP.
- `draw` is declared to return `bool`. The SUPER-CHIP stores its result in VF as a count of colliding rows. The model returns the count; CHIP-8 uses `count > 0`.
- The options field is `wrap_sprites`; the `Default` impls spell it `clip_sprites`. The model uses `wrapSprites`, which is the opposite of clipping. Both defaults clip.
- The keypad type is called `KeyboardState` in `src/backend/interfaces.rs` and `KeypadState` at its uses. The model uses `KeypadState`.
- `Backend::tick` in `src/backend/mod.rs` calls the SUPER-CHIP `tick` without the persistent storage it takes. The model passes the storage through.
- `half_resolution`, `DisplayBuffer::get` and `DisplayBuffer::is_dirty` are used but not defined in `src/backend/interfaces.rs`. The model gives the buffer a `halfResolution` field. It reads `get` as the rows of pixels.

## Model

| member | source | states |
|---|---|---|
| Types.Bitwise | src/backend/chip8.rs:138-163 | the bitwise combination of the low n bits of two numbers is below 2^n |
| Types.AndMasks | src/backend/chip8.rs:242-245 | masking with b yields at most b, and masking twice with b is masking once |
| Types.MaskedByte | src/backend/chip8.rs:242-245 | on bytes, `v & mask` is at most mask and is unchanged by masking again |
| Types.AndZero | src/backend/chip8.rs:242-245 | masking with zero clears every bit |
| Types.LowBits | src/backend/super_chip.rs:103 | masking with 2^k - 1 keeps the remainder modulo 2^k |
| Types.SingleBit | src/backend/super_chip.rs:103 | masking with 2^k keeps exactly bit k |
| Types.NibbleMasks | src/backend/super_chip.rs:103-111 | `v & 0x0F` is the low nibble, and `v & 0x10` is zero iff bit 4 is clear |
| Hex.Digit | src/backend/error.rs:44 | each digit value below 16 maps to a hex digit character that denotes it, in the requested case |
| Hex.Format | src/backend/error.rs:47 | unpadded hexadecimal has at least one digit |
| Hex.FormatDigits | src/backend/error.rs:47 | formatting yields only digits of the requested case, with a leading '0' exactly for zero |
| Hex.ParseFormat | src/backend/error.rs:47 | parsing the formatted digits gives back the number |
| Hex.FormatLength | src/backend/instruction.rs:62 | a number below 16^k takes at most k digits |
| Hex.ParseLeadingZeros | src/backend/error.rs:44 | leading zeros do not change the value |
| Hex.Padded | src/backend/error.rs:44 | zero padding to a width: the text is at least that wide and at least as long as the unpadded digits, and every character before those digits is '0'; `PaddedValue` adds that the digits are kept and denote the number |
| Hex.PaddedValue | src/backend/error.rs:44 | zero padding reaches the width or keeps the natural length, yields digits only, and denotes the number |
| Instructions.Instruction.OperatorCode | src/backend/instruction.rs:29-32 | the operator code is below 16 |
| Instructions.Instruction.OperandN | src/backend/instruction.rs:34-37 | N is below 16 |
| Instructions.Instruction.OperandNN | src/backend/instruction.rs:39-42 | NN is the low byte of the word; `Recompose` adds NN = 16Y + N |
| Instructions.Instruction.OperandNNN | src/backend/instruction.rs:44-47 | NNN is below 4096 |
| Instructions.Instruction.OperandX | src/backend/instruction.rs:49-52 | X is below 16 |
| Instructions.Instruction.OperandY | src/backend/instruction.rs:54-57 | Y is below 16 |
| Instructions.Instruction.ToString | src/backend/instruction.rs:60-63 | the display text is exactly four upper-case hex digits that denote the word |
| Instructions.Instruction.New | src/backend/instruction.rs:24-27 | the word built from two bytes splits back into those bytes, the first being the high one; `NewFields` gives its fields |
| Instructions.Recompose | src/backend/instruction.rs:29-57 | the fields are in range, NN = 16Y + N, NNN = 256X + NN and the word = 4096·op + NNN |
| Instructions.BytesRoundTrip | src/backend/instruction.rs:24-27 | building a word from two big-endian bytes and splitting it again gives back the bytes, and the reverse holds too |
| Instructions.NewFields | src/backend/instruction.rs:24-57 | the word built from bytes hi, lo has op = hi/16, X = hi%16, Y = lo/16, N = lo%16 and NN = lo |
| Errors.Message | src/backend/error.rs:53-69 | each kind's fixed message, of a stated length per kind; `MessagesDistinct` shows no two kinds share one |
| Errors.ToString | src/backend/error.rs:39-50 | the text of every error ends with its kind's message; `LocatedText`, `AddressText` and `UnlocatedText` give the text of each of the three cases |
| Errors.MessagesDistinct | src/backend/error.rs:53-69 | two kinds have the same message iff they are the same kind |
| Errors.LocatedText | src/backend/error.rs:42-46 | with an address and an instruction, the text is "instruction ", four upper-case digits of the word, " at 0x", the address padded to at least three lower-case digits, ", " and the message |
| Errors.AddressText | src/backend/error.rs:47 | with an address only, the text is "at 0x", the unpadded lower-case address, ", " and the message |
| Errors.UnlocatedText | src/backend/error.rs:48 | without a location, the text is the message alone |
| FrontendErrors.IsFatal | src/frontend/error.rs:28-38 | every audio failure is fatal; `BackendFatal` states exactly which backend faults are |
| FrontendErrors.ToString | src/frontend/error.rs:41-48 | the text of a backend fault ends with its kind's message; `TextUnchanged` states that both kinds of error keep their own text |
| FrontendErrors.AudioFatal | src/frontend/error.rs:36 | every audio failure is fatal |
| FrontendErrors.BackendFatal | src/frontend/error.rs:28-38 | a backend fault is fatal iff it is MemoryOverflow, ProgramInvalid or ProgramNotLoaded; every other kind is one of the five run-time faults or DisplayNotConnected |
| FrontendErrors.TextUnchanged | src/frontend/error.rs:41-48 | a wrapped error is shown with its own text |
| Interfaces.Blank | src/backend/interfaces.rs:86-92 | a new buffer is width x height with every pixel off |
| Interfaces.SpriteBitOrder | src/backend/interfaces.rs:55-58 | sprite bits are read most significant first |
| Interfaces.PlaceOffset | src/backend/interfaces.rs:53-60 | the screen position of sprite offset i, reduced modulo the size, maps back to offset i |
| Interfaces.OffsetPlace | src/backend/interfaces.rs:53-60 | every screen position is the reduced position of exactly one sprite offset |
| Interfaces.Flipped | src/backend/interfaces.rs:44-83 | XORing a sprite keeps the grid's shape |
| Interfaces.CollidingRows | src/backend/interfaces.rs:50-66 | at most one collision is counted per sprite row |
| Interfaces.Screen.Cleared | src/backend/interfaces.rs:36-42 | clearing keeps the buffer well formed |
| Interfaces.Screen.Drawn | src/backend/interfaces.rs:44-83 | drawing keeps the buffer well formed |
| Interfaces.DisplayBuffer.constructor | src/backend/interfaces.rs:85-92 | a new buffer is blank and not dirty, with the given sprite-wrapping option |
| Interfaces.DisplayBuffer.Clear | src/backend/interfaces.rs:36-42 | the buffer becomes the cleared screen: all off, and dirty |
| Interfaces.DisplayBuffer.Draw | src/backend/interfaces.rs:44-83 | the buffer becomes the screen with the sprite XORed in at (x mod W, y mod H), and the result is the number of rows that turned a lit pixel off |
| Interfaces.ToggleRow | src/backend/interfaces.rs:55-73 | each pixel of a row is negated exactly when a set sprite bit covers it, and a collision is reported iff a covered pixel was lit |
| Interfaces.FlipsExactly | src/backend/interfaces.rs:52-68 | a pixel changes iff a set bit of a drawn sprite row lands on it at column ((x mod W)+k) mod W and row ((y mod H)+i) mod H |
| Interfaces.DrawTwice | src/backend/interfaces.rs:63-66 | drawing the same sprite at the same place twice restores every pixel |
| Interfaces.ClearBlank | src/backend/interfaces.rs:36-42 | after clearing, every pixel is off, the size is kept and the buffer is dirty |
| Interfaces.DrawFrame | src/backend/interfaces.rs:62-80 | drawing marks the buffer dirty, keeps its size and options, and leaves every pixel under no set bit unchanged |
| Interfaces.ClipStaysInside | src/backend/interfaces.rs:70-77 | with clipping, nothing is drawn left of x mod W or above y mod H |
| Interfaces.ClipDiscards | src/backend/interfaces.rs:70-77 | with clipping, sprite rows and bits past the bottom or right edge touch no pixel |
| Interfaces.CollisionIff | src/backend/interfaces.rs:50-66 | the collision count is positive iff some covered pixel was lit beforehand |
| Interfaces.FirstPressed | src/backend/interfaces.rs:107-111 | the result is the lowest pressed key at or after the start, and None iff no such key is pressed |
| Interfaces.KeypadState.Pressed | src/backend/interfaces.rs:102-105 | a held key means some key is reported pressed, no higher than it, and the key reported pressed is held |
| Interfaces.KeypadState.constructor | src/backend/interfaces.rs:96-100 | a new keypad has every key released |
| Interfaces.KeypadState.PressedKey | src/backend/interfaces.rs:107-111 | the lowest-numbered pressed key, and None iff none is pressed |
| Interfaces.KeypadState.Release | src/backend/interfaces.rs:113-116 | every key is released |
| Interfaces.KeypadState.Set | src/backend/interfaces.rs:118-121 | only key k changes, and it becomes the given value |
| Chip8.Overwrite | src/backend/chip8.rs:432-435 | copying src in at `at` replaces exactly those bytes and keeps the length |
| Chip8.Step | src/backend/chip8.rs:55-422 | a successful instruction leaves a well-formed machine, and every fault names the fetch address and the instruction |
| Chip8.StepKeepsDisplay | src/backend/chip8.rs:55-422 | no instruction connects or disconnects the display |
| Chip8.System | src/backend/chip8.rs:62-87 | 0NNN instructions never end the batch, and their faults name the instruction |
| Chip8.Arithmetic | src/backend/chip8.rs:132-231 | 8XYN instructions never end the batch, and their faults name the instruction |
| Chip8.DrawSprite | src/backend/chip8.rs:247-274 | a successful DXYN always ends the batch |
| Chip8.KeyState | src/backend/chip8.rs:276-311 | EX9E/EXA1 never end the batch |
| Chip8.Misc | src/backend/chip8.rs:313-411 | among FXNN, exactly FX0A ends the batch; faults name the fetch address, FX65 included |
| Chip8.Run | src/backend/chip8.rs:488-507 | the rounds of a tick keep the machine well formed; what a whole batch does is stated by `Chip8Properties.Trace`, `RunKeepsTimers` and `RunRandomWindow` |
| Chip8.TickSpec | src/backend/chip8.rs:473-510 | a tick keeps the machine well formed; its timers are stated by `Chip8Properties.TickDecrementsOnce` |
| Chip8.LoadSpec | src/backend/chip8.rs:424-439 | a load keeps the machine well formed |
| Chip8.ResetSpec | src/backend/chip8.rs:461-471 | a reset keeps the machine well formed |
| Chip8.Initial | src/backend/chip8.rs:441-459 | a new machine is well formed |
| Chip8.CopyInto | src/backend/chip8.rs:432-435 | the array becomes its old contents with src copied in at `at` |
| Chip8.Backend.constructor | src/backend/chip8.rs:441-459 | the new backend is `Initial(options, displayOptions)`, and it has a display iff display options were given |
| Chip8.Backend.Default | src/backend/chip8.rs:513-527 | the default backend has the original quirks and a clipping display |
| Chip8.Backend.Execute | src/backend/chip8.rs:55-422 | executing agrees with `Step`: the same result, and the stepped state on success or the old state on a fault |
| Chip8.Backend.ExecuteSkip | src/backend/chip8.rs:104-122 | 3XNN/4XNN/5XY0/9XY0 agree with `Step` |
| Chip8.Backend.ExecuteSystem | src/backend/chip8.rs:62-87 | 00E0/00EE/0NNN agree with `System` |
| Chip8.Backend.ExecuteArithmetic | src/backend/chip8.rs:132-231 | 8XYN agrees with `Arithmetic` |
| Chip8.Backend.ExecuteCarry | src/backend/chip8.rs:165-197 | 8XY4/8XY5/8XY7 agree with `Arithmetic` |
| Chip8.Backend.ExecuteShift | src/backend/chip8.rs:199-223 | 8XY6/8XYE agree with `Arithmetic` |
| Chip8.Backend.ExecuteDraw | src/backend/chip8.rs:247-274 | DXYN agrees with `DrawSprite` |
| Chip8.Backend.ExecuteKeyState | src/backend/chip8.rs:276-311 | EX9E/EXA1 agree with `KeyState` |
| Chip8.Backend.ExecuteMisc | src/backend/chip8.rs:313-411 | FXNN agrees with `Misc` |
| Chip8.Backend.ExecuteDecimal | src/backend/chip8.rs:352-365 | FX33 agrees with `Misc` |
| Chip8.Backend.ExecuteStore | src/backend/chip8.rs:367-384 | FX55 agrees with `Misc` |
| Chip8.Backend.ExecuteRestore | src/backend/chip8.rs:386-403 | FX65 agrees with `Misc` |
| Chip8.Backend.Load | src/backend/chip8.rs:424-439 | the new state and the result are those of `LoadSpec` |
| Chip8.Backend.Reset | src/backend/chip8.rs:461-471 | the new state is `ResetSpec` of the old |
| Chip8.Backend.FetchAndExecute | src/backend/chip8.rs:489-506 | one loop iteration completes one round of `Run` |
| Chip8.Backend.Tick | src/backend/chip8.rs:473-510 | the new state and the result are those of `TickSpec` |
| Chip8Properties.InstructionFields | src/backend/instruction.rs:29-57 | the word built from four nibbles decodes to those nibbles |
| Chip8Properties.CallOverflow | src/backend/chip8.rs:89-102 | 2NNN fails with StackOverflow iff sixteen addresses are stacked; otherwise it pushes the return address and jumps to NNN |
| Chip8Properties.ReturnUnderflow | src/backend/chip8.rs:73-83 | 00EE fails with StackUnderflow iff the stack is empty; otherwise it pops the top and jumps there |
| Chip8Properties.CallThenReturn | src/backend/chip8.rs:73-102 | a call followed by a return restores the machine exactly |
| Chip8Properties.SkipIff | src/backend/chip8.rs:104-122 | a conditional skip advances the counter by one instruction iff its comparison holds, and changes nothing else |
| Chip8Properties.AddCarry | src/backend/chip8.rs:165-171 | after 8XY4, VF is the carry, VX + VY = new VX + 256·VF, and the other registers are kept |
| Chip8Properties.SubtractBorrow | src/backend/chip8.rs:173-197 | after 8XY5/8XY7, VF = 1 iff no borrow, the difference is recomposed from VX and VF, and the other registers are kept |
| Chip8Properties.ShiftQuirk | src/backend/chip8.rs:199-223 | 8XY6/8XYE shift VY under copy-and-shift and VX otherwise; the shifted-out bit goes to VF and the value is recomposed |
| Chip8Properties.LogicResetsFlag | src/backend/chip8.rs:138-163 | 8XY1/2/3 store OR/AND/XOR in VX and zero VF iff the reset-flag quirk is on |
| Chip8Properties.AddImmediate | src/backend/chip8.rs:126-130 | 7XNN adds NN modulo 256 and leaves VF and every other register alone |
| Chip8Properties.JumpQuirk | src/backend/chip8.rs:235-240 | BNNN jumps to V0 + NNN, or to VX + NNN with the quirky-jump quirk, and changes nothing else |
| Chip8Properties.RandomMasked | src/backend/chip8.rs:242-245 | for any random byte, CXNN leaves VX with no bit outside NN, so VX is at most NN |
| Chip8Properties.DecimalDigits | src/backend/chip8.rs:352-365 | FX33 fails iff I+2 is past memory; otherwise it writes digits below 10 with 100a+10b+c = VX and touches no other byte |
| Chip8Properties.StoreRegisters | src/backend/chip8.rs:367-384 | FX55 fails iff I+X is past memory; otherwise it copies V0..VX to I.., leaves all other memory, and advances I by X+1 iff the increment-address quirk is on |
| Chip8Properties.LoadRegisters | src/backend/chip8.rs:386-403 | FX65 fails iff I+X is past memory; otherwise it loads V0..VX from I.., keeps the other registers, and advances I by X+1 iff the increment-address quirk is on |
| Chip8Properties.AddToIndex | src/backend/chip8.rs:333-337 | FX1E sets I to I + VX modulo 4096 |
| Chip8Properties.FontCharacter | src/backend/chip8.rs:339-350 | FX29 fails with UnrecognizedSprite iff VX >= 16; otherwise I = 5·VX, inside the font |
| Chip8Properties.TimerInstructions | src/backend/chip8.rs:314-331 | FX07 reads the delay timer; FX15 and FX18 set the delay and sound timers |
| Chip8Properties.TimersUntouched | src/backend/chip8.rs:55-422 | no instruction other than FX15/FX18 changes a timer |
| Chip8Properties.LowestPressed | src/backend/interfaces.rs:107-111 | the search finds the lowest-numbered pressed key |
| Chip8Properties.WaitForKey | src/backend/chip8.rs:316-327 | FX0A stores the lowest pressed key in VX, or with none pressed moves the counter back onto itself; either way the batch ends |
| Chip8Properties.KeySkip | src/backend/chip8.rs:276-303 | EX9E/EXA1 fail with UnrecognizedKey iff VX >= 16; otherwise they skip iff the key is / is not pressed |
| Chip8Properties.UnrecognizedIff | src/backend/chip8.rs:55-422 | an instruction fails with UnrecognizedInstruction iff it is not on an independently written list of known instructions |
| Chip8Properties.MachineCallIgnored | src/backend/chip8.rs:85-86 | 0NNN other than 00E0/00EE changes nothing |
| Chip8Properties.BreakIff | src/backend/chip8.rs:247-327 | a successful instruction ends the batch iff it is DXYN or FX0A |
| Chip8Properties.DrawChecks | src/backend/chip8.rs:247-274 | DXYN fails with MemoryOverflow when I+N is past memory and otherwise with DisplayNotConnected when there is no display; on success it draws the N bytes at I, and VF = 1 iff a lit pixel was turned off |
| Chip8Properties.TickNotLoaded | src/backend/chip8.rs:478-483 | a tick before a load fails with ProgramNotLoaded and changes nothing |
| Chip8Properties.TickTimersOnly | src/backend/chip8.rs:485-486 | a tick of zero instructions only counts both timers down, saturating at zero |
| Chip8Properties.TickFetchFault | src/backend/chip8.rs:489-494 | a counter too close to the end of memory fails the tick with MemoryOverflow at that address, after the timers have counted down |
| Chip8Properties.Trace | src/backend/chip8.rs:488-507 | a batch of k rounds fetches at most k instructions; it fetches one iff k > 0 and the program counter leaves room for a two-byte word, and the first is the word at the program counter (the list stops after an instruction that faults or ends the batch by definition) |
| Chip8Properties.RunKeepsTimers | src/backend/chip8.rs:488-507 | a batch that fetches neither FX15 nor FX18 ends with the timers it started with, whether it completes, breaks or faults part-way |
| Chip8Properties.TickDecrementsOnce | src/backend/chip8.rs:485-507 | for every n, and whatever round faults or breaks, a tick that fetches no FX15/FX18 leaves each timer exactly one lower, or at zero |
| Chip8Properties.RunRandomWindow | src/backend/chip8.rs:488-507 | a batch of k rounds starting at position i depends only on the random bytes for positions i..i+k-1 |
| Chip8Properties.TickRandomWindow | src/backend/chip8.rs:488-507 | a tick of n instructions depends only on the random bytes for positions 0..n-1, so at most n instructions run |
| Chip8Properties.LoadLayout | src/backend/chip8.rs:424-439 | a program over 3584 bytes is refused with no change; otherwise the font's first 80 bytes sit at 0, the program at 512, nothing else changes and the program is marked loaded |
| Chip8Properties.ResetKeeps | src/backend/chip8.rs:461-471 | reset restores counter, I, registers, stack and timers to their initial values, and keeps memory, loaded flag, options and display |
| Chip8Properties.ResetIdempotent | src/backend/chip8.rs:461-471 | resetting twice is resetting once, and a new machine is already reset |
| Chip8Properties.InitialState | src/backend/chip8.rs:441-459 | a new machine has no program, an empty stack, stopped timers, zeroed memory, the counter at 512, and a blank display iff one was asked for |
| Chip8Properties.RestoreAsWritten | src/backend/chip8.rs:386-394 | the FX65 fault as written reports the program counter, not the fetch address |
| Chip8Properties.RestoreFaultMisplaced | src/backend/chip8.rs:389-394 | FX65 at 0x200 with I = 0xFFF reports 0x202 as written and 0x200 as corrected |
| Chip8Properties.RestoreAgrees | src/backend/chip8.rs:386-403 | the corrected FX65 agrees with the written one except for the fault address |
| SuperChip.Step | src/backend/super_chip.rs:45-143 | a successful instruction leaves a well-formed machine and eight bytes of storage, and faults name the fetch address and the instruction |
| SuperChip.Delegate | src/backend/super_chip.rs:139 | delegated instructions keep the machine and storage well formed |
| SuperChip.Held | src/backend/super_chip.rs:129-130 | FX75/FX85 move between 1 and 8 registers |
| SuperChip.SpriteRows | src/backend/super_chip.rs:66-70 | a sprite has at most 32 rows |
| SuperChip.DrawSprite | src/backend/super_chip.rs:65-93 | DXYN keeps the machine well formed, and its faults name the instruction |
| SuperChip.FontCharacter | src/backend/super_chip.rs:95-112 | FX29 keeps the machine well formed, and its faults name the instruction |
| SuperChip.HiresCharacter | src/backend/super_chip.rs:114-126 | FX30 keeps the machine well formed, and its faults name the instruction |
| SuperChip.Run | src/backend/super_chip.rs:196-218 | the rounds of a tick keep the machine and storage well formed; whole batches are stated by `SuperChipProperties.RunKeepsTimers`, `RunKeepsStorage` and `RunRandomWindow` |
| SuperChip.TickSpec | src/backend/super_chip.rs:180-221 | a tick keeps the machine and storage well formed; its timers and storage are stated by `SuperChipProperties.TickDecrementsOnce` |
| SuperChip.LoadSpec | src/backend/super_chip.rs:145-158 | a load keeps the machine well formed |
| SuperChip.ResetSpec | src/backend/super_chip.rs:175-178 | a reset keeps the machine well formed |
| SuperChip.Initial | src/backend/super_chip.rs:160-169 | a new machine is well formed |
| SuperChip.Backend.constructor | src/backend/super_chip.rs:160-169 | the new backend is `Initial(options, displayOptions)` |
| SuperChip.Backend.Default | src/backend/super_chip.rs:228-240 | the default backend has the SUPER-CHIP quirks and a clipping display |
| SuperChip.Backend.Execute | src/backend/super_chip.rs:45-143 | executing agrees with `Step` on machine and storage |
| SuperChip.Backend.ExecuteInner | src/backend/super_chip.rs:139 | a delegated instruction agrees with `Step` |
| SuperChip.Backend.ExecuteDraw | src/backend/super_chip.rs:65-93 | DXYN agrees with `Step` |
| SuperChip.Backend.ExecuteCharacter | src/backend/super_chip.rs:95-126 | FX29/FX30 agree with `Step` |
| SuperChip.Backend.ExecuteFlags | src/backend/super_chip.rs:128-137 | FX75/FX85 agree with `Step` on registers and storage |
| SuperChip.Backend.Load | src/backend/super_chip.rs:145-158 | the new state and result are those of `LoadSpec` |
| SuperChip.Backend.Reset | src/backend/super_chip.rs:175-178 | the new state is `ResetSpec` of the old |
| SuperChip.Backend.FetchAndExecute | src/backend/super_chip.rs:197-217 | one loop iteration completes one round of `Run` |
| SuperChip.Backend.Tick | src/backend/super_chip.rs:180-221 | the new state, storage and result are those of `TickSpec` |
| SuperChipProperties.InitialState | src/backend/super_chip.rs:160-169 | a new machine is in half resolution with a blank, clean display, has not exited, and wraps a display-less CHIP-8 machine |
| SuperChipProperties.ResetClearsExit | src/backend/super_chip.rs:175-178 | reset clears the exit flag, resets the CHIP-8 machine and keeps the display |
| SuperChipProperties.ExitEndsBatch | src/backend/super_chip.rs:55-58 | 00FD sets the exit flag, ends the batch and changes nothing else |
| SuperChipProperties.ResolutionSwitch | src/backend/super_chip.rs:60-63 | 00FE turns half resolution on and 00FF turns it off, changing nothing else |
| SuperChipProperties.ClearScreen | src/backend/super_chip.rs:53 | 00E0 turns every pixel off and keeps the resolution |
| SuperChipProperties.DrawRows | src/backend/super_chip.rs:65-93 | DXYN draws N rows (32 for DXY0 in full resolution) and fails iff I+rows is past memory; VF is the colliding-row count in full resolution and 0/1 in half; the batch goes on |
| SuperChipProperties.FontCharacterIff | src/backend/super_chip.rs:95-112 | FX29 succeeds iff VX < 16 (I = 5·VX) or bit 4 is set with a low nibble d < 10 (I = 80 + 10·d) |
| SuperChipProperties.HiresCharacterIff | src/backend/super_chip.rs:114-126 | FX30 succeeds iff VX < 10, pointing I at a 10-byte glyph inside the 180-byte font |
| SuperChipProperties.SaveFlags | src/backend/super_chip.rs:128-132 | FX75 copies V0..V(min(X,7)) into the storage, keeps the other bytes and changes nothing else |
| SuperChipProperties.RestoreFlags | src/backend/super_chip.rs:133-137 | FX85 loads V0..V(min(X,7)) from the storage, keeps the other registers and changes nothing else |
| SuperChipProperties.SaveRestoreRoundTrip | src/backend/super_chip.rs:128-137 | FX75 then FX85 with the same X restores the machine exactly |
| SuperChipProperties.Delegation | src/backend/super_chip.rs:139 | every other instruction behaves exactly as on CHIP-8, keeping display, exit flag and storage |
| SuperChipProperties.BreakIff | src/backend/super_chip.rs:55-142 | a successful instruction ends the batch iff it is 00FD or FX0A, so DXYN does not |
| SuperChipProperties.TickNotLoaded | src/backend/super_chip.rs:186-191 | a tick before a load fails with ProgramNotLoaded and changes nothing |
| SuperChipProperties.TickFetchFault | src/backend/super_chip.rs:193-203 | a counter too close to the end of memory fails the tick with MemoryOverflow at that address, after the timers have counted down, with the storage unchanged |
| SuperChipProperties.StepKeepsTimers | src/backend/super_chip.rs:45-143 | no instruction other than FX15/FX18 changes a timer |
| SuperChipProperties.StepKeepsStorage | src/backend/super_chip.rs:45-143 | no instruction other than FX75 writes the flag storage |
| SuperChipProperties.Trace | src/backend/super_chip.rs:196-218 | a batch of k rounds fetches at most k instructions; it fetches one iff k > 0 and the program counter leaves room for a two-byte word, and the first is the word at the program counter (the list stops after an instruction that faults or ends the batch by definition) |
| SuperChipProperties.RunKeepsTimers | src/backend/super_chip.rs:196-218 | a batch that fetches neither FX15 nor FX18 ends with the timers it started with, however it ends |
| SuperChipProperties.RunKeepsStorage | src/backend/super_chip.rs:196-218 | a batch that fetches no FX75 leaves the flag storage as it was, however it ends |
| SuperChipProperties.TickDecrementsOnce | src/backend/super_chip.rs:193-218 | for every n, a tick without FX15/FX18 leaves each timer exactly one lower or at zero, and a tick without FX75 leaves the storage alone |
| SuperChipProperties.RunRandomWindow | src/backend/super_chip.rs:196-218 | a batch of k rounds starting at position i depends only on the random bytes for positions i..i+k-1 |
| SuperChipProperties.TickRandomWindow | src/backend/super_chip.rs:196-218 | a tick of n instructions depends only on the random bytes for positions 0..n-1 |
| SuperChipProperties.LoadLayout | src/backend/super_chip.rs:145-158 | the low-resolution font and the program go where CHIP-8 puts them; bytes 80..180 come from the font when it has 180 bytes, else from the bundled font; nothing else changes |
| SuperChipProperties.SaveAsWritten | src/backend/super_chip.rs:128-132 | FX75 as written succeeds iff min(X,7)+1 equals the storage length |
| SuperChipProperties.RestoreAsWritten | src/backend/super_chip.rs:133-137 | FX85 as written succeeds iff X >= 7 |
| SuperChipProperties.SaveFlagsPanics | src/backend/super_chip.rs:128-132 | F375 panics as written; the corrected version saves V0..V3 and keeps the rest of the storage |
| SuperChipProperties.RestoreFlagsPanics | src/backend/super_chip.rs:133-137 | F385 panics as written; the corrected version loads V0..V3 from the storage |
| SuperChipProperties.FlagsAgreeFromV7 | src/backend/super_chip.rs:128-137 | for X >= 7 the corrected FX75/FX85 do exactly what the written code does |
| Backends.Backend.Abs | src/backend/mod.rs:29-32 | the abstract state is of the variant the backend holds |
| Backends.WithOptions | src/backend/mod.rs:109-114 | replacing the options keeps the state well formed |
| Backends.LoadSpec | src/backend/mod.rs:102-107 | a dispatched load keeps the state well formed |
| Backends.TickSpec | src/backend/mod.rs:140-149 | a dispatched tick keeps the state well formed, with eight bytes of storage |
| Backends.ResetSpec | src/backend/mod.rs:123-138 | a dispatched reset keeps the state well formed |
| Backends.Default | src/backend/mod.rs:159-163 | the default backend is a CHIP-8 backend with its defaults |
| Backends.DisplayBufferSize | src/backend/mod.rs:61-76 | the display is twice as wide as it is high, the integer aspect ratio both variants report; the sizes themselves are in `DisplayBufferShape` |
| Backends.DisplayBuffer | src/backend/mod.rs:47-59 | the result is the pixels of the selected display, or DisplayNotConnected |
| Backends.ProgramExited | src/backend/mod.rs:116-121 | the result is the exit flag of the abstract state: false for CHIP-8 and the flag for SUPER-CHIP |
| Backends.CurrentTimers | src/backend/mod.rs:151-156 | the result is the selected interpreter's timers |
| Backends.SetOptions | src/backend/mod.rs:109-114 | the state changes to `WithOptions(old, options)` |
| Backends.Load | src/backend/mod.rs:102-107 | the new state and result are those of `LoadSpec` |
| Backends.Tick | src/backend/mod.rs:140-149 | the new state, storage and result are those of `TickSpec` |
| Backends.Reset | src/backend/mod.rs:123-138 | the new state is `ResetSpec` of the old |
| BackendProperties.FontSizes | src/backend/mod.rs:26-27 | MIN_FONT_SIZE = 16·5 = 80 and MAX_FONT_SIZE = 80 + 10·10 = 180 |
| BackendProperties.DisplayBufferShape | src/backend/mod.rs:47-76 | the size is [64, 32] for CHIP-8 and [128, 64] for SUPER-CHIP, the pixels have those dimensions, and they are missing, with DisplayNotConnected and no location, iff a CHIP-8 backend has no display |
| BackendProperties.ResetBlanks | src/backend/mod.rs:123-138 | after a reset of either variant, every pixel is off, the display keeps its size, timers are zero, there is no exit and the options are kept |
| BackendProperties.LoadForwards | src/backend/mod.rs:102-107 | a load changes neither the variant, the pixels, the exit flag, the timers nor the options; a refused load changes nothing |
| BackendProperties.TickForwards | src/backend/mod.rs:140-149 | a tick keeps the variant; a CHIP-8 backend never touches the storage and never exits; before a load nothing changes |
| BackendProperties.OptionsRoundTrip | src/backend/mod.rs:109-114 | options written are read back, writing back what was read changes nothing, and nothing else is affected |

## Left out

- Floating-point aspect ratios are not modelled: `DISPLAY_BUFFER_ASPECT_RATIO` and `display_buffer_aspect_ratio`.
- The user interface, audio output, file loading, window sizing and the font's actual byte values are not modelled. `BACKEND_FONT` is a 180-byte constant whose contents are not given.
- `display_options_mut` and `is_display_buffer_dirty` hand out a mutable reference and read a flag through methods that do not exist in the buffer's source. Only `options_mut` is modelled, as `Backends.SetOptions`.
- Randomness is not modelled: `rand::random` becomes the `random` parameter. Any byte is possible, so properties of CXNN hold for every value.
- 0NNN machine-code calls are modelled as doing nothing, as the source does.
- Half-resolution rendering is not modelled: the buffer is always 128x64, and `halfResolution` affects only DXYN's row count and VF.
- Interfaces.DisplayBuffer.Draw: requires at most `height` sprite rows and a width of at least 8. Every caller draws at most 32 rows on a screen at least 32 rows high, so no pixel is toggled twice in one draw.
- Interfaces.DisplayBuffer.Draw: returns the number of colliding rows. The source's `draw` is declared to return `bool`, while the SUPER-CHIP stores the count.
- Chip8.Backend.Load: requires a font of at least 80 bytes. The source slices `font[..80]`, which would panic on a shorter font.
- SuperChip.Backend.Load: requires a font of at least 80 bytes, for the same reason.
- SuperChip.Backend.Tick: requires the storage to be exactly 8 bytes, separate from the interpreter's memory and registers. The corrected FX75/FX85 are defined for that storage.
- Interfaces.KeypadState.Pressed: requires a key below 16. The source indexes the state vector and panics on a larger key; every backend caller rejects VX >= 16 with UnrecognizedKey first.
- Interfaces.KeypadState.Set: requires a key below 16, for the same reason: the source panics on a larger key.
- Backends.Tick: requires 8 bytes of storage for both variants. The storage only reaches the SUPER-CHIP.
- Backends.Reset: requires a CHIP-8 backend to have a display. The source panics on `expect` otherwise.
- Chip8.Backend.Tick: `n` is a `u8`, as in the source. The random source is a function of the instruction's position in the tick, not a stateful generator.
- The stack holds the program counter truncated to 16 bits. `CallThenReturn` is stated for counters below 65536, and every counter reachable from a loaded program is below that.

## Findings

| source | as written | input that shows it | evidently intended | confidence | as-written member | corrected member |
|---|---|---|---|---|---|---|
| src/backend/chip8.rs:391 | FX65's MemoryOverflow reports `self.index`, the program counter, which already points past the instruction | FX65 at 0x200 with I = 0xFFF: the fault says 0x202 | report the instruction's own address `index`, as every other fault does | not executed | Chip8Properties.RestoreFaultMisplaced | Chip8Properties.RestoreAgrees |
| src/backend/super_chip.rs:128-131 | FX75 copies V0..V(min(X,7)) with `copy_from_slice` into the whole 8-byte storage, which panics unless both lengths match | F375 (X = 3, four registers into eight bytes) | copy the min(X,7)+1 registers into the start of the storage | not executed | SuperChipProperties.SaveFlagsPanics | SuperChipProperties.SaveFlags |
| src/backend/super_chip.rs:133-136 | FX85 overwrites V0..V(min(X,7)) with all 8 storage bytes, which panics unless X >= 7 | F385 (X = 3, eight bytes into four registers) | load the min(X,7)+1 registers from the start of the storage | not executed | SuperChipProperties.RestoreFlagsPanics | SuperChipProperties.RestoreFlags |

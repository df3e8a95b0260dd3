/**
 * The faults a backend reports, and the text each one is displayed as.
 */
module Errors {
  import opened Types
  import opened Instructions
  import Hex

  datatype BackendErrorKind =
    | DisplayNotConnected
    | MemoryOverflow
    | ProgramInvalid
    | ProgramNotLoaded
    | StackOverflow
    | StackUnderflow
    | UnrecognizedInstruction
    | UnrecognizedKey
    | UnrecognizedSprite

  /** A fault, located (when it happened while running) at an address and, when
      an instruction had been fetched there, that instruction. */
  datatype BackendError = BackendError(instruction: Option<(nat, Option<Instruction>)>, kind: BackendErrorKind)

  /** The fixed sentence that describes each kind of fault. */
  function Message(kind: BackendErrorKind): (m: string)
    ensures |m| == MessageLength(kind)
  {
    match kind
    case DisplayNotConnected => "attempt to use a display that is not connected"
    case MemoryOverflow => "attempt to access invalid memory address"
    case ProgramInvalid => "attempt to load invalid program"
    case ProgramNotLoaded => "attempt to run without loading any program"
    case StackOverflow => "attempt to call a coroutine when the stack is full"
    case StackUnderflow => "attempt to return when the stack is empty"
    case UnrecognizedInstruction => "unrecognized instruction"
    case UnrecognizedKey => "attempt to access the state of an unrecognized key"
    case UnrecognizedSprite => "attempt to load unrecognized sprite"
  }

  /** The displayed text of a fault; its shape follows what is known of the location. */
  /** The text always ends with the kind's message. */
  function ToString(e: BackendError): (s: string)
    ensures |s| >= |Message(e.kind)| && s[|s| - |Message(e.kind)|..] == Message(e.kind)
  {
    match e.instruction
    case Some((index, Some(ins))) =>
      "instruction " + ins.ToString() + " at 0x" + Hex.Padded(index, 3, false) + ", " + Message(e.kind)
    case Some((index, None)) =>
      "at 0x" + Hex.Format(index, false) + ", " + Message(e.kind)
    case None =>
      Message(e.kind)
  }

  /** The length of each message: all differ but those of StackOverflow and
      UnrecognizedKey. */
  function MessageLength(kind: BackendErrorKind): nat
  {
    match kind
    case DisplayNotConnected => 46
    case MemoryOverflow => 40
    case ProgramInvalid => 31
    case ProgramNotLoaded => 42
    case StackOverflow => 50
    case StackUnderflow => 41
    case UnrecognizedInstruction => 24
    case UnrecognizedKey => 50
    case UnrecognizedSprite => 35
  }

  /** No two kinds share a message, so the message identifies the kind. */
  lemma MessagesDistinct(k1: BackendErrorKind, k2: BackendErrorKind)
    ensures Message(k1) == Message(k2) <==> k1 == k2
  {
    // Only the two 50-character messages need a closer look: their twelfth
    // characters differ.
    if Message(k1) == Message(k2) {
      if MessageLength(k1) == 50 {
        assert Message(k1)[11] == Message(k2)[11];
      }
    }
  }

  /** With an address and an instruction: the instruction as four upper-case digits,
      then the address as lower-case digits padded to at least three, then the message. */
  lemma LocatedText(index: nat, ins: Instruction, kind: BackendErrorKind)
    ensures var s := ToString(BackendError(Some((index, Some(ins))), kind));
      var d := Hex.Padded(index, 3, false);
      && s == "instruction " + ins.ToString() + " at 0x" + d + ", " + Message(kind)
      && |ins.ToString()| == 4 && Hex.Parse(ins.ToString()) == ins.value as nat
      && |d| >= 3 && Hex.AllDigits(d, false) && Hex.Parse(d) == index
      && s[|s| - |Message(kind)|..] == Message(kind)
  {
    Hex.PaddedValue(index, 3, false);
  }

  /** With an address and no instruction: the address as unpadded lower-case digits,
      then the message. */
  lemma AddressText(index: nat, kind: BackendErrorKind)
    ensures var s := ToString(BackendError(Some((index, None)), kind));
      var d := Hex.Format(index, false);
      && s == "at 0x" + d + ", " + Message(kind)
      && Hex.AllDigits(d, false) && Hex.Parse(d) == index
      && (d[0] == '0' <==> index == 0)
  {
    Hex.FormatDigits(index, false);
    Hex.ParseFormat(index, false);
  }

  /** Without a location the text is the kind's message alone. */
  lemma UnlocatedText(kind: BackendErrorKind)
    ensures ToString(BackendError(None, kind)) == Message(kind)
  {
  }
}

/**
 * The errors the front end surfaces while it drives a backend, and which of them
 * stop emulation.
 */
module FrontendErrors {
  import opened Types
  import opened Errors

  /** An audio-device failure (its text comes from the audio library) or a backend fault. */
  datatype FrontendError = Audio(message: string) | Backend(error: BackendError)

  /** A fatal error stops emulation; any other is printed and emulation goes on. */
  predicate IsFatal(e: FrontendError): (fatal: bool)
    ensures e.Audio? ==> fatal
  {
    match e
    case Backend(error) => error.kind in {MemoryOverflow, ProgramInvalid, ProgramNotLoaded}
    case _ => true
  }

  function ToString(e: FrontendError): (s: string)
    ensures e.Backend? ==> |s| >= |Message(e.error.kind)| && s[|s| - |Message(e.error.kind)|..] == Message(e.error.kind)
  {
    match e
    case Audio(message) => message
    case Backend(error) => Errors.ToString(error)
  }

  /** Every audio failure is fatal. */
  lemma AudioFatal(message: string)
    ensures IsFatal(Audio(message))
  {
  }

  /** A backend fault is fatal exactly when it is a bad memory access or a load-time
      problem; faults of the running program (stack, unknown instruction, key or
      sprite, missing display) leave emulation running. */
  lemma BackendFatal(e: BackendError)
    ensures IsFatal(Backend(e)) <==> e.kind == MemoryOverflow || e.kind == ProgramInvalid || e.kind == ProgramNotLoaded
    ensures e.kind in {StackOverflow, StackUnderflow, UnrecognizedInstruction, UnrecognizedKey, UnrecognizedSprite, DisplayNotConnected}
      ==> !IsFatal(Backend(e))
  {
  }

  /** The text of a wrapped error is shown unchanged. */
  lemma TextUnchanged(e: FrontendError)
    ensures e.Backend? ==> ToString(e) == Errors.ToString(e.error)
    ensures e.Audio? ==> ToString(e) == e.message
  {
  }
}

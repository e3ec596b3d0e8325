/** The process-wide shutdown flag. Long-running operations poll it at fixed
    checkpoints and abandon their work with a recognisable error once it is set. */
module ShutdownManager {
  import opened Wrappers
  import Js

  /** The error thrown at a checkpoint after shutdown has begun. */
  const CancelledMessage: string := "Operation cancelled - shutting down"

  /** The marker by which callers recognise a cancellation. */
  const Marker: string := "shutting down"

  /** Callers recognise a cancellation by this substring. */
  lemma CancelledMessageHasMarker()
    ensures Js.Contains(CancelledMessage, Marker)
  {
    assert CancelledMessage[22..22 + |Marker|] == Marker;
    Js.ContainsAt(CancelledMessage, Marker, 22);
  }

  /** The source keeps the flag in a static field; one instance stands for it here. */
  class Manager {
    var shutting: bool

    constructor ()
      ensures !shutting
    {
      shutting := false;
    }

    method SetShutdown(value: bool)
      modifies this
      ensures shutting == value
    {
      shutting := value;
    }

    method IsShuttingDown() returns (r: bool)
      ensures r == shutting
    {
      r := shutting;
    }

    /** Throws once shutdown has begun; the state is never changed. */
    method CheckShutdown() returns (r: Outcome)
      ensures r.Pass? <==> !shutting
      ensures r.Fail? ==> r.msg == CancelledMessage
    {
      if shutting {
        r := Fail(CancelledMessage);
      } else {
        r := Pass;
      }
    }
  }
}

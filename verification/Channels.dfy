/** `Channel`: one dispatch pass over the bits that `poll` returned, and the window in which the channel
    must not be destroyed. */
module Channels {
  // The bits of `poll.h` that the dispatcher looks at.
  const POLLIN: bv16 := 0x0001
  const POLLPRI: bv16 := 0x0002
  const POLLOUT: bv16 := 0x0004
  const POLLERR: bv16 := 0x0008
  const POLLHUP: bv16 := 0x0010
  const POLLNVAL: bv16 := 0x0020
  const POLLRDHUP: bv16 := 0x2000

  /** The bits that `poll` never reports to this program: it asks for POLLIN, POLLPRI and POLLOUT at most, and
      only POLLERR, POLLHUP and POLLNVAL come unasked. */
  const UNREPORTED: bv16 := 0xFFC0

  /** What `poll` can return for a channel that it lists as ready. */
  predicate Reportable(revents: bv16) {
    revents != 0 && revents & UNREPORTED == 0
  }

  /** The places of one pass over `handelEvent`: its four callback tests in source order, then the end. */
  datatype Stage = OnError | OnClose | OnRead | OnWrite | OnEnd {
    function Next(): Stage
      requires !OnEnd?
    {
      match this
      case OnError => OnClose
      case OnClose => OnRead
      case OnRead => OnWrite
      case OnWrite => OnEnd
    }
  }

  predicate Has(revents: bv16, bits: bv16) {
    revents & bits != 0
  }

  /** The test that guards the callback of a stage. */
  predicate Fires(revents: bv16, stage: Stage) {
    match stage
    case OnError => Has(revents, POLLERR | POLLNVAL)
    case OnClose => Has(revents, POLLHUP) && !Has(revents, POLLIN)
    case OnRead => Has(revents, POLLIN | POLLPRI | POLLRDHUP)
    case OnWrite => Has(revents, POLLOUT)
    case OnEnd => false
  }

  /** What each test asks for, bit by bit. */
  lemma FiresIff(revents: bv16)
    ensures Fires(revents, OnError) <==> revents & POLLERR != 0 || revents & POLLNVAL != 0
    ensures Fires(revents, OnClose) <==> revents & POLLHUP != 0 && revents & POLLIN == 0
    ensures Fires(revents, OnRead) <==>
            revents & POLLIN != 0 || revents & POLLPRI != 0 || revents & POLLRDHUP != 0
    ensures Fires(revents, OnWrite) <==> revents & POLLOUT != 0
    ensures !Fires(revents, OnEnd)
  {}

  /** The bits are those of `poll.h`, all different. */
  lemma BitsDiffer()
    ensures var bits := [POLLIN, POLLPRI, POLLOUT, POLLERR, POLLHUP, POLLNVAL, POLLRDHUP];
            && (forall i | 0 <= i < |bits| :: bits[i] != 0)
            && (forall i, j | 0 <= i < j < |bits| :: bits[i] & bits[j] == 0)
  {}

  /** `poll` can report exactly the non-zero combinations of the six bits that are asked for or come unasked. */
  lemma ReportableIff(revents: bv16)
    ensures Reportable(revents) <==>
            && revents != 0
            && revents & (POLLIN | POLLPRI | POLLOUT | POLLERR | POLLHUP | POLLNVAL) == revents
  {}

  function B(b: bool): nat {
    if b then 1 else 0
  }

  function Rank(stage: Stage): (r: nat)
    ensures r < 5
  {
    match stage case OnError => 0 case OnClose => 1 case OnRead => 2 case OnWrite => 3 case OnEnd => 4
  }

  /** How often one pass closes a connection: once through the close callback, and once more when the
      read callback runs and `read` reports end of file (`TcpConnection::handleRead`). */
  function ClosesInPass(revents: bv16, read: int): nat {
    B(Fires(revents, OnClose)) + B(Fires(revents, OnRead) && read == 0)
  }

  /** A hang-up without input that still triggers the read callback. */
  predicate HangUpWithRead(revents: bv16) {
    && Has(revents, POLLHUP) && !Has(revents, POLLIN)
    && (Has(revents, POLLPRI) || Has(revents, POLLRDHUP))
  }

  /** A pass closes twice exactly on a hang-up without input whose read callback finds end of file; it
      closes at all exactly on such a hang-up or when a read callback finds end of file. */
  lemma PassClosesTwiceIff(revents: bv16, read: int)
    ensures ClosesInPass(revents, read) == 2 <==> HangUpWithRead(revents) && read == 0
    ensures ClosesInPass(revents, read) == 0 <==>
            !Fires(revents, OnClose) && (read != 0 || !Fires(revents, OnRead))
  {
    ReadBits(revents);
  }

  lemma ReadBits(revents: bv16)
    ensures Has(revents, POLLIN | POLLPRI | POLLRDHUP) <==>
            Has(revents, POLLIN) || Has(revents, POLLPRI) || Has(revents, POLLRDHUP)
  {}

  /** Of the values that `poll` can report, exactly POLLHUP with POLLPRI and without POLLIN does so: POLLRDHUP is
      never asked for. */
  lemma ReportedHangUp(revents: bv16)
    requires Reportable(revents)
    ensures HangUpWithRead(revents) <==> Has(revents, POLLHUP) && Has(revents, POLLPRI) && !Has(revents, POLLIN)
  {
    assert revents & 0xFFC0 == 0 ==> revents & 0x2000 == 0;
  }

  /** The dispatcher alone does not close at most once: POLLHUP with POLLPRI and nothing left to read. */
  lemma PassCanCloseTwice()
    ensures Reportable(POLLHUP | POLLPRI) && ClosesInPass(POLLHUP | POLLPRI, 0) == 2
  {
    PassClosesTwiceIff(POLLHUP | POLLPRI, 0);
    assert (0x0012 as bv16) & 0x0010 != 0 && (0x0012 as bv16) & 0x0001 == 0 && (0x0012 as bv16) & 0x0002 != 0;
  }

  /** A callback as the channel's owner sees it: which one, and the value of `eventHandling_` meanwhile. */
  datatype Callback = Callback(stage: Stage, eventHandling: bool)

  class Channel {
    const fd: nat
    var events: bv16       // what the owner wants to be polled
    var revents: bv16      // what poll reported last
    var index: int         // the poller's index, negative before registration
    var eventHandling: bool
    var installed: set<Stage>
    /** The callbacks made so far. */
    var calls: seq<Callback>

    constructor (fd: nat)
      ensures this.fd == fd && events == 0 && index == -1 && !eventHandling && calls == [] && installed == {}
    {
      this.fd := fd;
      events, revents, index := 0, 0, -1;
      eventHandling := false;
      installed := {};
      calls := [];
    }

    /** One test of `handelEvent`: the bits decide, then whether a callback is installed. The callback is opaque: it
        may change what is polled, and with it the poller's index, as `disableAll` does in a close callback. */
    method Dispatch(stage: Stage)
      modifies this`calls, this`events, this`index
      ensures calls == old(calls) +
                       if stage in installed && Fires(revents, stage) then [Callback(stage, eventHandling)] else []
      ensures calls == old(calls) ==> events == old(events) && index == old(index)
    {
      if Fires(revents, stage) {
        if stage in installed {
          calls := calls + [Callback(stage, eventHandling)];
          events, index := *, *;
        }
      }
    }

    /** One pass, bit by bit: the error callback for POLLERR or POLLNVAL, the close callback for POLLHUP without POLLIN,
        the read callback for POLLIN, POLLPRI or POLLRDHUP, the write callback for POLLOUT; each if it is installed,
        once, in this order, and while `eventHandling_` is set; the flag is clear again at the end. Whatever a
        callback does to the channel, a later test still goes by the bits that `poll` returned. */
    method HandelEvent()
      modifies this`eventHandling, this`calls, this`events, this`index
      ensures !eventHandling
      ensures calls ==
              old(calls)
              + (if OnError in installed && (revents & POLLERR != 0 || revents & POLLNVAL != 0)
                 then [Callback(OnError, true)] else [])
              + (if OnClose in installed && revents & POLLHUP != 0 && revents & POLLIN == 0
                 then [Callback(OnClose, true)] else [])
              + (if OnRead in installed
                    && (revents & POLLIN != 0 || revents & POLLPRI != 0 || revents & POLLRDHUP != 0)
                 then [Callback(OnRead, true)] else [])
              + (if OnWrite in installed && revents & POLLOUT != 0 then [Callback(OnWrite, true)] else [])
    {
      FiresIff(revents);
      eventHandling := true;
      Dispatch(OnError);
      Dispatch(OnClose);
      Dispatch(OnRead);
      Dispatch(OnWrite);
      eventHandling := false;
    }
  }
}

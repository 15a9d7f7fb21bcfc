/** A concrete run in which `assert(n == 1)` fails: a server with a single loop, and one client that hangs up. */
module DoubleClose {
  import opened Names
  import opened Options
  import opened Channels
  import opened Protocol
  import opened Safety

  const HANG_UP: bv16 := 0x0012  // POLLHUP | POLLPRI

  lemma HangUpBits()
    ensures Reportable(HANG_UP) && HangUpWithRead(HANG_UP)
    ensures !Fires(HANG_UP, OnError) && Fires(HANG_UP, OnClose) && Fires(HANG_UP, OnRead)
  {
    assert (0x0012 as bv16) & 0x0028 == 0 && (0x0012 as bv16) & 0x0010 != 0 && (0x0012 as bv16) & 0x0001 == 0;
    assert (0x0012 as bv16) & 0x2003 != 0 && (0x0012 as bv16) & 0x0002 != 0 && (0x0012 as bv16) & 0xFFC0 == 0;
  }

  /** A state of the single loop that the run goes through. */
  function At(name: string, activity: Activity, pending: seq<Functor>, conns: seq<Conn>, connections: map<string, nat>,
              erasing: Option<nat>): System
  {
    System(name, |conns| + 1, 0, [Loop(pending, [], [], activity)], conns, connections, erasing, None)
  }

  function Client(name: string, watched: bool, handling: bool, trace: seq<LifeEvent>): Conn {
    Conn(ConnName(name, 1), 5, 0, Connected, true, watched, handling, trace)
  }

  /** The client's channel is about to be tested by `handelEvent`. */
  function Dispatched(name: string): System {
    At(name, Handling(0, HANG_UP, OnError, []), [], [Client(name, true, true, [Create] + [Establish])],
       map[][ConnName(name, 1) := 0], None)
  }

  lemma Prepend(s: System, e: Event, rest: seq<Event>)
    requires Enabled(s, e) && IsRun(Next(s, e), rest)
    ensures IsRun(s, [e] + rest) && After(s, [e] + rest) == After(Next(s, e), rest)
    ensures RunClosesAgain(Next(s, e), rest) ==> RunClosesAgain(s, [e] + rest)
  {
    assert ([e] + rest)[1..] == rest;
  }

  lemma Accepted(name: string)
    ensures var s := At(name, Dispatching([AcceptSource]), [], [], map[], None);
            && CanAccept(s, 0, 5)
            && DoAccept(s, 0, 5, false) ==
               At(name, Dispatching([]), [], [Client(name, true, false, [Create] + [Establish])],
                  map[][ConnName(name, 1) := 0], None)
  {
    var s := At(name, Dispatching([AcceptSource]), [], [], map[], None);
    var client := Client(name, true, false, [Create] + [Establish]);
    var accepted := Conn(ConnName(name, 1), 5, 0, Connecting, false, false, false, [Create]);
    var s1 := SetActivity(s, 0, Dispatching([AcceptSource][1..]));
    assert [AcceptSource][1..] == [];
    assert s1 == At(name, Dispatching([]), [], [], map[], None);
    var s2 := s1.(nextConnId := 2, conns := [accepted], connections := map[][ConnName(name, 1) := 0]);
    assert [] + [accepted] == [accepted] && [accepted][0 := client] == [client];
    assert NewConnection(s1, 5, false) == Established(s2, 0, 0, false);
  }

  /** The client is connected, and its loop waits in poll. */
  function Idle(name: string): System {
    At(name, Polling, [], [Client(name, true, false, [Create] + [Establish])], map[][ConnName(name, 1) := 0], None)
  }

  lemma ClientArrives(name: string, rest: seq<Event>) returns (es: seq<Event>)
    requires IsRun(Idle(name), rest)
    ensures IsRun(Init(name, 0), es) && After(Init(name, 0), es) == After(Idle(name), rest)
    ensures RunClosesAgain(Idle(name), rest) ==> RunClosesAgain(Init(name, 0), es)
  {
    var s0 := At(name, Polling, [], [], map[], None);
    var s1 := At(name, Dispatching([AcceptSource]), [], [], map[], None);
    var idle, entry := Client(name, true, false, [Create] + [Establish]), map[][ConnName(name, 1) := 0];
    var s2 := At(name, Dispatching([]), [], [idle], entry, None);
    var s3 := At(name, Calling, [], [idle], entry, None);
    assert Init(name, 0) == s0;
    assert Next(s0, Poll(0, [AcceptSource])) == s1;
    Accepted(name);
    assert Next(s2, Swap(0)) == s3;
    assert Next(s3, Release(0)) == Idle(name);
    Prepend(s3, Release(0), rest);
    es := [Release(0)] + rest;
    Prepend(s2, Swap(0), es);
    es := [Swap(0)] + es;
    Prepend(s1, Accept(0, 5, false), es);
    es := [Accept(0, 5, false)] + es;
    Prepend(s0, Poll(0, [AcceptSource]), es);
    es := [Poll(0, [AcceptSource])] + es;
  }

  /** Poll reports POLLHUP and POLLPRI, and the client's channel is dispatched. */
  lemma HangUpArrives(name: string, rest: seq<Event>) returns (es: seq<Event>)
    requires IsRun(Dispatched(name), rest)
    ensures IsRun(Idle(name), es) && After(Idle(name), es) == After(Dispatched(name), rest)
    ensures RunClosesAgain(Dispatched(name), rest) ==> RunClosesAgain(Idle(name), es)
  {
    HangUpBits();
    var idle, entry := Client(name, true, false, [Create] + [Establish]), map[][ConnName(name, 1) := 0];
    var s4, s5 := Idle(name), At(name, Dispatching([ConnSource(0)]), [], [idle], entry, None);
    assert Next(s4, Poll(0, [ConnSource(0)])) == s5;
    assert [idle][0 := idle.(handling := true)] == Dispatched(name).conns && [ConnSource(0)][1..] == [];
    assert Next(s5, Begin(0, HANG_UP)) == Dispatched(name);
    Prepend(s5, Begin(0, HANG_UP), rest);
    es := [Begin(0, HANG_UP)] + rest;
    Prepend(s4, Poll(0, [ConnSource(0)]), es);
    es := [Poll(0, [ConnSource(0)])] + es;
  }

  /** The close callback erases the connection; the read callback of the same pass finds end of file and closes
      it again. */
  lemma PassClosesTwice(name: string) returns (es: seq<Event>)
    ensures IsRun(Dispatched(name), es) && RunClosesAgain(Dispatched(name), es)
    ensures After(Dispatched(name), es).failure == Some(EraseMissing)
  {
    HangUpBits();
    var n, entry := ConnName(name, 1), map[][ConnName(name, 1) := 0];
    var s0 := Dispatched(name);
    var s1 := At(name, Handling(0, HANG_UP, OnClose, []), [], s0.conns, entry, None);
    var closed := Client(name, false, true, [Create] + [Establish] + [Close] + [Erase]);
    var s2 := At(name, Handling(0, HANG_UP, OnRead, []), [], [closed], entry - {n}, Some(0));
    var s3 := At(name, Handling(0, HANG_UP, OnRead, []), [ConnectDestroyed(0)], [closed], entry - {n}, None);
    var test := Test(0, 0, false);
    assert Next(s0, test) == s1;
    assert Next(s1, test) == s2;
    assert [] + [ConnectDestroyed(0)] == [ConnectDestroyed(0)];
    assert Next(s2, PostDestroy) == s3;
    assert ClosesAgain(s3, test) && Next(s3, test).failure == Some(EraseMissing);
    es := [test];
    Prepend(s3, test, []);
    assert [test] + [] == [test];
    Prepend(s2, PostDestroy, es);
    es := [PostDestroy] + es;
    Prepend(s1, test, es);
    es := [test] + es;
    Prepend(s0, test, es);
    es := [test] + es;
  }

  /** The program as written can fail the assertion in `removeConnectionInLoop`, whatever the server is called. */
  lemma EraseAssertionCanFail(name: string) returns (es: seq<Event>)
    ensures IsRun(Init(name, 0), es) && RunClosesAgain(Init(name, 0), es)
    ensures After(Init(name, 0), es).failure == Some(EraseMissing)
  {
    var pass := PassClosesTwice(name);
    var hangUp := HangUpArrives(name, pass);
    es := ClientArrives(name, hangUp);
  }
}

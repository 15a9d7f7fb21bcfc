/** What a connection does to its channel and the poller, and why `Protocol` may reduce that to two flags:
    `registered`, the poller knows the channel, and `watched`, `poll` looks at it. */
module Registrations {
  import opened Channels
  import opened Pollers
  import opened Protocol

  const READ_EVENT: bv16 := 0x0003    // kReadEvent, POLLIN | POLLPRI
  const WRITE_EVENT: bv16 := 0x0004   // KwriteEvent, POLLOUT

  /** The two flags of `k` say how things stand with the channel; a watched one is watched for reading. */
  ghost predicate Reflects(poller: Poller, channel: Channel, k: Conn)
    requires poller.Valid()
    reads poller, poller.channels.Values, channel
  {
    && poller.Fits(channel)
    && (k.registered <==> channel.fd in poller.channels)
    && (k.watched <==> Polled(poller.Entries(), channel.fd))
    && (k.watched ==> channel.events & READ_EVENT == READ_EVENT)
  }

  /** `update` after `events_` has been set. */
  method SetEvents(poller: Poller, channel: Channel, events: bv16)
    requires poller.Valid() && poller.Fits(channel)
    modifies poller, channel`events, channel`index
    ensures poller.Valid() && poller.Fits(channel) && channel.events == events
    ensures poller.channels == old(poller.channels)[channel.fd := channel]
    ensures poller.Entries() ==
            old(poller.Entries())[channel.fd := Updated(old(poller.Entries()), channel.fd, events)]
    ensures poller.channels - {channel.fd} == old(poller.channels) - {channel.fd}
    ensures poller.Entries() - {channel.fd} == old(poller.Entries()) - {channel.fd}
  {
    channel.events := events;
    poller.UpdateChannel(channel);
  }

  /** `enableReading` as `connectEstablished` and `listen` call it, on a channel that is new to the poller. */
  method EnableReading(poller: Poller, channel: Channel, ghost k: Conn)
    requires poller.Valid() && Reflects(poller, channel, k) && !k.registered
    modifies poller, channel`events, channel`index
    ensures poller.Valid() && Reflects(poller, channel, k.(registered := true, watched := true))
    ensures channel.fd in poller.channels && poller.channels[channel.fd] == channel
    ensures poller.Entries()[channel.fd] == PollFd(channel.fd, channel.events, 0)
    ensures channel.events == old(channel.events) | POLLIN | POLLPRI
    ensures channel.events & POLLIN != 0 && channel.events & POLLPRI != 0
    ensures poller.channels - {channel.fd} == old(poller.channels) - {channel.fd}
    ensures poller.Entries() - {channel.fd} == old(poller.Entries()) - {channel.fd}
  {
    ReadBits(channel.events);
    SetEvents(poller, channel, channel.events | READ_EVENT);
  }

  lemma ReadBits(before: bv16)
    ensures (before | READ_EVENT) & READ_EVENT == READ_EVENT && before | READ_EVENT != 0
    ensures before | READ_EVENT == before | POLLIN | POLLPRI
    ensures (before | READ_EVENT) & POLLIN != 0 && (before | READ_EVENT) & POLLPRI != 0
  {}

  /** `events_ |= KwriteEvent`. */
  method WithWriting(before: bv16) returns (after: bv16)
    ensures after == before | POLLOUT && after != 0 && after & POLLOUT != 0
    ensures before & READ_EVENT == READ_EVENT ==> after & READ_EVENT == READ_EVENT
  {
    after := before | WRITE_EVENT;
  }

  /** `events_ &= ~KwriteEvent`. */
  method WithoutWriting(before: bv16) returns (after: bv16)
    ensures after == before & !POLLOUT && after & POLLOUT == 0
    ensures before & READ_EVENT == READ_EVENT ==> after & READ_EVENT == READ_EVENT && after != 0
  {
    after := before & !WRITE_EVENT;
  }

  /** The two change no other bit. */
  lemma OtherBitsKept(before: bv16)
    ensures (before | POLLOUT) & !POLLOUT == before & !POLLOUT
    ensures (before & !POLLOUT) & !POLLOUT == before & !POLLOUT
  {}

  /** An update of a channel that the poller knows. A watched one that is still read stays watched, and one that is
      not watched is not watched again, whatever it waits for. */
  method Refresh(poller: Poller, channel: Channel, events: bv16, ghost k: Conn)
    requires poller.Valid() && Reflects(poller, channel, k) && k.registered
    requires k.watched ==> events != 0 && events & READ_EVENT == READ_EVENT
    modifies poller, channel`events, channel`index
    ensures poller.Valid() && Reflects(poller, channel, k) && channel.events == events
    ensures poller.channels == old(poller.channels)
    ensures poller.Entries()[channel.fd].events == events && poller.Entries()[channel.fd].revents == 0
    ensures poller.Entries()[channel.fd].fd ==
            if events == 0 then Muted(channel.fd) else old(poller.Entries()[channel.fd].fd)
    ensures poller.Entries() - {channel.fd} == old(poller.Entries()) - {channel.fd}
  {
    assert poller.channels[channel.fd := channel] == poller.channels;
    SetEvents(poller, channel, events);
  }

  /** `enableWriting` in `sendInLoop`: a watched channel stays watched, and a channel that has been closed is not
      watched again, although it gets an event to wait for. */
  method EnableWriting(poller: Poller, channel: Channel, ghost k: Conn)
    requires poller.Valid() && Reflects(poller, channel, k) && k.registered
    modifies poller, channel`events, channel`index
    ensures poller.Valid() && Reflects(poller, channel, k)
    ensures poller.channels == old(poller.channels)
    ensures channel.events == old(channel.events) | POLLOUT && channel.events & POLLOUT != 0
    ensures poller.Entries()[channel.fd] == PollFd(old(poller.Entries()[channel.fd].fd), channel.events, 0)
    ensures poller.channels - {channel.fd} == old(poller.channels) - {channel.fd}
    ensures poller.Entries() - {channel.fd} == old(poller.Entries()) - {channel.fd}
  {
    var events := WithWriting(channel.events);
    Refresh(poller, channel, events, k);
  }

  /** `disableWriting` in `handleWrite`: the two flags stay as they are. */
  method DisableWriting(poller: Poller, channel: Channel, ghost k: Conn)
    requires poller.Valid() && Reflects(poller, channel, k) && k.registered
    modifies poller, channel`events, channel`index
    ensures poller.Valid() && Reflects(poller, channel, k)
    ensures poller.channels == old(poller.channels)
    ensures channel.events == old(channel.events) & !POLLOUT && channel.events & POLLOUT == 0
    ensures poller.Entries()[channel.fd].events == channel.events && poller.Entries()[channel.fd].revents == 0
    ensures poller.Entries()[channel.fd].fd ==
            if channel.events == 0 then Muted(channel.fd) else old(poller.Entries()[channel.fd].fd)
    ensures poller.channels - {channel.fd} == old(poller.channels) - {channel.fd}
    ensures poller.Entries() - {channel.fd} == old(poller.Entries()) - {channel.fd}
  {
    var events := WithoutWriting(channel.events);
    Refresh(poller, channel, events, k);
  }

  /** `disableAll` in `handleClose`: the poller still knows the channel but does not look at it. */
  method DisableAll(poller: Poller, channel: Channel, ghost k: Conn)
    requires poller.Valid() && Reflects(poller, channel, k) && k.registered
    modifies poller, channel`events, channel`index
    ensures poller.Valid() && Reflects(poller, channel, k.(watched := false))
    ensures poller.channels - {channel.fd} == old(poller.channels) - {channel.fd}
    ensures poller.Entries() - {channel.fd} == old(poller.Entries()) - {channel.fd}
    ensures poller.channels == old(poller.channels)
    ensures channel.events == 0 && poller.Entries()[channel.fd] == PollFd(Muted(channel.fd), 0, 0)
  {
    assert poller.channels[channel.fd := channel] == poller.channels;
    SetEvents(poller, channel, 0);
  }

  /** The poller's part of `connectDestroyed`, `disableAll` and `removeChannel`: the assertions of `removeChannel`
      hold, and the poller forgets the channel. Its index keeps its last value. */
  method Deregister(poller: Poller, channel: Channel, ghost k: Conn)
    requires poller.Valid() && Reflects(poller, channel, k) && k.registered
    modifies poller, channel`events, (set fd | fd in poller.channels :: poller.channels[fd])`index
    ensures poller.Valid()
    ensures poller.channels - {channel.fd} == old(poller.channels) - {channel.fd}
    ensures poller.Entries() - {channel.fd} == old(poller.Entries()) - {channel.fd}
    ensures channel.fd !in poller.channels && !Polled(poller.Entries(), channel.fd)
  {
    DisableAll(poller, channel, k);
    poller.RemoveChannel(channel);
  }

  /** A channel that is enabled, disabled and enabled again is known to the poller and has events to wait for, but
      `poll` does not look at it. */
  method DisabledStaysDisabled(fd: nat) returns (poller: Poller, channel: Channel)
    ensures fresh(poller) && fresh(channel) && channel.fd == fd && poller.Valid() && poller.Fits(channel)
    ensures fd in poller.channels && channel.events == READ_EVENT && !Polled(poller.Entries(), fd)
  {
    poller := new Poller();
    channel := new Channel(fd);
    ReadBits(0);
    assert (0 as bv16) | READ_EVENT == READ_EVENT;
    SetEvents(poller, channel, channel.events | READ_EVENT);
    SetEvents(poller, channel, 0);
    SetEvents(poller, channel, channel.events | READ_EVENT);
  }
}

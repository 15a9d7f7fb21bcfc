/** `Poller`: the `pollfd` vector, the map from descriptors to channels, and the index that each channel keeps
    into the vector. */
module Pollers {
  import opened Channels

  /** `struct pollfd`; a negative descriptor is ignored by `poll`. */
  datatype PollFd = PollFd(fd: int, events: bv16, revents: bv16)

  function Muted(fd: int): int {
    -fd - 1
  }

  /** The descriptor behind an entry that may have been muted. */
  function Plain(fd: int): int {
    if fd < 0 then Muted(fd) else fd
  }

  // --- what registering and updating mean, entry by entry ---

  /** The entry of a descriptor after `updateChannel`. */
  function Updated(interest: map<int, PollFd>, fd: nat, events: bv16): PollFd {
    if fd !in interest then PollFd(fd, events, 0)
    else PollFd(if events == 0 then Muted(fd) else interest[fd].fd, events, 0)
  }

  predicate Polled(interest: map<int, PollFd>, fd: nat) {
    fd in interest && 0 <= interest[fd].fd
  }

  /** One call on the poller for some channel. */
  datatype PollerCall = Update(fd: nat, events: bv16) | Remove(fd: nat)

  function Interest(interest: map<int, PollFd>, calls: seq<PollerCall>): map<int, PollFd> {
    if calls == [] then interest
    else
      var before := Interest(interest, calls[..|calls| - 1]);
      match calls[|calls| - 1]
      case Update(fd, events) => before[fd := Updated(before, fd, events)]
      case Remove(fd) => before - {fd}
  }

  /** Once a registered channel has been updated to no events, no later update makes `poll` look at it again:
      only a removal and a new registration would. */
  lemma {:induction false} MutedForGood(interest: map<int, PollFd>, fd: nat, calls: seq<PollerCall>)
    requires fd in interest && interest[fd].fd < 0
    requires Remove(fd) !in calls
    ensures fd in Interest(interest, calls) && !Polled(Interest(interest, calls), fd)
  {
    if calls != [] {
      MutedForGood(interest, fd, calls[..|calls| - 1]);
    }
  }

  /** `updateChannel` promises that the descriptor is polled when there are events to poll for, and not
      otherwise. It keeps this exactly when a new channel comes with events, or a known one is not asked to
      come back after it was muted. */
  lemma UpdateFollowsEventsIff(interest: map<int, PollFd>, fd: nat, events: bv16)
    ensures var after := interest[fd := Updated(interest, fd, events)];
            (Polled(after, fd) <==> events != 0) <==>
            if fd !in interest then events != 0 else events == 0 || Polled(interest, fd)
  {}

  // --- which entries have something to report ---

  /** The kernel reports nothing for a negative descriptor. */
  predicate NoneMutedReported(pollfds: seq<PollFd>) {
    forall i | 0 <= i < |pollfds| :: pollfds[i].revents != 0 ==> 0 <= pollfds[i].fd
  }

  predicate AllKnown(pollfds: seq<PollFd>, channels: map<int, Channel>) {
    forall i | 0 <= i < |pollfds| :: pollfds[i].revents != 0 ==> pollfds[i].fd in channels
  }

  predicate AllDistinct(pollfds: seq<PollFd>, channels: map<int, Channel>)
    requires AllKnown(pollfds, channels)
  {
    forall i, k | 0 <= i < k < |pollfds| && pollfds[i].revents != 0 && pollfds[k].revents != 0 ::
      channels[pollfds[i].fd] != channels[pollfds[k].fd]
  }

  /** How many of the first `i` entries have something to report; over all of them, what `poll` returns. */
  function Reported(pollfds: seq<PollFd>, i: nat): nat
    requires i <= |pollfds|
  {
    if i == 0 then 0 else Reported(pollfds, i - 1) + if pollfds[i - 1].revents != 0 then 1 else 0
  }

  /** The channels of those entries, in order. */
  function Picked(pollfds: seq<PollFd>, channels: map<int, Channel>, i: nat): (picked: seq<Channel>)
    requires i <= |pollfds| && AllKnown(pollfds, channels)
    ensures |picked| == Reported(pollfds, i)
  {
    if i == 0 then []
    else Picked(pollfds, channels, i - 1) + if pollfds[i - 1].revents != 0 then [channels[pollfds[i - 1].fd]] else []
  }

  lemma {:induction false} NothingLeft(pollfds: seq<PollFd>, channels: map<int, Channel>, i: nat, j: nat)
    requires i <= j <= |pollfds| && AllKnown(pollfds, channels)
    ensures Reported(pollfds, i) <= Reported(pollfds, j)
    ensures Reported(pollfds, i) == Reported(pollfds, j) ==>
              && Picked(pollfds, channels, i) == Picked(pollfds, channels, j)
              && forall k | i <= k < j :: pollfds[k].revents == 0
  {
    if i < j {
      NothingLeft(pollfds, channels, i, j - 1);
    }
  }

  class Poller {
    var pollfds: seq<PollFd>
    var channels: map<int, Channel>

    /** Channels and entries correspond one to one through the indices. */
    ghost predicate Valid()
      reads this, channels.Values`index
    {
      && (forall fd | fd in channels ::
            && channels[fd].fd == fd && 0 <= channels[fd].index < |pollfds|
            && Plain(pollfds[channels[fd].index].fd) == fd)
      && (forall i | 0 <= i < |pollfds| ::
            && Plain(pollfds[i].fd) in channels && channels[Plain(pollfds[i].fd)].index == i)
    }

    /** The entry of every known descriptor. */
    ghost function Entries(): map<int, PollFd>
      requires Valid()
      reads this, channels.Values`index
    {
      map fd | fd in channels :: pollfds[channels[fd].index]
    }

    lemma EntriesAre(entries: map<int, PollFd>)
      requires Valid() && entries.Keys == channels.Keys
      requires forall fd | fd in channels :: entries[fd] == pollfds[channels[fd].index]
      ensures Entries() == entries
    {
      var now := Entries();
      assert now.Keys == entries.Keys;
      forall fd | fd in channels ensures now[fd] == entries[fd] {
        assert now[fd] == pollfds[channels[fd].index];
      }
    }

    constructor ()
      ensures Valid() && channels == map[] && pollfds == []
    {
      pollfds, channels := [], map[];
    }

    /** A channel that was never registered, or that is registered here under its own descriptor. */
    ghost predicate Fits(channel: Channel)
      reads this, channel
    {
      if channel.index < 0 then channel.fd !in channels else channel.fd in channels && channels[channel.fd] == channel
    }

    /** The first branch of `updateChannel`: a channel that is new. */
    method Register(channel: Channel)
      requires Valid() && channel.index < 0 && channel.fd !in channels
      modifies this, channel`index
      ensures Valid() && 0 <= channel.index
      ensures channels == old(channels)[channel.fd := channel]
      ensures Entries() == old(Entries())[channel.fd := PollFd(channel.fd, channel.events, 0)]
    {
      ghost var before := Entries();
      assert forall fd | fd in channels :: channels[fd] != channel;
      pollfds := pollfds + [PollFd(channel.fd, channel.events, 0)];
      channel.index := |pollfds| - 1;
      channels := channels[channel.fd := channel];
      EntriesAre(before[channel.fd := PollFd(channel.fd, channel.events, 0)]);
    }

    /** The second branch: the entry of a known channel is rewritten in place, and muted when there is nothing to
        poll for; its descriptor is never made positive again. */
    method Rewrite(channel: Channel)
      requires Valid() && channel.fd in channels && channels[channel.fd] == channel
      modifies this`pollfds
      ensures Valid()
      ensures Entries() == old(Entries())[channel.fd := Updated(old(Entries()), channel.fd, channel.events)]
    {
      ghost var before := Entries();
      var index := channel.index;
      var pfd := pollfds[index];
      assert pfd.fd == channel.fd || pfd.fd == Muted(channel.fd);
      pfd := pfd.(events := channel.events, revents := 0);
      if channel.events == 0 {
        pfd := pfd.(fd := Muted(channel.fd));
      }
      pollfds := pollfds[index := pfd];
      EntriesAre(before[channel.fd := pfd]);
    }

    method UpdateChannel(channel: Channel)
      requires Valid() && Fits(channel)
      modifies this, channel`index
      ensures Valid() && Fits(channel) && 0 <= channel.index
      ensures channels == old(channels)[channel.fd := channel]
      ensures Entries() == old(Entries())[channel.fd := Updated(old(Entries()), channel.fd, channel.events)]
      ensures channel.fd in Entries()
      ensures Entries()[channel.fd].events == channel.events && Entries()[channel.fd].revents == 0
      ensures channel.fd !in old(channels) ==> Entries()[channel.fd].fd == channel.fd
      ensures channel.fd in old(channels) && channel.events == 0 ==> Entries()[channel.fd].fd + channel.fd == -1
      ensures channel.fd in old(channels) && channel.events != 0 ==>
                Entries()[channel.fd].fd == old(Entries())[channel.fd].fd
      ensures forall fd | fd in old(Entries()) && fd != channel.fd ::
                fd in Entries() && Entries()[fd] == old(Entries())[fd]
    {
      if channel.index < 0 {
        Register(channel);
      } else {
        Rewrite(channel);
      }
    }

    /** The channel's entry is the last one. */
    method DropLast(channel: Channel)
      requires Valid() && channel.fd in channels && channels[channel.fd] == channel && channel.index == |pollfds| - 1
      modifies this
      ensures Valid() && channels == old(channels) - {channel.fd}
      ensures Entries() == old(Entries()) - {channel.fd}
    {
      ghost var before := Entries();
      channels := channels - {channel.fd};
      pollfds := pollfds[..|pollfds| - 1];
      EntriesAre(before - {channel.fd});
    }

    /** The last entry moves into the gap, and its channel learns its new index. */
    method MoveLast(channel: Channel)
      requires Valid() && channel.fd in channels && channels[channel.fd] == channel && channel.index < |pollfds| - 1
      modifies this, (set fd | fd in channels :: channels[fd])`index
      ensures Valid() && channels == old(channels) - {channel.fd}
      ensures Entries() == old(Entries()) - {channel.fd}
    {
      ghost var before := Entries();
      var idx, last := channel.index, |pollfds| - 1;
      var channelAtEnd := pollfds[last].fd;
      pollfds := pollfds[idx := pollfds[last]][..last];
      if channelAtEnd < 0 {
        channelAtEnd := Muted(channelAtEnd);
      }
      channels := channels - {channel.fd};
      channels[channelAtEnd].index := idx;
      EntriesAre(before - {channel.fd});
    }

    /** Removal swaps the last entry into the gap and corrects the index of its channel; the other descriptors
        keep their entries. */
    method RemoveChannel(channel: Channel)
      requires Valid() && channel.fd in channels && channels[channel.fd] == channel
      requires channel.events == 0 && pollfds[channel.index].fd < 0 && pollfds[channel.index].events == channel.events
      modifies this, (set fd | fd in channels :: channels[fd])`index
      ensures Valid() && channels == old(channels) - {channel.fd}
      ensures Entries() == old(Entries()) - {channel.fd}
    {
      if channel.index == |pollfds| - 1 {
        DropLast(channel);
      } else {
        MoveLast(channel);
      }
    }

    /** Of the first `n` entries, the channel of each one with something to report knows what it is. */
    ghost predicate Told(n: nat)
      requires n <= |pollfds| && AllKnown(pollfds, channels)
      reads this, channels.Values`revents
    {
      forall k | 0 <= k < n && pollfds[k].revents != 0 :: channels[pollfds[k].fd].revents == pollfds[k].revents
    }

    /** The entries with something to report belong to known channels, each to one of its own. */
    lemma ReportedAreKnown()
      requires Valid() && NoneMutedReported(pollfds)
      ensures AllKnown(pollfds, channels) && AllDistinct(pollfds, channels)
    {
      forall i, k | 0 <= i < k < |pollfds| && pollfds[i].revents != 0 && pollfds[k].revents != 0
        ensures channels[pollfds[i].fd] != channels[pollfds[k].fd]
      {
        assert channels[Plain(pollfds[i].fd)].index == i && channels[Plain(pollfds[k].fd)].index == k;
      }
    }

    /** Each channel that is picked has something to report. */
    lemma {:induction false} PickedReported(i: nat, k: nat)
      requires Valid() && NoneMutedReported(pollfds) && AllKnown(pollfds, channels)
      requires i <= |pollfds| && k < |Picked(pollfds, channels, i)|
      ensures var c := Picked(pollfds, channels, i)[k];
              0 <= c.index < i && pollfds[c.index].revents != 0 && c.fd in channels && channels[c.fd] == c
    {
      if k < |Picked(pollfds, channels, i - 1)| {
        PickedReported(i - 1, k);
      } else {
        assert channels[Plain(pollfds[i - 1].fd)].index == i - 1;
      }
    }

    /** The channels that are picked come in the order of their indices, so none is picked twice. */
    lemma {:induction false} PickedInOrder(i: nat, k: nat, m: nat)
      requires Valid() && NoneMutedReported(pollfds) && AllKnown(pollfds, channels)
      requires i <= |pollfds| && k < m < |Picked(pollfds, channels, i)|
      ensures Picked(pollfds, channels, i)[k].index < Picked(pollfds, channels, i)[m].index
    {
      if m < |Picked(pollfds, channels, i - 1)| {
        PickedInOrder(i - 1, k, m);
      } else {
        PickedReported(i - 1, k);
        assert channels[Plain(pollfds[i - 1].fd)].index == i - 1;
      }
    }

    /** No channel with something to report is left out. */
    lemma {:induction false} PickedAll(i: nat, fd: int)
      requires Valid() && NoneMutedReported(pollfds) && AllKnown(pollfds, channels) && i <= |pollfds|
      requires fd in channels && channels[fd].index < i && pollfds[channels[fd].index].revents != 0
      ensures channels[fd] in Picked(pollfds, channels, i)
    {
      if channels[fd].index < i - 1 {
        PickedAll(i - 1, fd);
      }
    }

    /** What `fillActiveChannels` has done after `pfd` entries, with `left` more entries to report. */
    ghost predicate Filled(active: seq<Channel>, pfd: nat, left: nat)
      requires AllKnown(pollfds, channels)
      reads this, channels.Values`revents
    {
      && pfd <= |pollfds| && left == Reported(pollfds, |pollfds|) - Reported(pollfds, pfd)
      && active == Picked(pollfds, channels, pfd) && Told(pfd)
    }

    /** One entry: if it has something to report, its channel learns what, and no other channel does. */
    method Look(active: seq<Channel>, pfd: nat, left: nat) returns (more: seq<Channel>, still: nat)
      requires AllKnown(pollfds, channels) && AllDistinct(pollfds, channels)
      requires Filled(active, pfd, left) && pfd < |pollfds| && left > 0
      modifies (set fd | fd in channels :: channels[fd])`revents
      ensures Filled(more, pfd + 1, still)
    {
      NothingLeft(pollfds, channels, pfd + 1, |pollfds|);
      more, still := active, left;
      if pollfds[pfd].revents != 0 {
        still := still - 1;
        var channel := channels[pollfds[pfd].fd];
        channel.revents := pollfds[pfd].revents;
        more := more + [channel];
      }
    }

    /** The loop of `fillActiveChannels`: stopping at the kernel's count leaves no entry out. */
    method Fill(numEvents: nat) returns (active: seq<Channel>)
      requires AllKnown(pollfds, channels) && AllDistinct(pollfds, channels)
      requires numEvents == Reported(pollfds, |pollfds|)
      modifies (set fd | fd in channels :: channels[fd])`revents
      ensures AllKnown(pollfds, channels)
      ensures active == Picked(pollfds, channels, |pollfds|) && |active| == numEvents && Told(|pollfds|)
    {
      active := [];
      var left, pfd := numEvents, 0;
      while pfd < |pollfds| && left > 0
        invariant AllKnown(pollfds, channels) && Filled(active, pfd, left)
      {
        active, left := Look(active, pfd, left);
        pfd := pfd + 1;
      }
      NothingLeft(pollfds, channels, pfd, |pollfds|);
    }

    /** The entry of the channel has something to report. */
    ghost predicate Ready(fd: int)
      requires Valid() && fd in channels
      reads this, channels.Values`index
    {
      pollfds[channels[fd].index].revents != 0
    }

    /** `fillActiveChannels` after the kernel has filled in `revents` for the entries that are not muted, and
        returned how many it filled in: exactly the channels whose entries have something to report become
        active, each one once, and each one learns its own event bits. */
    method FillActiveChannels(numEvents: nat) returns (active: seq<Channel>)
      requires Valid() && NoneMutedReported(pollfds) && numEvents == Reported(pollfds, |pollfds|)
      modifies (set fd | fd in channels :: channels[fd])`revents
      ensures Valid() && |active| == numEvents
      ensures forall fd | fd in channels :: channels[fd] in active <==> Ready(fd)
      ensures forall fd | fd in channels && Ready(fd) :: channels[fd].revents == pollfds[channels[fd].index].revents
      ensures forall c | c in active :: c.fd in channels && channels[c.fd] == c
      ensures forall k, m | 0 <= k < m < |active| :: active[k] != active[m]
    {
      ReportedAreKnown();
      active := Fill(numEvents);
      PickedExactly(active);
    }

    lemma PickedExactly(active: seq<Channel>)
      requires Valid() && NoneMutedReported(pollfds) && AllKnown(pollfds, channels)
      requires active == Picked(pollfds, channels, |pollfds|) && Told(|pollfds|)
      ensures forall fd | fd in channels :: channels[fd] in active <==> Ready(fd)
      ensures forall fd | fd in channels && Ready(fd) :: channels[fd].revents == pollfds[channels[fd].index].revents
      ensures forall c | c in active :: c.fd in channels && channels[c.fd] == c
      ensures forall k, m | 0 <= k < m < |active| :: active[k] != active[m]
    {
      forall fd | fd in channels && Ready(fd) ensures channels[fd] in active {
        PickedAll(|pollfds|, fd);
      }
      forall k | 0 <= k < |active|
        ensures active[k].fd in channels && channels[active[k].fd] == active[k] && Ready(active[k].fd)
      {
        PickedReported(|pollfds|, k);
      }
      forall k, m | 0 <= k < m < |active| ensures active[k] != active[m] {
        PickedInOrder(|pollfds|, k, m);
      }
    }
  }
}

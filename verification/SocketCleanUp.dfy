/** The end of a socket, whatever its protocol. */
module SocketCleanUp {
  import opened Sockets

  /** Peers of protocols without an orderly end are told; then every descriptor is closed. */
  function CleanUp(s: State): State {
    var told := if s.protocol == DCCP || IsUdp(s.protocol) || s.protocol == Unix then SendAll(s, QUIT_MSG) else s;
    told.(peers := seq(|s.peers|, j requires 0 <= j < |s.peers| => s.peers[j].(fd := 0)),
          fd := 0,
          open := s.open - LiveFds(s.peers) - {s.fd})
  }

  /** The first i slots without their descriptors. */
  function Closed(peers: seq<Peer>, i: nat): (r: seq<Peer>)
    ensures |r| == |peers|
  {
    seq(|peers|, j requires 0 <= j < |peers| => if j < i then peers[j].(fd := 0) else peers[j])
  }

  method CloseSlot(socket: Socket, i: nat)
    requires socket.Valid() && i < socket.peerCount && (socket.peers[i].fd != 0 ==> socket.peers[i].fd in socket.open)
    modifies socket`open, socket.peers
    ensures socket.Valid()
    ensures socket.View() == old(socket.View()).(
              peers := old(socket.View().peers)[i := old(socket.peers[i]).(fd := 0)],
              open := CloseIn(old(socket.open), old(socket.peers[i].fd)))
  {
    ghost var before := socket.View().peers;
    if socket.peers[i].fd != 0 {
      var zero := socket.CloseFd(socket.peers[i].fd);
      socket.peers[i] := socket.peers[i].(fd := zero);
    }
    assert socket.View().peers == before[i := before[i].(fd := 0)];
  }

  lemma ClosedNext(s: State, i: nat)
    requires FdsOwned(s) && i < |s.peers|
    ensures Closed(s.peers, i)[i] == s.peers[i]
    ensures Closed(s.peers, i)[i := s.peers[i].(fd := 0)] == Closed(s.peers, i + 1)
    ensures s.peers[i].fd != 0 ==> s.peers[i].fd in s.open - LiveFds(s.peers[..i])
    ensures CloseIn(s.open - LiveFds(s.peers[..i]), s.peers[i].fd) == s.open - LiveFds(s.peers[..i + 1])
  {
    assert s.peers[..i + 1] == s.peers[..i] + [s.peers[i]];
    LiveFdsGrow(s.peers[..i], s.peers[i]);
    if s.peers[i].fd != 0 {
      LiveFdIsOpen(s, i);
    }
  }

  /** Closing as it goes, the loop never closes a descriptor twice. */
  method CloseSlots(socket: Socket)
    requires socket.Valid() && FdsOwned(socket.View())
    modifies socket`open, socket.peers
    ensures socket.Valid()
    ensures var s := old(socket.View());
            socket.View() == s.(peers := Closed(s.peers, |s.peers|), open := s.open - LiveFds(s.peers))
  {
    ghost var s := socket.View();
    var i := 0;
    while i < socket.peerCount
      invariant i <= socket.peerCount == |s.peers| && socket.Valid()
      invariant socket.View() == s.(peers := Closed(s.peers, i), open := s.open - LiveFds(s.peers[..i]))
    {
      ClosedNext(s, i);
      assert socket.View().peers[i] == s.peers[i];
      CloseSlot(socket, i);
      i := i + 1;
    }
    assert s.peers[..i] == s.peers;
  }

  /** Afterwards nothing is open. */
  method CleanUpSocket(socket: Socket)
    requires socket.Valid() && FdsOwned(socket.View())
    modifies socket, socket.peers
    ensures socket.Valid() && socket.View() == CleanUp(old(socket.View())) && socket.open == {}
  {
    if socket.protocol == DCCP || IsUdp(socket.protocol) || socket.protocol == Unix {
      socket.SendToLive(QUIT_MSG);
    }
    ghost var s := socket.View();
    assert FdsOwned(s);
    CloseSlots(socket);
    assert s.fd !in LiveFds(s.peers);
    var zero := socket.CloseFd(socket.fd);
    socket.fd := zero;
    assert socket.View().peers == CleanUp(old(socket.View())).peers;
  }
}

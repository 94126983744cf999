/** The BlueZ `org.bluez.Profile1` object the emulator registers: it holds the
    one file descriptor BlueZ hands over in `NewConnection` and closes it on
    `RequestDisconnection`.

    The descriptor logic is written twice in `btk_server.py` (the registered
    `HumanInterfaceDeviceProfile` and the unused `BTKbBluezProfile`) with
    identical behaviour; it is modelled once here. Descriptors are abstract
    integers and every `os.close` becomes an entry of the `closed` log. */
module Profile {
  import opened Common

  /** The value the class attribute `fd` holds when no descriptor is held. */
  const NO_FD: int := -1

  /** The profile object's state: the held descriptor and, in order, every
      descriptor it has passed to `os.close`. */
  datatype FdHolder = FdHolder(fd: int, closed: seq<int>)

  /** A fresh profile object: the class default `fd = -1`, nothing closed. */
  function Initial(): (p: FdHolder)
    ensures p.fd <= 0 && p.closed == []
  {
    FdHolder(NO_FD, [])
  }

  /** BlueZ hands over a connected descriptor. The property map is only
      logged; a previously held descriptor is overwritten without a close. */
  function NewConnection(p: FdHolder, path: string, fd: int, properties: map<string, Variant>): (r: FdHolder)
    ensures r.fd == fd
    ensures r.closed == p.closed
  {
    FdHolder(fd, p.closed)
  }

  /** BlueZ asks for a disconnect: a held descriptor greater than zero is
      closed and forgotten; any other value (including 0) is left alone. */
  function RequestDisconnection(p: FdHolder, path: string): (r: FdHolder)
    ensures p.fd > 0 ==> r.fd == NO_FD && r.closed == p.closed + [p.fd]
    ensures p.fd <= 0 ==> r == p
  {
    if p.fd > 0 then FdHolder(NO_FD, p.closed + [p.fd]) else p
  }

  /** A second disconnect request changes nothing: the close happens at most
      once per held descriptor. */
  lemma RequestDisconnectionIdempotent(p: FdHolder, path1: string, path2: string)
    ensures RequestDisconnection(RequestDisconnection(p, path1), path2) == RequestDisconnection(p, path1)
    ensures |RequestDisconnection(RequestDisconnection(p, path1), path2).closed| <= |p.closed| + 1
  {
  }

  /** What `NewConnection` stores is what the next disconnect closes, exactly
      when it is positive; the properties never matter. */
  lemma ConnectThenDisconnect(p: FdHolder, path: string, fd: int, properties: map<string, Variant>)
    ensures var r := RequestDisconnection(NewConnection(p, path, fd, properties), path);
      && (fd > 0 ==> r == FdHolder(NO_FD, p.closed + [fd]))
      && (fd <= 0 ==> r == FdHolder(fd, p.closed))
  {
  }

  /** A descriptor still held when a new one arrives is overwritten without
      being closed. */
  lemma NewConnectionDropsHeld(p: FdHolder, path: string, fd: int, properties: map<string, Variant>)
    requires p.fd > 0 && fd != p.fd
    ensures var r := NewConnection(p, path, fd, properties);
      r.fd != p.fd && multiset(r.closed)[p.fd] == multiset(p.closed)[p.fd]
  {
  }

  /** The D-Bus calls BlueZ makes on the profile that touch its state. */
  datatype Call =
    | Connect(path: string, fd: int, properties: map<string, Variant>)
    | Disconnect(path: string)

  function Apply(p: FdHolder, c: Call): FdHolder
  {
    match c
    case Connect(path, fd, props) => NewConnection(p, path, fd, props)
    case Disconnect(path) => RequestDisconnection(p, path)
  }

  /** The profile's state after BlueZ makes the given calls in order. */
  function Run(p: FdHolder, calls: seq<Call>): FdHolder
    decreases |calls|
  {
    if calls == [] then p else Run(Apply(p, calls[0]), calls[1..])
  }

  /** The descriptors handed over by the `NewConnection` calls among `calls`. */
  function Handed(calls: seq<Call>): multiset<int>
    decreases |calls|
  {
    if calls == [] then multiset{}
    else (if calls[0].Connect? then multiset{calls[0].fd} else multiset{}) + Handed(calls[1..])
  }

  /** The descriptor the object would close next, if any. */
  function Held(p: FdHolder): multiset<int>
  {
    if p.fd > 0 then multiset{p.fd} else multiset{}
  }

  /** Accounting invariant: closed plus held descriptors are among those
      handed over, counted with multiplicity, and all are positive. */
  ghost predicate Accounted(p: FdHolder, handed: multiset<int>)
  {
    && multiset(p.closed) + Held(p) <= handed
    && forall i :: 0 <= i < |p.closed| ==> p.closed[i] > 0
  }

  lemma {:induction false} RunKeepsAccounted(p: FdHolder, handed: multiset<int>, calls: seq<Call>)
    requires Accounted(p, handed)
    ensures Accounted(Run(p, calls), handed + Handed(calls))
    decreases |calls|
  {
    if calls != [] {
      var q := Apply(p, calls[0]);
      var h := handed + (if calls[0].Connect? then multiset{calls[0].fd} else multiset{});
      assert Accounted(q, h);
      RunKeepsAccounted(q, h, calls[1..]);
      assert h + Handed(calls[1..]) == handed + Handed(calls);
    }
  }

  /** Over any sequence of calls from a fresh object, each descriptor is
      closed at most as often as BlueZ handed it over, and no descriptor
      `<= 0` (in particular 0) is ever closed. */
  lemma CloseAtMostOncePerHandover(calls: seq<Call>)
    ensures multiset(Run(Initial(), calls).closed) <= Handed(calls)
    ensures forall fd :: fd in Run(Initial(), calls).closed ==> fd > 0
  {
    RunKeepsAccounted(Initial(), multiset{}, calls);
    assert multiset{} + Handed(calls) == Handed(calls);
  }
}

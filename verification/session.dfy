/** The emulated keyboard device (`BTKbDevice`): its four L2CAP socket slots,
    the listen/accept sequence that fills them, the re-listen on disconnect
    and the write to the interrupt channel.

    Sockets are abstract tokens. The kernel's side of every socket call is a
    log entry in `ops`, in the order the device makes the calls; a blocking
    `accept` is a step that yields a fresh token, so `Listen` is the run in
    which the peer connects both channels. */
module Session {
  import opened Common

  /** The HID control PSM; it must match the service record. */
  const P_CTRL: nat := 17
  /** The HID interrupt PSM; it must match the service record. */
  const P_INTR: nat := 19
  /** Backlog passed to `listen`: one pending peer per channel. */
  const BACKLOG: nat := 1

  /** An open socket object. */
  datatype Sock = Sock(id: nat)

  /** One socket call the device makes. */
  datatype SockOp =
    | Open(sock: Sock)                              // AF_BLUETOOTH, SOCK_SEQPACKET, BTPROTO_L2CAP
    | ReuseAddr(sock: Sock)                         // SOL_SOCKET, SO_REUSEADDR = 1
    | Bind(sock: Sock, address: string, psm: nat)
    | Listening(sock: Sock, backlog: nat)        // listen(backlog)
    | Accept(server: Sock, client: Sock)
    | Send(sock: Sock, data: seq<byte>)

  function Socks(op: SockOp): set<Sock>
  {
    match op
    case Open(s) => {s}
    case ReuseAddr(s) => {s}
    case Bind(s, _, _) => {s}
    case Listening(s, _) => {s}
    case Accept(server, client) => {server, client}
    case Send(s, _) => {s}
  }

  /** The device's socket slots (`None` until first assigned), the log of
      its socket calls, and the supply of fresh socket tokens. */
  datatype Device = Device(
    hci: nat,
    scontrol: Option<Sock>,
    ccontrol: Option<Sock>,
    sinterrupt: Option<Sock>,
    cinterrupt: Option<Sock>,
    ops: seq<SockOp>,
    next: nat)

  function Slot(o: Option<Sock>): set<Sock>
  {
    if o.Some? then {o.value} else {}
  }

  function Slots(d: Device): set<Sock>
  {
    Slot(d.scontrol) + Slot(d.ccontrol) + Slot(d.sinterrupt) + Slot(d.cinterrupt)
  }

  /** Every token in the call log was drawn from the supply below `n`. */
  ghost predicate OpsBelow(ops: seq<SockOp>, n: nat)
  {
    forall i, t :: 0 <= i < |ops| && t in Socks(ops[i]) ==> t.id < n
  }

  /** Device invariant: tokens come from the supply, and the slots that are
      set hold different sockets. */
  ghost predicate Valid(d: Device)
  {
    && (forall t :: t in Slots(d) ==> t.id < d.next)
    && OpsBelow(d.ops, d.next)
    && (d.ccontrol.Some? && d.cinterrupt.Some? ==> d.ccontrol != d.cinterrupt)
    && (d.scontrol.Some? && d.sinterrupt.Some? ==> d.scontrol != d.sinterrupt)
    && (d.scontrol.Some? ==> d.scontrol != d.ccontrol && d.scontrol != d.cinterrupt)
    && (d.sinterrupt.Some? ==> d.sinterrupt != d.ccontrol && d.sinterrupt != d.cinterrupt)
  }

  /** `t` has never been handed to the kernel by `d` and sits in no slot. */
  ghost predicate Unused(d: Device, t: Sock)
  {
    t !in Slots(d) && forall i :: 0 <= i < |d.ops| ==> t !in Socks(d.ops[i])
  }

  /** The device right after construction: all four socket slots empty. */
  function Init(hci: nat): (d: Device)
    ensures d.hci == hci
    ensures Valid(d) && Slots(d) == {} && d.ops == []
  {
    Device(hci, None, None, None, None, [], 0)
  }

  lemma OpsBelowAppend(a: seq<SockOp>, b: seq<SockOp>, m: nat, n: nat)
    requires OpsBelow(a, m) && OpsBelow(b, n) && m <= n
    ensures OpsBelow(a + b, n)
  {
    forall i, t | 0 <= i < |a + b| && t in Socks((a + b)[i])
      ensures t.id < n
    {
      if i < |a| {
        assert (a + b)[i] == a[i];
      } else {
        assert (a + b)[i] == b[i - |a|];
      }
    }
  }

  /** The first half of `listen`: two new server sockets with address reuse,
      bound to the adapter address on the control and interrupt PSMs, each
      listening with backlog one. The old slots are simply overwritten. */
  function BeginListen(d: Device, address: string): (r: Device)
    ensures r.scontrol.Some? && r.sinterrupt.Some?
    ensures r.hci == d.hci && r.ccontrol == d.ccontrol && r.cinterrupt == d.cinterrupt
    ensures |r.ops| > |d.ops| && r.ops[..|d.ops|] == d.ops
    ensures Valid(d) ==> Valid(r)
    ensures Valid(d) ==> Unused(d, r.scontrol.value) && Unused(d, r.sinterrupt.value)
  {
    var sc := Sock(d.next);
    var si := Sock(d.next + 1);
    d.(scontrol := Some(sc), sinterrupt := Some(si), next := d.next + 2,
       ops := d.ops + [Open(sc), ReuseAddr(sc), Open(si), ReuseAddr(si),
                       Bind(sc, address, P_CTRL), Bind(si, address, P_INTR),
                       Listening(sc, BACKLOG), Listening(si, BACKLOG)])
  }

  /** `accept` on the control server socket returns: the peer's control
      channel fills `ccontrol`, and the other slots are kept. */
  function AcceptControl(d: Device): (r: Device)
    requires d.scontrol.Some?
    ensures r.ccontrol.Some?
    ensures r.hci == d.hci && r.scontrol == d.scontrol && r.sinterrupt == d.sinterrupt && r.cinterrupt == d.cinterrupt
    ensures r.ops == d.ops + [Accept(d.scontrol.value, r.ccontrol.value)]
    ensures Valid(d) ==> Valid(r) && Unused(d, r.ccontrol.value)
  {
    var c := Sock(d.next);
    d.(ccontrol := Some(c), next := d.next + 1, ops := d.ops + [Accept(d.scontrol.value, c)])
  }

  /** `accept` on the interrupt server socket returns: the peer's interrupt
      channel fills `cinterrupt`, and the other slots are kept. */
  function AcceptInterrupt(d: Device): (r: Device)
    requires d.sinterrupt.Some?
    ensures r.cinterrupt.Some?
    ensures r.hci == d.hci && r.scontrol == d.scontrol && r.sinterrupt == d.sinterrupt && r.ccontrol == d.ccontrol
    ensures r.ops == d.ops + [Accept(d.sinterrupt.value, r.cinterrupt.value)]
    ensures Valid(d) ==> Valid(r) && Unused(d, r.cinterrupt.value)
  {
    var c := Sock(d.next);
    d.(cinterrupt := Some(c), next := d.next + 1, ops := d.ops + [Accept(d.sinterrupt.value, c)])
  }

  /** The socket calls `listen` makes, in order, on sockets drawn from `base`:
      control server, interrupt server, control client, interrupt client. */
  function ListenScript(base: nat, address: string): seq<SockOp>
  {
    var sc, si, cc, ci := Sock(base), Sock(base + 1), Sock(base + 2), Sock(base + 3);
    [Open(sc), ReuseAddr(sc), Open(si), ReuseAddr(si),
     Bind(sc, address, P_CTRL), Bind(si, address, P_INTR),
     Listening(sc, BACKLOG), Listening(si, BACKLOG),
     Accept(sc, cc), Accept(si, ci)]
  }

  /** The state `listen` leaves behind, written out in one piece. */
  function Relistened(d: Device, address: string): Device
  {
    d.(scontrol := Some(Sock(d.next)), sinterrupt := Some(Sock(d.next + 1)),
       ccontrol := Some(Sock(d.next + 2)), cinterrupt := Some(Sock(d.next + 3)),
       next := d.next + 4, ops := d.ops + ListenScript(d.next, address))
  }

  lemma ListenShape(d: Device, address: string)
    ensures AcceptInterrupt(AcceptControl(BeginListen(d, address))) == Relistened(d, address)
  {
    var b := BeginListen(d, address);
    var c := AcceptControl(b);
    var r := AcceptInterrupt(c);
    assert r.ops == d.ops + ListenScript(d.next, address);
  }

  lemma ScriptBelow(base: nat, address: string)
    ensures OpsBelow(ListenScript(base, address), base + 4)
  {
    var script := ListenScript(base, address);
    forall i, t | 0 <= i < |script| && t in Socks(script[i])
      ensures t.id < base + 4
    {
      assert t in {Sock(base), Sock(base + 1), Sock(base + 2), Sock(base + 3)};
    }
  }

  lemma RelistenedValid(d: Device, address: string)
    requires Valid(d)
    ensures Valid(Relistened(d, address))
  {
    var r := Relistened(d, address);
    ScriptBelow(d.next, address);
    OpsBelowAppend(d.ops, ListenScript(d.next, address), d.next, d.next + 4);
    assert Slots(r) == {Sock(d.next), Sock(d.next + 1), Sock(d.next + 2), Sock(d.next + 3)};
  }

  lemma RelistenedFresh(d: Device, address: string)
    requires Valid(d)
    ensures |Slots(Relistened(d, address))| == 4
    ensures forall t :: t in Slots(Relistened(d, address)) ==> Unused(d, t)
  {
    var n := d.next;
    var drawn := {Sock(n), Sock(n + 1), Sock(n + 2), Sock(n + 3)};
    assert Slots(Relistened(d, address)) == drawn;
    forall t | t in drawn
      ensures Unused(d, t)
    {
      assert t.id >= n;
    }
  }

  lemma ListenFresh(d: Device, address: string)
    requires Valid(d)
    ensures var r := AcceptInterrupt(AcceptControl(BeginListen(d, address)));
      && Valid(r) && |Slots(r)| == 4
      && forall t :: t in Slots(r) ==> Unused(d, t)
  {
    ListenShape(d, address);
    RelistenedValid(d, address);
    RelistenedFresh(d, address);
  }

  /** The whole `listen` call, returning once the peer has connected the
      control channel and then the interrupt channel: four new sockets, none
      of them used by the device before. */
  function Listen(d: Device, address: string): (r: Device)
    ensures r.scontrol.Some? && r.ccontrol.Some? && r.sinterrupt.Some? && r.cinterrupt.Some?
    ensures r.hci == d.hci
    ensures |r.ops| > |d.ops| && r.ops[..|d.ops|] == d.ops
    ensures Valid(d) ==> Valid(r)
    ensures Valid(d) ==> |Slots(r)| == 4 && forall t :: t in Slots(r) ==> Unused(d, t)
  {
    var r := AcceptInterrupt(AcceptControl(BeginListen(d, address)));
    assert Valid(d) ==> Valid(r) && |Slots(r)| == 4 && forall t :: t in Slots(r) ==> Unused(d, t) by {
      if Valid(d) {
        ListenFresh(d, address);
      }
    }
    r
  }

  /** Every `listen` call, first or repeated, appends the same script: the
      control server is bound to PSM 17 and the interrupt server to PSM 19,
      both listen with backlog one, and the control channel is accepted
      before the interrupt channel. */
  lemma ListenProtocol(d: Device, address: string)
    ensures var r := Listen(d, address);
      && r.ops == d.ops + ListenScript(d.next, address)
      && var sc, si, cc, ci := r.scontrol.value, r.sinterrupt.value, r.ccontrol.value, r.cinterrupt.value;
         var n := |d.ops|;
         && |r.ops| == n + 10
         && r.ops[n + 4] == Bind(sc, address, P_CTRL) && r.ops[n + 5] == Bind(si, address, P_INTR)
         && r.ops[n + 6] == Listening(sc, BACKLOG) && r.ops[n + 7] == Listening(si, BACKLOG)
         && r.ops[n + 8] == Accept(sc, cc) && r.ops[n + 9] == Accept(si, ci)
  {
    ListenShape(d, address);
  }

  /** `on_disconnect`: log and run `listen` again. */
  function OnDisconnect(d: Device, address: string): (r: Device)
    ensures r.ccontrol.Some? && r.cinterrupt.Some?
    ensures Valid(d) ==> Valid(r)
    ensures Valid(d) ==> r.ccontrol != d.ccontrol && r.cinterrupt != d.cinterrupt
    ensures Valid(d) ==> r.scontrol != d.scontrol && r.sinterrupt != d.sinterrupt
  {
    Listen(d, address)
  }

  /** The `PropertiesChanged` filter: the disconnect handler fires exactly
      when the change set carries `Connected` with a false value. The guard
      `on_disconnect is not None` always holds (it is a bound method). */
  predicate DisconnectSignalled(changed: map<string, Variant>)
  {
    "Connected" in changed && !Truthy(changed["Connected"])
  }

  /** `_properties_changed`: re-listen on a disconnect, otherwise nothing.
      The interface, invalidated list and object path play no part here:
      the signal subscription (`arg0='org.bluez.Device1'`) already drops
      notifications for other interfaces before this handler runs, and that
      D-Bus match rule is not modelled. */
  function PropertiesChanged(d: Device, address: string, iface: string,
                             changed: map<string, Variant>, invalidated: seq<string>,
                             path: string): (r: Device)
    ensures r != d <==> "Connected" in changed && !Truthy(changed["Connected"])
    ensures r != d ==> r == OnDisconnect(d, address)
  {
    if DisconnectSignalled(changed) then OnDisconnect(d, address) else d
  }

  /** Only the `Connected` entry decides: change sets that agree on it
      (including both lacking it) have the same effect. */
  lemma PropertiesChangedIgnoresOthers(d: Device, address: string, iface1: string, iface2: string,
                                       c1: map<string, Variant>, c2: map<string, Variant>,
                                       inv1: seq<string>, inv2: seq<string>, path1: string, path2: string)
    requires "Connected" in c1 <==> "Connected" in c2
    requires "Connected" in c1 ==> c1["Connected"] == c2["Connected"]
    ensures PropertiesChanged(d, address, iface1, c1, inv1, path1)
         == PropertiesChanged(d, address, iface2, c2, inv2, path2)
  {
  }

  /** `send_string`: one write of the whole message on the interrupt client
      socket; the control channel is never written. */
  function SendString(d: Device, message: seq<byte>): (r: (Device, Outcome))
    ensures r.1.Fail? <==> d.cinterrupt.None?
    ensures r.1.Fail? ==> r == (d, Fail(NotConnected))
    ensures r.1.Ok? ==> r.0 == d.(ops := d.ops + [Send(d.cinterrupt.value, message)])
    ensures Valid(d) ==> Valid(r.0)
    ensures Valid(d) && r.1.Ok? && d.ccontrol.Some? ==> Last(r.0.ops).sock != d.ccontrol.value
  {
    match d.cinterrupt
    case None => (d, Fail(NotConnected))
    case Some(ci) =>
      var r := d.(ops := d.ops + [Send(ci, message)]);
      assert Valid(d) ==> Valid(r) by {
        if Valid(d) {
          assert ci in Slots(d);
          OpsBelowAppend(d.ops, [Send(ci, message)], d.next, d.next);
        }
      }
      (r, Ok)
  }

  function Last(ops: seq<SockOp>): SockOp
    requires ops != []
  {
    ops[|ops| - 1]
  }
}

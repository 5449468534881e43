/** What the node publishes for a stream: the IS-04 resources and the IS-05 connection resource that
    the make_*_resources functions of src/node.cpp build from its configuration. */
module Resources {
  import opened Wrappers
  import opened Naming
  import opened Streams

  // ----- runtime interfaces -----

  datatype Interface = Interface(name: string, addresses: seq<string>)

  /** One leg's choice of interface; `selected` is false only when the host offers none. */
  datatype InterfaceLeg = InterfaceLeg(chosen: Interface, ip: string, selected: bool)

  const UNSELECTED := InterfaceLeg(Interface("", []), "", false)

  function FindAddress(ifs: seq<Interface>, ip: string): (r: Option<Interface>)
    ensures r.Some? <==> exists i :: 0 <= i < |ifs| && ip != "" && ip in ifs[i].addresses
    ensures r.Some? ==> r.value in ifs && ip in r.value.addresses
  {
    if ifs == [] then None
    else if ip != "" && ip in ifs[0].addresses then Some(ifs[0])
    else FindAddress(ifs[1..], ip)
  }

  /** The first interface with an address whose name is not `avoid`. */
  function FindUsable(ifs: seq<Interface>, avoid: Option<string>): (r: Option<Interface>)
    ensures r.Some? <==> exists i :: 0 <= i < |ifs| && ifs[i].addresses != [] && Some(ifs[i].name) != avoid
    ensures r.Some? ==> r.value in ifs && r.value.addresses != [] && Some(r.value.name) != avoid
  {
    if ifs == [] then None
    else if ifs[0].addresses != [] && Some(ifs[0].name) != avoid then Some(ifs[0])
    else FindUsable(ifs[1..], avoid)
  }

  function SelectPrimary(ifs: seq<Interface>, ip: string): InterfaceLeg {
    var exact, usable := FindAddress(ifs, ip), FindUsable(ifs, None);
    if exact.Some? then InterfaceLeg(exact.value, ip, true)
    else if usable.Some? then InterfaceLeg(usable.value, usable.value.addresses[0], true)
    else if ifs != [] then InterfaceLeg(ifs[0], "", true)
    else UNSELECTED
  }

  function SelectSecondary(ifs: seq<Interface>, ip: string, primary: InterfaceLeg): InterfaceLeg {
    var avoid := if primary.selected then Some(primary.chosen.name) else None;
    var exact, usable := FindAddress(ifs, ip), FindUsable(ifs, avoid);
    if exact.Some? then InterfaceLeg(exact.value, ip, true)
    else if usable.Some? then InterfaceLeg(usable.value, usable.value.addresses[0], true)
    else if primary.selected then primary
    else SelectPrimary(ifs, "")
  }

  /** Path diversity of the two legs: they share an interface name exactly when the second address asked for
      is on an interface of that name, or when it is on none and no other interface has an address. */
  lemma LegsShareInterfaceExactly(ifs: seq<Interface>, ip: string, ip2: string)
    requires ifs != []
    ensures var p := SelectPrimary(ifs, ip);
            var s := SelectSecondary(ifs, ip2, p);
            var pinned := FindAddress(ifs, ip2);
            p.selected && s.selected &&
            (s.chosen.name == p.chosen.name <==>
             if pinned.Some? then pinned.value.name == p.chosen.name
             else forall i :: 0 <= i < |ifs| && ifs[i].addresses != [] ==> ifs[i].name == p.chosen.name)
  {
    var p := SelectPrimary(ifs, ip);
    var s := SelectSecondary(ifs, ip2, p);
    var usable := FindUsable(ifs, Some(p.chosen.name));
    assert p.selected;
    if FindAddress(ifs, ip2).None? && usable.None? {
      assert s == p;
    }
  }

  /** An address asked for is used exactly when some interface has it; whichever address is used, it is one of
      the chosen interface's, unless no interface has any. */
  lemma AddressHonouredExactly(ifs: seq<Interface>, ip: string, ip2: string)
    requires ip != "" && ip2 != ""
    ensures var p := SelectPrimary(ifs, ip);
            var s := SelectSecondary(ifs, ip2, p);
            && (p.ip == ip <==> exists i :: 0 <= i < |ifs| && ip in ifs[i].addresses)
            && (s.ip == ip2 <==> exists i :: 0 <= i < |ifs| && ip2 in ifs[i].addresses)
            && ((exists i :: 0 <= i < |ifs| && ifs[i].addresses != []) ==> p.ip in p.chosen.addresses && s.ip in s.chosen.addresses)
  {
    hide FindAddress, FindUsable;
    var usable := FindUsable(ifs, None);
    if usable.Some? {
      assert usable.value in ifs;
    }
    var second := FindUsable(ifs, Some(SelectPrimary(ifs, ip).chosen.name));
    if second.Some? {
      assert second.value in ifs;
    }
  }

  lemma {:induction false} FindAddressIsFirst(ifs: seq<Interface>, ip: string, i: nat)
    requires i < |ifs| && ip != "" && ip in ifs[i].addresses && forall j :: 0 <= j < i ==> ip !in ifs[j].addresses
    ensures FindAddress(ifs, ip) == Some(ifs[i])
  {
    if i > 0 {
      assert ip !in ifs[0].addresses;
      FindAddressIsFirst(ifs[1..], ip, i - 1);
    }
  }

  lemma {:induction false} FindUsableIsFirst(ifs: seq<Interface>, avoid: Option<string>, i: nat)
    requires i < |ifs| && ifs[i].addresses != [] && Some(ifs[i].name) != avoid
    requires forall j :: 0 <= j < i ==> ifs[j].addresses == [] || Some(ifs[j].name) == avoid
    ensures FindUsable(ifs, avoid) == Some(ifs[i])
  {
    if i > 0 {
      assert ifs[0].addresses == [] || Some(ifs[0].name) == avoid;
      FindUsableIsFirst(ifs[1..], avoid, i - 1);
    }
  }

  /** The primary leg: the first interface that has the address asked for; if there is none, the first that has
      any, on its first address; if there is none, the first of all, without an address. */
  lemma PrimaryExactly(ifs: seq<Interface>, ip: string, i: nat)
    requires i < |ifs|
    ensures ip != "" && ip in ifs[i].addresses && (forall j :: 0 <= j < i ==> ip !in ifs[j].addresses) ==>
              SelectPrimary(ifs, ip) == InterfaceLeg(ifs[i], ip, true)
    ensures (ip == "" || forall j :: 0 <= j < |ifs| ==> ip !in ifs[j].addresses) && ifs[i].addresses != [] &&
            (forall j :: 0 <= j < i ==> ifs[j].addresses == []) ==>
              SelectPrimary(ifs, ip) == InterfaceLeg(ifs[i], ifs[i].addresses[0], true)
    ensures (forall j :: 0 <= j < |ifs| ==> ifs[j].addresses == []) ==> SelectPrimary(ifs, ip) == InterfaceLeg(ifs[0], "", true)
  {
    if ip != "" && ip in ifs[i].addresses && forall j :: 0 <= j < i ==> ip !in ifs[j].addresses {
      FindAddressIsFirst(ifs, ip, i);
    }
    if ifs[i].addresses != [] && forall j :: 0 <= j < i ==> ifs[j].addresses == [] {
      FindUsableIsFirst(ifs, None, i);
    }
  }

  /** The second leg: likewise, but by default it avoids the interface the primary is on, and failing that
      shares the primary's leg. */
  lemma SecondaryExactly(ifs: seq<Interface>, ip: string, ip2: string, i: nat)
    requires i < |ifs|
    ensures var p := SelectPrimary(ifs, ip);
            var s := SelectSecondary(ifs, ip2, p);
            && (ip2 != "" && ip2 in ifs[i].addresses && (forall j :: 0 <= j < i ==> ip2 !in ifs[j].addresses) ==>
                  s == InterfaceLeg(ifs[i], ip2, true))
            && ((ip2 == "" || forall j :: 0 <= j < |ifs| ==> ip2 !in ifs[j].addresses) ==>
                  && (ifs[i].addresses != [] && ifs[i].name != p.chosen.name &&
                      (forall j :: 0 <= j < i ==> ifs[j].addresses == [] || ifs[j].name == p.chosen.name) ==>
                        s == InterfaceLeg(ifs[i], ifs[i].addresses[0], true))
                  && ((forall j :: 0 <= j < |ifs| ==> ifs[j].addresses == [] || ifs[j].name == p.chosen.name) ==> s == p))
  {
    var p := SelectPrimary(ifs, ip);
    if ip2 != "" && ip2 in ifs[i].addresses && forall j :: 0 <= j < i ==> ip2 !in ifs[j].addresses {
      FindAddressIsFirst(ifs, ip2, i);
    }
    if ifs[i].addresses != [] && ifs[i].name != p.chosen.name &&
       forall j :: 0 <= j < i ==> ifs[j].addresses == [] || ifs[j].name == p.chosen.name {
      FindUsableIsFirst(ifs, Some(p.chosen.name), i);
    }
  }

  // ----- connection resources -----

  datatype PortValue = AutoPort | Fixed(value: int)

  /** One entry of transport_params. For a sender `address` is the destination and `interfaceIp` the
      source address; for a receiver they are the multicast address and the interface address. */
  datatype Leg = Leg(rtpEnabled: bool, address: string, interfaceIp: string, port: PortValue)

  datatype Endpoint = Endpoint(masterEnable: bool, legs: seq<Leg>)

  datatype Connection = Connection(staged: Endpoint, active: Endpoint, constraints: seq<seq<string>>,
                                   transportFile: string)

  datatype NodeResource =
    | NodeInfo(clock: string, locked: bool)
    | DeviceInfo(senders: seq<ResourceId>, receivers: seq<ResourceId>)
    | SourceInfo(config: Config)
    | FlowInfo(source: ResourceId, config: Config)
    | SenderInfo(flow: ResourceId, config: Config, interfaces: seq<string>)
    | ReceiverInfo(config: Config, interfaces: seq<string>)

  const AUTO := "auto"

  /** SMPTE ST 2022-7: a redundant stream has two legs, any other stream one. */
  function LegCount(c: Config): nat { if c.redundancy.present then 2 else 1 }

  function OrElse(s: string, fallback: string): string { if s == "" then fallback else s }

  function SenderEndpoint(c: Config): Endpoint {
    Endpoint(c.enable,
             [Leg(c.enable, AUTO, AUTO, AutoPort)] +
             if c.redundancy.present then [Leg(c.enable && c.redundancy.enable, AUTO, AUTO, AutoPort)] else [])
  }

  function ReceiverEndpoint(c: Config, primary: InterfaceLeg, secondary: InterfaceLeg): Endpoint {
    var r := c.redundancy;
    Endpoint(true,
             [Leg(true, c.ip, primary.ip, Fixed(c.port))] +
             if r.present then
               [Leg(true, OrElse(r.ip, c.ip), secondary.ip, Fixed(if 0 < r.port then r.port else c.port))]
             else [])
  }

  function LegsChosen(c: Config, ifs: seq<Interface>): seq<InterfaceLeg> {
    var primary := SelectPrimary(ifs, c.sourceIp);
    if c.redundancy.present then [primary, SelectSecondary(ifs, c.redundancy.sourceIp, primary)] else [primary]
  }

  /** Only selected legs name an interface, so the list can be shorter than the legs. */
  function InterfaceNames(legs: seq<InterfaceLeg>): seq<string> {
    if legs == [] then [] else
    (if legs[0].selected then [legs[0].chosen.name] else []) + InterfaceNames(legs[1..])
  }

  function FreshConnection(k: Kind, c: Config, ifs: seq<Interface>): (r: Connection)
    ensures |r.staged.legs| == |r.active.legs| == |r.constraints| == LegCount(c) && r.transportFile == ""
  {
    var legs := LegsChosen(c, ifs);
    var e := if IsSender(k) then SenderEndpoint(c) else ReceiverEndpoint(c, legs[0], legs[|legs| - 1]);
    Connection(e, e, seq(|legs|, i requires 0 <= i < |legs| => legs[i].chosen.addresses), "")
  }

  /** active_leg_count_matches: whether a running endpoint still fits the new configuration. */
  predicate ActiveFits(e: Endpoint, c: Config) { |e.legs| == LegCount(c) }

  /** The replacement an update installs: freshly built, but a running endpoint that still fits is kept. */
  function Replacement(k: Kind, c: Config, ifs: seq<Interface>, current: Connection): (r: Connection)
    ensures r.active == if |current.active.legs| == LegCount(c) then current.active
                        else FreshConnection(k, c, ifs).active
    ensures |r.staged.legs| == |r.active.legs| == LegCount(c) && r.transportFile == ""
  {
    var built := FreshConnection(k, c, ifs);
    if ActiveFits(current.active, c) then built.(active := current.active) else built
  }
}

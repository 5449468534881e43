/** What an IS-05 activation writes into a cached configuration, against what a configuration publishes. */
module Activations {
  import opened Wrappers
  import opened Naming
  import opened Streams
  import opened Resources
  import opened Publication
  import opened RegistryModel
  import opened RegistrySteps

  /** The endpoint a cached configuration describes. */
  function EndpointOf(c: Config): Endpoint {
    var r := c.redundancy;
    Endpoint(c.enable,
             [Leg(c.enable, c.ip, c.sourceIp, Fixed(c.port))] +
             if r.present then [Leg(r.enable, r.ip, r.sourceIp, Fixed(r.port))] else [])
  }

  /** The endpoint made active can be read back from the cache, up to its two enables, which are kept as one:
      exactly when they agree it is read back as it was. */
  lemma ReadBackExactly(c: Config, e: Endpoint, seen: Option<Media>)
    requires |e.legs| == LegCount(c) && PortsKnown(e)
    ensures var b := EndpointOf(ActivatedConfig(c, e, seen));
            && (b == e <==> e.masterEnable == e.legs[0].rtpEnabled)
            && (e.masterEnable && e.legs[0].rtpEnabled <==> b.masterEnable)
            && b.legs == e.legs[0 := e.legs[0].(rtpEnabled := b.masterEnable)]
  {
    var a := ActivatedConfig(c, e, seen);
    assert EndpointOf(a).legs[0] == e.legs[0].(rtpEnabled := a.enable);
    if c.redundancy.present {
      assert EndpointOf(a).legs[1] == e.legs[1];
    }
  }

  /** Nothing an activation does not speak of changes, and activating the same endpoint again changes nothing. */
  lemma ActivatedTwice(c: Config, e: Endpoint, seen: Option<Media>)
    requires e.legs != [] && PortsKnown(e)
    ensures var a := ActivatedConfig(c, e, seen);
            a.name == c.name && a.redundancy.present == c.redundancy.present && ActivatedConfig(a, e, seen) == a
    ensures seen.None? ==> ActivatedConfig(c, e, seen).media == c.media
    ensures !c.redundancy.present || |e.legs| == 1 ==> ActivatedConfig(c, e, seen).redundancy == c.redundancy
  {}

  lemma {:induction false} FirstUsableIsFound(ifs: seq<Interface>)
    requires FindUsable(ifs, None).Some? && FindUsable(ifs, None).value.addresses[0] != ""
    ensures FindAddress(ifs, FindUsable(ifs, None).value.addresses[0]) == FindUsable(ifs, None)
  {
    if ifs[0].addresses == [] {
      FirstUsableIsFound(ifs[1..]);
    }
  }

  /** Asking for the address that was chosen chooses the same leg again. */
  lemma PrimaryStays(ifs: seq<Interface>, ip: string)
    ensures SelectPrimary(ifs, SelectPrimary(ifs, ip).ip) == SelectPrimary(ifs, ip)
  {
    if FindAddress(ifs, ip).None? && FindUsable(ifs, None).Some? && FindUsable(ifs, None).value.addresses[0] != "" {
      FirstUsableIsFound(ifs);
    }
  }

  /** For the second leg it chooses the same address, if perhaps on another interface that shares it. */
  lemma SecondaryStays(ifs: seq<Interface>, ip: string, ip2: string)
    ensures var p := SelectPrimary(ifs, ip);
            var s := SelectSecondary(ifs, ip2, p);
            SelectSecondary(ifs, s.ip, p).ip == s.ip
  {
    hide FindAddress, FindUsable;
    var p := SelectPrimary(ifs, ip);
    var s := SelectSecondary(ifs, ip2, p);
    var usable := FindUsable(ifs, if p.selected then Some(p.chosen.name) else None);
    if FindAddress(ifs, ip2).None? && usable.Some? && s.ip != "" {
      assert s.ip in usable.value.addresses;
      assert FindAddress(ifs, s.ip).Some?;
    }
  }

  /** A receiver that activates what it published settles. The addresses and ports asked for are in the activated
      configuration, the second leg's replaced by the first's where they are not given; both legs are enabled;
      and publishing it on the same interfaces gives the very same endpoint. */
  lemma ReceiverSettles(k: Kind, c: Config, ifs: seq<Interface>)
    requires !IsSender(k)
    ensures var e := FreshConnection(k, c, ifs).active;
            PortsKnown(e) && e.legs != [] && e == FreshConnection(k, c, ifs).staged &&
            var a := ActivatedConfig(c, e, None);
            && a.enable && a.ip == c.ip && a.port == c.port && a.sourceIp == SelectPrimary(ifs, c.sourceIp).ip
            && (c.redundancy.present ==>
                  && a.redundancy.present && a.redundancy.enable
                  && (c.redundancy.ip != "" ==> a.redundancy.ip == c.redundancy.ip)
                  && (c.redundancy.ip == "" ==> a.redundancy.ip == c.ip)
                  && (c.redundancy.port > 0 ==> a.redundancy.port == c.redundancy.port)
                  && (c.redundancy.port <= 0 ==> a.redundancy.port == c.port)
                  && a.redundancy.sourceIp ==
                     SelectSecondary(ifs, c.redundancy.sourceIp, SelectPrimary(ifs, c.sourceIp)).ip)
            && EndpointOf(a) == e && FreshConnection(k, a, ifs).active == e
  {
    var e := FreshConnection(k, c, ifs).active;
    var a := ActivatedConfig(c, e, None);
    PrimaryStays(ifs, c.sourceIp);
    SecondaryStays(ifs, c.sourceIp, c.redundancy.sourceIp);
    ReadBackExactly(c, e, None);
  }

  /** A sender's published endpoint is enabled as its configuration says, the second leg only if both it and the
      stream are, and says "auto" throughout: until that is resolved no activation of it reaches the caches. */
  lemma UnresolvedSenderIsIgnored(k: Kind, c: Config, ifs: seq<Interface>)
    requires IsSender(k)
    ensures var e := FreshConnection(k, c, ifs).active;
            && e == FreshConnection(k, c, ifs).staged && |e.legs| == LegCount(c)
            && (e.masterEnable <==> c.enable) && (e.legs[0].rtpEnabled <==> c.enable)
            && (c.redundancy.present ==> (e.legs[1].rtpEnabled <==> c.enable && c.redundancy.enable))
            && (forall i :: 0 <= i < |e.legs| ==>
                  e.legs[i].address == e.legs[i].interfaceIp == "auto" && e.legs[i].port == AutoPort)
            && forall rid :: !Accepted(rid, e)
  {
    assert FreshConnection(k, c, ifs).active.legs[0].port.AutoPort?;
  }

  /** Each leg is constrained to the addresses of its own interface; a receiver's legs satisfy that themselves
      unless no interface has an address. */
  lemma LegsMeetTheirConstraints(k: Kind, c: Config, ifs: seq<Interface>, i: nat)
    requires i < LegCount(c)
    ensures var p := SelectPrimary(ifs, c.sourceIp);
            var leg := if i == 0 then p else SelectSecondary(ifs, c.redundancy.sourceIp, p);
            var built := FreshConnection(k, c, ifs);
            && built.constraints[i] == leg.chosen.addresses
            && (!IsSender(k) ==> built.active.legs[i].interfaceIp == leg.ip)
            && ((exists j :: 0 <= j < |ifs| && ifs[j].addresses != []) && !IsSender(k) ==>
                  built.active.legs[i].interfaceIp in built.constraints[i])
  {
    hide FindAddress, FindUsable;
    var usable := FindUsable(ifs, None);
  }

  /** What IS-04 says of a stream: its configuration, the links from sender to flow to source, and the name of
      each leg's interface in order, or none on a host without interfaces. */
  lemma PublishedExactly(seed: string, k: Kind, id: string, c: Config, ifs: seq<Interface>)
    ensures var built := Built(seed, k, id, c, ifs);
            var p := SelectPrimary(ifs, c.sourceIp);
            var s := SelectSecondary(ifs, c.redundancy.sourceIp, p);
            var names := if ifs == [] then [] else if c.redundancy.present then [p.chosen.name, s.chosen.name] else [p.chosen.name];
            && ConnId(seed, k, id) in built
            && built[ConnId(seed, k, id)] == (if IsSender(k) then SenderInfo(FlowId(seed, k, id), c, names) else ReceiverInfo(c, names))
            && (IsSender(k) ==>
                  FlowId(seed, k, id) in built && built[FlowId(seed, k, id)] == FlowInfo(SourceId(seed, k, id), c) &&
                  SourceId(seed, k, id) in built && built[SourceId(seed, k, id)] == SourceInfo(c))
  {
    hide SelectPrimary, SelectSecondary, NamesFor;
    NamesExactly(c, ifs);
  }

  lemma NamesExactly(c: Config, ifs: seq<Interface>)
    ensures var p := SelectPrimary(ifs, c.sourceIp);
            var s := SelectSecondary(ifs, c.redundancy.sourceIp, p);
            NamesFor(c, ifs) ==
            if ifs == [] then [] else if c.redundancy.present then [p.chosen.name, s.chosen.name] else [p.chosen.name]
  {
    var p := SelectPrimary(ifs, c.sourceIp);
    var s := SelectSecondary(ifs, c.redundancy.sourceIp, p);
    assert p.selected == s.selected == (ifs != []);
    NamesOfLegs(p, s);
  }

  lemma NamesOfLegs(p: InterfaceLeg, s: InterfaceLeg)
    ensures InterfaceNames([p]) == if p.selected then [p.chosen.name] else []
    ensures InterfaceNames([p, s]) == InterfaceNames([p]) + InterfaceNames([s])
  {
    assert [p][1..] == [] && [p, s][1..] == [s];
  }

  // ----- what an activation does -----

  /** Which activations do anything, and what they call: one without legs does nothing; a receiver's whose port
      is no number throws; a sender's whose port is none or out of range does nothing; all others edit and report
      the stream their id names, once, if it is cached. */
  lemma ActivationOutcome(a: State, b: State, rid: ResourceId, e: Endpoint, seen: Option<Media>, r: Outcome, fired: seq<Fired>)
    requires ActivationDone(a, b, rid, e, seen, r, fired)
    ensures var read := if |e.legs| < 2 then e.legs else e.legs[..2];
            var numbers := forall i :: 0 <= i < |read| ==> read[i].port.Fixed?;
            var inRange := forall i :: 0 <= i < |read| ==> read[i].port.Fixed? && 0 <= read[i].port.value < 65536;
            var takes := e.legs != [] && numbers && (rid.key.rtype.SenderType? ==> inRange);
            && (r.Threw? <==> rid.key.rtype.ReceiverType? && e.legs != [] && !numbers)
            && (!takes ==> b == a && fired == [])
            && (takes && TargetOf(a, rid) == None ==> b == a && fired == [])
            && (takes && TargetOf(a, rid).Some? ==> |fired| == 1)
  {
    hide View, OwnerOf;
    var read := if |e.legs| < 2 then e.legs else e.legs[..2];
    assert forall i :: 0 <= i < |read| ==> read[i] == e.legs[i];
  }

  /** What was observed in a transport file is filed field by field. A format that could not be told leaves the old
      one; capabilities, and whatever was not observed, stay. */
  predicate Filed(before: Media, seen: Option<Media>, after: Media) {
    match seen
    case Some(VideoIn(_, _, _, format, colorspace, transfer)) =>
      if before.VideoIn? then
        && after.VideoIn? && after.colorspace == colorspace && after.transfer == transfer
        && (format != "" ==> after.format == format) && (format == "" ==> after.format == before.format)
        && after.formats == before.formats && after.colorspaces == before.colorspaces && after.transfers == before.transfers
      else after == before
    case Some(AudioIn(channelCount, bitDepth, sampleRate, packetTime)) =>
      if before.AudioIn? then
        after.AudioIn? && after.channelCount == channelCount && after.bitDepth == bitDepth &&
        after.sampleRate == sampleRate && after.packetTime == packetTime
      else after == before
    case _ => after == before
  }

  lemma ActivatedMedia(c: Config, e: Endpoint, seen: Option<Media>)
    requires e.legs != [] && PortsKnown(e)
    ensures Filed(c.media, seen, ActivatedConfig(c, e, seen).media)
  {}

  /** An activation files what was observed in a receiver's transport file, and nothing for a sender; the stored
      entry is the callback's argument. */
  lemma ActivationFilesWhatItSaw(a: State, b: State, rid: ResourceId, e: Endpoint, seen: Option<Media>, r: Outcome,
                                 fired: seq<Fired>)
    requires Consistent(a) && ActivationDone(a, b, rid, e, seen, r, fired) && fired != []
    ensures |fired| == 1 && TargetOf(a, rid) == Some((fired[0].kind, fired[0].entry.id))
    ensures var (k, entry) := (fired[0].kind, fired[0].entry);
            && entry in b.streams.Of(k) && entry.id in a.Show(k)
            && b.Show(k) == a.Show(k)[entry.id := entry.config]
            && Filed(a.Show(k)[entry.id].media, if IsSender(k) then None else seen, entry.config.media)
  {
    hide View, EntryActivated, Agrees, UniqueIds, ReplaceById, Observe, Stamp, ActivatedConfig, Filed, OwnerOf;
    var t := TargetOf(a, rid).value;
    EntryActivatedRecaches(a, b, t.0, t.1, e, seen, fired);
    RecachedValid(a, t.0, fired[0].entry);
    StoredEntry(a, b, t.0, t.1, e, seen, fired);
    ActivatedMedia(a.Show(t.0)[t.1], e, SeenBy(t.0, seen));
  }

  lemma StoredEntry(a: State, b: State, k: Kind, id: string, e: Endpoint, seen: Option<Media>, fired: seq<Fired>)
    requires e.legs != [] && PortsKnown(e) && EntryActivated(a, b, k, id, e, seen, fired)
    ensures fired != [] && fired[0].entry in b.streams.Of(k)
  {
    hide ActivatedConfig;
    var xs := a.streams.Of(k);
    var i :| 0 <= i < |xs| && xs[i].id == id &&
             var entry := xs[i].(config := ActivatedConfig(xs[i].config, e, SeenBy(k, seen)));
             b == a.(streams := With(a.streams, k, xs[i := entry])) && fired == [FiredFor(k, entry)];
    assert b.streams.Of(k)[i] == fired[0].entry;
  }
}

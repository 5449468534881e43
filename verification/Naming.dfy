/** The naming scheme of src/node_implementation.cpp: every resource id is the repeatable UUID of the
    seed id and a path built from the resource type, the port and the stream's own id. */
module Naming {
  import opened Wrappers

  datatype ResourceType = NodeType | DeviceType | SourceType | FlowType | SenderType | ReceiverType

  /** The declared ports; `NoPort` is the default argument of make_id. */
  datatype Port = NoPort | Video | Audio | Data | Mux | Temperature | Burn | Nonsense | Catcall

  datatype Key = Key(rtype: ResourceType, port: Port, id: string)

  /** A repeatable UUID. The hash is taken to be injective on the seed and the path it is given, and
      IdsAreTheirKeys below shows the path is injective on the keys in use, so an id is kept as its key. */
  datatype ResourceId = Repeatable(seed: string, key: Key)

  const ROOT := "/x-nmos/node/"

  function TypeName(t: ResourceType): string {
    match t
    case NodeType => "node"
    case DeviceType => "device"
    case SourceType => "source"
    case FlowType => "flow"
    case SenderType => "sender"
    case ReceiverType => "receiver"
  }

  function PortName(p: Port): string {
    match p
    case NoPort => ""
    case Video => "VIDEO"
    case Audio => "AUDIO"
    case Data => "DATA"
    case Mux => "MUX"
    case Temperature => "t"
    case Burn => "b"
    case Nonsense => "s"
    case Catcall => "c"
  }

  function Tail(k: Key): string { PortName(k.port) + k.id }

  function Path(k: Key): string { ROOT + TypeName(k.rtype) + "/" + Tail(k) }

  /** The keys the node really uses: a stream id under a port, or the node and device with neither. */
  predicate Canonical(k: Key) {
    k.port == NoPort ==> k.id == ""
  }

  // ----- reading a path back -----

  function ParseType(s: string): (r: Option<ResourceType>)
    ensures r.Some? ==> TypeName(r.value) + "/" <= s
  {
    if "node/" <= s then Some(NodeType)
    else if "device/" <= s then Some(DeviceType)
    else if "source/" <= s then Some(SourceType)
    else if "flow/" <= s then Some(FlowType)
    else if "sender/" <= s then Some(SenderType)
    else if "receiver/" <= s then Some(ReceiverType)
    else None
  }

  function ParsePort(s: string): (r: Option<Port>)
    ensures r.Some? ==> PortName(r.value) <= s && (r.value == NoPort ==> s == "")
  {
    if s == "" then Some(NoPort)
    else if "VIDEO" <= s then Some(Video)
    else if "AUDIO" <= s then Some(Audio)
    else if "DATA" <= s then Some(Data)
    else if "MUX" <= s then Some(Mux)
    else if "t" <= s then Some(Temperature)
    else if "b" <= s then Some(Burn)
    else if "s" <= s then Some(Nonsense)
    else if "c" <= s then Some(Catcall)
    else None
  }

  function ParseTail(t: ResourceType, s: string): (r: Option<Key>) {
    var p := ParsePort(s);
    if p.None? then None else Some(Key(t, p.value, s[|PortName(p.value)|..]))
  }

  function ParseTyped(s: string): (r: Option<Key>) {
    var t := ParseType(s);
    if t.None? then None else ParseTail(t.value, s[|TypeName(t.value)| + 1..])
  }

  function Parse(path: string): (r: Option<Key>) {
    if ROOT <= path then ParseTyped(path[|ROOT|..]) else None
  }

  lemma ParsePortOfTail(p: Port, id: string)
    requires p == NoPort ==> id == ""
    ensures ParsePort(PortName(p) + id) == Some(p)
  {
    var s := PortName(p) + id;
    assert p != NoPort ==> s[0] == PortName(p)[0];
  }

  lemma ParseTypeOfName(t: ResourceType, rest: string)
    ensures ParseType(TypeName(t) + "/" + rest) == Some(t)
  {
    var s := TypeName(t) + "/" + rest;
    assert s[0] == TypeName(t)[0] && s[1] == TypeName(t)[1];
    assert TypeName(t) + "/" <= s;
  }

  lemma CutPrefix(a: string, b: string)
    ensures (a + b)[|a|..] == b && a <= a + b
  {}

  /** Every path in use reads back to the triple it was made from. */
  lemma PathRoundTrip(k: Key)
    requires Canonical(k)
    ensures Parse(Path(k)) == Some(k)
  {
    var named := TypeName(k.rtype) + "/";
    CutPrefix(ROOT, named + Tail(k));
    assert Path(k) == ROOT + (named + Tail(k));
    ParseTypeOfName(k.rtype, Tail(k));
    CutPrefix(named, Tail(k));
    ParsePortOfTail(k.port, k.id);
    CutPrefix(PortName(k.port), k.id);
  }

  lemma CutAndJoin(a: string, s: string)
    requires a <= s
    ensures a + s[|a|..] == s
  {}

  /** Only paths make_id can produce are read, and reading loses nothing. */
  lemma ParseIsPath(path: string)
    ensures Parse(path).Some? ==> Canonical(Parse(path).value) && Path(Parse(path).value) == path
  {
    hide ParseType, ParsePort, TypeName, PortName;
    if Parse(path).Some? {
      var rest := path[|ROOT|..];
      var t := ParseType(rest).value;
      var named := TypeName(t) + "/";
      var tail := rest[|named|..];
      var p := ParsePort(tail).value;
      CutAndJoin(ROOT, path);
      CutAndJoin(named, rest);
      CutAndJoin(PortName(p), tail);
      assert Path(Key(t, p, tail[|PortName(p)|..])) == ROOT + (named + tail);
    }
  }

  /** Two paths are the same exactly when type and the text after the type are. Nothing separates a port
      from the id, so this is all a path distinguishes. */
  lemma PathsCollideExactly(a: Key, b: Key)
    ensures Path(a) == Path(b) <==> a.rtype == b.rtype && Tail(a) == Tail(b)
  {
    var na, nb := TypeName(a.rtype) + "/", TypeName(b.rtype) + "/";
    assert Path(a) == ROOT + (na + Tail(a)) && Path(b) == ROOT + (nb + Tail(b));
    CutPrefix(ROOT, na + Tail(a));
    CutPrefix(ROOT, nb + Tail(b));
    ParseTypeOfName(a.rtype, Tail(a));
    ParseTypeOfName(b.rtype, Tail(b));
    CutPrefix(na, Tail(a));
    CutPrefix(nb, Tail(b));
  }

  /** The keys in use never collide, whatever characters the stream ids hold. */
  lemma PathInjective(a: Key, b: Key)
    requires Canonical(a) && Canonical(b)
    ensures Path(a) == Path(b) <==> a == b
  {
    PathRoundTrip(a);
    PathRoundTrip(b);
  }

  /** An id given without a port is outside that guarantee: it can spell a port name itself. */
  lemma UnportedIdsCanCollide()
    ensures var a, b := Key(SenderType, NoPort, "VIDEO1"), Key(SenderType, Video, "1");
            a != b && !Canonical(a) && Path(a) == Path(b)
  {
    var a, b := Key(SenderType, NoPort, "VIDEO1"), Key(SenderType, Video, "1");
    assert Tail(a) == "VIDEO1" == Tail(b);
    PathsCollideExactly(a, b);
  }

  function MakeId(seed: string, t: ResourceType, p: Port, id: string): ResourceId {
    Repeatable(seed, Key(t, p, id))
  }

  /** What is hashed tells two ids in use apart exactly when their seeds or keys differ. */
  lemma IdsAreTheirKeys(a: ResourceId, b: ResourceId)
    requires Canonical(a.key) && Canonical(b.key)
    ensures a.seed == b.seed && Path(a.key) == Path(b.key) <==> a == b
  {
    PathInjective(a.key, b.key);
  }
}

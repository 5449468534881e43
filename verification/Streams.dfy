/** The streams a snapshot lists and the node caches (src/node.h), and when the daemon takes two of them
    to be the same configuration (src/daemon/dto.cpp). */
module Streams {
  import opened Wrappers

  datatype Kind = VideoSender | AudioSender | AncillarySender | VideoReceiver | AudioReceiver | AncillaryReceiver

  predicate IsSender(k: Kind) { k.VideoSender? || k.AudioSender? || k.AncillarySender? }

  /** `port` has no initialiser in the source, so it is whatever integer the item carries. */
  datatype Redundancy = Redundancy(present: bool, enable: bool, sourceIp: string, ip: string, port: int)

  /** The fields only one kind of stream has. */
  datatype Media =
    | VideoOut(videoFormat: string, colorspace: string, transfer: string, pgFormat: int)
    | AudioOut(channelCount: int, bitDepth: int, sampleRate: int)
    | AncillaryOut(format: string)
    | VideoIn(formats: seq<string>, colorspaces: seq<string>, transfers: seq<string>,
              format: string, colorspace: string, transfer: string)
    | AudioIn(channelCount: int, bitDepth: int, sampleRate: int, packetTime: real)
    | AncillaryIn(format: string)

  datatype Config = Config(name: string, enable: bool, sourceIp: string, ip: string, port: int,
                           redundancy: Redundancy, media: Media)

  /** `senderId` is filled in by the node for senders; a snapshot leaves it alone. */
  datatype Stream<+Rid> = Stream(id: string, senderId: Option<Rid>, config: Config)

  // ----- equivalence -----

  predicate EquivalentRedundancy(a: Redundancy, b: Redundancy) {
    a.present == b.present && a.enable == b.enable && a.sourceIp == b.sourceIp && a.ip == b.ip && a.port == b.port
  }

  predicate EquivalentMedia(a: Media, b: Media) {
    match (a, b)
    case (VideoOut(f, c, t, g), VideoOut(f', c', t', g')) => f == f' && c == c' && t == t' && g == g'
    case (AudioOut(n, d, r), AudioOut(n', d', r')) => n == n' && d == d' && r == r'
    case (AncillaryOut(f), AncillaryOut(f')) => f == f'
    case (VideoIn(fs, cs, ts, f, c, t), VideoIn(fs', cs', ts', f', c', t')) =>
      f == f' && c == c' && t == t' && fs == fs' && cs == cs' && ts == ts'
    case (AudioIn(n, d, r, p), AudioIn(n', d', r', p')) => n == n' && d == d' && r == r' && p == p'
    case (AncillaryIn(f), AncillaryIn(f')) => f == f'
    case _ => false
  }

  predicate Equivalent<R>(a: Stream<R>, b: Stream<R>) {
    a.id == b.id && a.config.name == b.config.name && a.config.enable == b.config.enable &&
    a.config.sourceIp == b.config.sourceIp && a.config.ip == b.config.ip && a.config.port == b.config.port &&
    EquivalentRedundancy(a.config.redundancy, b.config.redundancy) &&
    EquivalentMedia(a.config.media, b.config.media)
  }

  /** The field-by-field comparisons skip nothing but the sender id. */
  lemma EquivalentIsSameConfig<R>(a: Stream<R>, b: Stream<R>)
    ensures Equivalent(a, b) <==> a.id == b.id && a.config == b.config
  {
    if a.id == b.id && a.config == b.config {
      match a.config.media
      case VideoOut(_, _, _, _) =>
      case AudioOut(_, _, _) =>
      case AncillaryOut(_) =>
      case VideoIn(_, _, _, _, _, _) =>
      case AudioIn(_, _, _, _) =>
      case AncillaryIn(_) =>
    }
  }

  // ----- lists of streams -----

  function Ids<R>(xs: seq<Stream<R>>): set<string> { set i | 0 <= i < |xs| :: xs[i].id }

  predicate UniqueIds<R>(xs: seq<Stream<R>>) {
    forall i, j :: 0 <= i < j < |xs| ==> xs[i].id != xs[j].id
  }

  /** The configuration filed under each id; the first item wins when an id is listed twice. */
  function View<R>(xs: seq<Stream<R>>): (m: map<string, Config>)
    ensures m.Keys == Ids(xs)
  {
    if xs == [] then map[] else
      var last := |xs| - 1;
      assert Ids(xs) == Ids(xs[..last]) + {xs[last].id};
      if xs[last].id in View(xs[..last]) then View(xs[..last])
      else View(xs[..last])[xs[last].id := xs[last].config]
  }

  lemma ViewAppend<R>(xs: seq<Stream<R>>, x: Stream<R>)
    ensures View(xs + [x]) == if x.id in Ids(xs) then View(xs) else View(xs)[x.id := x.config]
    ensures Ids(xs + [x]) == Ids(xs) + {x.id}
  {
    assert (xs + [x])[..|xs|] == xs;
  }

  /** View, said without recursion: an id shows the configuration of its first occurrence. */
  lemma {:induction false} ViewFirstWins<R>(xs: seq<Stream<R>>, i: nat)
    requires i < |xs| && forall j :: 0 <= j < i ==> xs[j].id != xs[i].id
    ensures xs[i].id in View(xs) && View(xs)[xs[i].id] == xs[i].config
  {
    var last := |xs| - 1;
    if i < last {
      ViewFirstWins(xs[..last], i);
    }
  }

  lemma {:induction false} ViewOfUnique<R>(xs: seq<Stream<R>>, i: nat)
    requires UniqueIds(xs) && i < |xs|
    ensures xs[i].id in View(xs) && View(xs)[xs[i].id] == xs[i].config
  {
    ViewFirstWins(xs, i);
  }

  // ----- the six lists together -----

  /** The six vectors a snapshot carries and Node::Impl caches, one per kind. */
  datatype Lists<+Rid> = Lists(vectors: map<Kind, seq<Stream<Rid>>>)
  {
    function Of(k: Kind): seq<Stream<Rid>> {
      if k in vectors then vectors[k] else []
    }

    predicate HasAnyStreams() {
      Of(VideoSender) != [] || Of(AudioSender) != [] || Of(AncillarySender) != [] ||
      Of(VideoReceiver) != [] || Of(AudioReceiver) != [] || Of(AncillaryReceiver) != []
    }

    predicate Complete() { forall k: Kind :: k in vectors }
  }

  function With<R>(ls: Lists<R>, k: Kind, xs: seq<Stream<R>>): (r: Lists<R>)
    ensures forall k' :: r.Of(k') == if k' == k then xs else ls.Of(k')
    ensures ls.Complete() ==> r.Complete()
  {
    Lists(ls.vectors[k := xs])
  }

  const ALL_KINDS := {VideoSender, AudioSender, AncillarySender, VideoReceiver, AudioReceiver, AncillaryReceiver}

  lemma EveryKind(k: Kind)
    ensures k in ALL_KINDS
  {}

  function Empty<R>(): (r: Lists<R>)
    ensures r.Complete() && forall k :: r.Of(k) == []
  {
    assert forall k: Kind :: k in ALL_KINDS by { forall k: Kind { EveryKind(k); } }
    Lists(map k | k in ALL_KINDS :: [])
  }

  lemma SameLists<R>(a: Lists<R>, b: Lists<R>)
    requires a.Complete() && b.Complete() && forall k :: a.Of(k) == b.Of(k)
    ensures a == b
  {
    assert forall k :: a.vectors[k] == a.Of(k) == b.Of(k) == b.vectors[k];
  }

  /** A snapshot has streams exactly when some kind lists an id, even if ids repeat. */
  lemma HasAnyStreamsMeansSomeId<R>(ls: Lists<R>)
    ensures ls.HasAnyStreams() <==> exists k :: Ids(ls.Of(k)) != {}
  {
    forall k: Kind ensures ls.Of(k) != [] <==> Ids(ls.Of(k)) != {} {
      if ls.Of(k) != [] {
        assert ls.Of(k)[0].id in Ids(ls.Of(k));
      }
    }
    forall k: Kind ensures Ids(ls.Of(k)) != {} ==> ls.HasAnyStreams() {
      EveryKind(k);
    }
  }
}

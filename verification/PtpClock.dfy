/** The PTP grandmaster id as the node publishes it (src/node.cpp) and the choice of the clock entry it
    comes from (src/daemon/dto.cpp). Characters are bytes; classification is that of the "C" locale. */
module PtpClock {
  import opened Wrappers

  const DEFAULT_DOMAIN := 127
  const UNKNOWN_CLOCK := "00-00-00-00-00-00-00-00"

  predicate IsSpace(c: char) { c == ' ' || '\t' <= c <= '\r' }

  predicate IsDigit(c: char) { '0' <= c <= '9' }

  predicate IsXDigit(c: char) { IsDigit(c) || 'a' <= c <= 'f' || 'A' <= c <= 'F' }

  predicate IsLowerHex(c: char) { IsDigit(c) || 'a' <= c <= 'f' }

  function ToLower(c: char): char { if 'A' <= c <= 'Z' then c - 'A' + 'a' else c }

  predicate Dropped(c: char) { c == ':' || c == '-' || IsSpace(c) }

  predicate IsValidGmid(s: string) {
    |s| == 23 && forall i :: 0 <= i < 23 ==> if i % 3 == 2 then s[i] == '-' else IsLowerHex(s[i])
  }

  /** The id without separators and in lower case: remove_if followed by transform. */
  function Bare(s: string): string {
    if s == "" then "" else
    Bare(s[..|s| - 1]) + (if Dropped(s[|s| - 1]) then "" else [ToLower(s[|s| - 1])])
  }

  /** Pairs of digits with a dash between them. */
  function Dashed(h: string): string
    requires |h| % 2 == 0
  {
    if |h| <= 2 then h else Dashed(h[..|h| - 2]) + "-" + h[|h| - 2..]
  }

  function Normalize(s: string): string {
    var h := Bare(s);
    if |h| == 16 && forall i :: 0 <= i < 16 ==> IsXDigit(h[i]) then Dashed(h) else ""
  }

  /** normalize_ptp_gmid: strips and lowers a copy, then builds the result two digits at a time. */
  method NormalizePtpGmid(gmid: string) returns (normalized: string)
    ensures normalized == Normalize(gmid)
  {
    var bare := "";
    for i := 0 to |gmid|
      invariant bare == Bare(gmid[..i])
    {
      assert gmid[..i + 1][..i] == gmid[..i];
      if !Dropped(gmid[i]) {
        bare := bare + [ToLower(gmid[i])];
      }
    }
    assert gmid[..|gmid|] == gmid;
    if |bare| != 16 || exists i :: 0 <= i < 16 && !IsXDigit(bare[i]) {
      return "";
    }
    normalized := "";
    var index := 0;
    while index < |bare|
      invariant 0 <= index <= 16 && index % 2 == 0
      invariant normalized == Dashed(bare[..index])
    {
      if normalized != "" {
        normalized := normalized + "-";
      }
      assert bare[..index + 2][..index] == bare[..index];
      assert bare[..index + 2][index..] == bare[index..index + 2];
      normalized := normalized + bare[index..index + 2];
      index := index + 2;
    }
    assert bare[..16] == bare;
  }

  lemma {:induction false} BareIsLower(s: string)
    ensures forall i :: 0 <= i < |Bare(s)| ==> !('A' <= Bare(s)[i] <= 'Z') && !Dropped(Bare(s)[i])
  {
    if s != "" {
      BareIsLower(s[..|s| - 1]);
    }
  }

  lemma {:induction false} DashedShape(h: string)
    requires |h| % 2 == 0 && |h| > 0
    ensures |Dashed(h)| == |h| / 2 * 3 - 1
    ensures forall i :: 0 <= i < |Dashed(h)| ==> Dashed(h)[i] == if i % 3 == 2 then '-' else h[i / 3 * 2 + i % 3]
  {
    if |h| > 2 {
      DashedShape(h[..|h| - 2]);
    }
  }

  lemma {:induction false} BareAppend(s: string, t: string)
    ensures Bare(s + t) == Bare(s) + Bare(t)
  {
    if t == "" {
      assert s + t == s;
    } else {
      BareAppend(s, t[..|t| - 1]);
      assert (s + t)[..|s + t| - 1] == s + t[..|t| - 1];
    }
  }

  lemma {:induction false} BareOfBare(h: string)
    requires forall i :: 0 <= i < |h| ==> IsLowerHex(h[i])
    ensures Bare(h) == h
  {
    if h != "" {
      BareOfBare(h[..|h| - 1]);
      assert h == h[..|h| - 1] + [h[|h| - 1]];
    }
  }

  lemma BareOfDash()
    ensures Bare("-") == ""
  {
    assert Bare("-") == Bare("-"[..0]);
  }

  lemma {:induction false} BareUndoesDashed(h: string)
    requires |h| % 2 == 0 && forall i :: 0 <= i < |h| ==> IsLowerHex(h[i])
    ensures Bare(Dashed(h)) == h
  {
    if |h| <= 2 {
      BareOfBare(h);
    } else {
      var front, back := h[..|h| - 2], h[|h| - 2..];
      calc {
        Bare(Dashed(h));
        Bare(Dashed(front) + "-" + back);
        { BareAppend(Dashed(front) + "-", back); }
        Bare(Dashed(front) + "-") + Bare(back);
        { BareAppend(Dashed(front), "-"); BareOfDash(); }
        Bare(Dashed(front)) + Bare(back);
        { BareUndoesDashed(front); BareOfBare(back); }
        front + back;
      }
    }
  }

  /** Whatever is asked for, the result is empty or a well-formed clock id. */
  lemma NormalizeYieldsValid(s: string)
    ensures Normalize(s) == "" || IsValidGmid(Normalize(s))
  {
    if Normalize(s) != "" {
      BareIsLower(s);
      DashedShape(Bare(s));
    }
  }

  /** A well-formed id is left as it is. */
  lemma NormalizeFixesValid(s: string)
    requires IsValidGmid(s)
    ensures Normalize(s) == s
  {
    var h := seq(16, i requires 0 <= i < 16 => s[i / 2 * 3 + i % 2]);
    DashedShape(h);
    assert forall i :: 0 <= i < 16 ==> IsLowerHex(h[i]) by {
      forall i | 0 <= i < 16 ensures IsLowerHex(h[i]) {
        assert (i / 2 * 3 + i % 2) % 3 != 2;
      }
    }
    forall j | 0 <= j < 23 ensures Dashed(h)[j] == s[j] {
      if j % 3 != 2 {
        var i := j / 3 * 2 + j % 3;
        assert i / 2 * 3 + i % 2 == j;
      }
    }
    assert Dashed(h) == s;
    BareUndoesDashed(h);
  }

  /** The normal forms are exactly the well-formed ids. */
  lemma ValidExactlyNormal(s: string)
    ensures IsValidGmid(s) <==> s != "" && Normalize(s) == s
  {
    NormalizeYieldsValid(s);
    if IsValidGmid(s) {
      NormalizeFixesValid(s);
    }
  }

  lemma NormalizeIdempotent(s: string)
    ensures Normalize(Normalize(s)) == Normalize(s)
  {
    NormalizeYieldsValid(s);
    if Normalize(s) != "" {
      NormalizeFixesValid(Normalize(s));
    }
  }

  // ----- the clock a snapshot asks for -----

  /** The fields of a PtpClockDto entry no selector reads; two snapshots are still compared on them. */
  datatype Detail = Detail(accuracy: int, clockClass: int, priority1: int, priority2: int, masterPortId: string,
                           utcOffset: int, offset: real, variance: int)

  datatype Entry = Entry(identity: string, active: bool, connected: bool, initialized: bool, locked: bool, domain: int,
                         detail: Detail)

  predicate Usable(e: Entry) { e.active && e.connected && e.initialized }

  predicate Named(e: Entry) { Usable(e) && e.identity != "" }

  /** The entry effective_locked and effective_ptp_domain look at. */
  function FirstUsable(es: seq<Entry>): Option<Entry> {
    if es == [] then None else if Usable(es[0]) then Some(es[0]) else FirstUsable(es[1..])
  }

  /** The entry effective_gmid looks at: it must name a grandmaster as well. */
  function FirstNamed(es: seq<Entry>): Option<Entry> {
    if es == [] then None else if Named(es[0]) then Some(es[0]) else FirstNamed(es[1..])
  }

  /** `e` meets a condition nothing before it meets. */
  ghost predicate IsFirst(es: seq<Entry>, e: Entry, p: Entry -> bool) {
    exists i :: 0 <= i < |es| && es[i] == e && p(e) && forall j :: 0 <= j < i ==> !p(es[j])
  }

  lemma IsFirstInRest(es: seq<Entry>, e: Entry, p: Entry -> bool)
    requires es != [] && !p(es[0])
    ensures IsFirst(es, e, p) <==> IsFirst(es[1..], e, p)
  {
    if IsFirst(es[1..], e, p) {
      var i :| 0 <= i < |es[1..]| && es[1..][i] == e && p(e) && forall j :: 0 <= j < i ==> !p(es[1..][j]);
      assert es[i + 1] == e && forall j :: 0 <= j < i + 1 ==> j == 0 || es[j] == es[1..][j - 1];
    }
    if IsFirst(es, e, p) {
      var i :| 0 <= i < |es| && es[i] == e && p(e) && forall j :: 0 <= j < i ==> !p(es[j]);
      assert es[1..][i - 1] == e && forall j :: 0 <= j < i - 1 ==> es[1..][j] == es[j + 1];
    }
  }

  /** The selectors look at the first usable entry and at the first one that names a grandmaster as well. */
  lemma {:induction false} FirstEntries(es: seq<Entry>, e: Entry)
    ensures FirstUsable(es) == Some(e) <==> IsFirst(es, e, Usable)
    ensures FirstNamed(es) == Some(e) <==> IsFirst(es, e, Named)
  {
    if es != [] {
      FirstEntries(es[1..], e);
      if !Usable(es[0]) {
        IsFirstInRest(es, e, Usable);
      }
      if !Named(es[0]) {
        IsFirstInRest(es, e, Named);
      }
    }
  }

  predicate InDomain(d: int) { 0 <= d <= 127 }

  function ClampDomain(d: int): (r: int)
    ensures InDomain(r) && (InDomain(d) ==> r == d)
  {
    if 0 <= d <= 127 then d else DEFAULT_DOMAIN
  }

  function Gmid(es: seq<Entry>): string { if FirstNamed(es).Some? then FirstNamed(es).value.identity else "" }

  predicate Locked(es: seq<Entry>) { FirstUsable(es).Some? && FirstUsable(es).value.locked }

  function Domain(es: seq<Entry>): int {
    if FirstUsable(es).Some? then ClampDomain(FirstUsable(es).value.domain) else DEFAULT_DOMAIN
  }

  /** Lock state and domain are the first usable entry's, the domain 127 if it is none; with no usable entry the
      clock is unlocked in domain 127. */
  lemma FirstEntryDecides(es: seq<Entry>, e: Entry)
    ensures IsFirst(es, e, Usable) ==>
              (Locked(es) <==> e.locked) && Domain(es) == if 0 <= e.domain <= 127 then e.domain else 127
    ensures (forall i :: 0 <= i < |es| ==> !Usable(es[i])) ==> !Locked(es) && Domain(es) == 127
    ensures IsFirst(es, e, Named) ==> Gmid(es) == e.identity
    ensures (forall i :: 0 <= i < |es| ==> !Named(es[i])) ==> Gmid(es) == ""
  {
    FirstEntries(es, e);
    if FirstUsable(es).Some? {
      FirstEntries(es, FirstUsable(es).value);
    }
    if FirstNamed(es).Some? {
      FirstEntries(es, FirstNamed(es).value);
    }
  }

  method EffectiveGmid(es: seq<Entry>) returns (gmid: string)
    ensures gmid == Gmid(es)
  {
    for i := 0 to |es|
      invariant FirstNamed(es) == FirstNamed(es[i..])
    {
      if Named(es[i]) {
        return es[i].identity;
      }
    }
    return "";
  }

  method EffectiveLocked(es: seq<Entry>) returns (locked: bool)
    ensures locked == Locked(es)
  {
    for i := 0 to |es|
      invariant FirstUsable(es) == FirstUsable(es[i..])
    {
      if Usable(es[i]) {
        return es[i].locked;
      }
    }
    return false;
  }

  method EffectivePtpDomain(es: seq<Entry>) returns (domain: int)
    ensures domain == Domain(es) && InDomain(domain)
  {
    for i := 0 to |es|
      invariant FirstUsable(es) == FirstUsable(es[i..])
    {
      if Usable(es[i]) {
        return ClampDomain(es[i].domain);
      }
    }
    return DEFAULT_DOMAIN;
  }

  /** The three selectors read one and the same entry unless the first usable entry has no grandmaster id and
      a later one has; then the published id is paired with another clock's lock state and domain. */
  lemma {:induction false} SelectorsAgreeExactly(es: seq<Entry>)
    ensures FirstNamed(es).Some? && FirstNamed(es) != FirstUsable(es) <==>
            FirstUsable(es).Some? && FirstUsable(es).value.identity == "" &&
            exists i :: 0 <= i < |es| && Named(es[i])
  {
    if es != [] {
      SelectorsAgreeExactly(es[1..]);
      NamedExactly(es);
    }
  }

  lemma {:induction false} NamedExactly(es: seq<Entry>)
    ensures FirstNamed(es).Some? <==> exists i :: 0 <= i < |es| && Named(es[i])
    ensures FirstNamed(es).Some? ==> FirstNamed(es).value.identity != "" && FirstUsable(es).Some?
  {
    if es != [] {
      NamedExactly(es[1..]);
      if i :| 1 <= i < |es| && Named(es[i]) {
        assert es[1..][i - 1] == es[i];
      }
      if FirstNamed(es[1..]).Some? {
        var j :| 0 <= j < |es[1..]| && Named(es[1..][j]);
        assert es[j + 1] == es[1..][j];
      }
    }
  }
}

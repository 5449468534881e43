/** Which strings the normaliser of src/node.cpp turns into a given grandmaster id. */
module GmidForm {
  import opened PtpClock

  function Stripped(s: string, cs: set<char>): string {
    if s == "" then "" else Stripped(s[..|s| - 1], cs) + (if s[|s| - 1] in cs then "" else [s[|s| - 1]])
  }

  /** What may stand between digits: colon, dash, and the six characters isspace accepts. */
  const SEPARATORS: set<char> := {':', '-', ' ', '\t', '\n', '\U{0B}', '\U{0C}', '\r'}

  /** The same digits, but for the case of `a` to `f`. */
  predicate SameDigits(a: string, b: string) {
    |a| == |b| && forall i :: 0 <= i < |a| ==>
      a[i] == b[i] || (a[i], b[i]) in {('A', 'a'), ('B', 'b'), ('C', 'c'), ('D', 'd'), ('E', 'e'), ('F', 'f')}
  }

  lemma {:induction false} BareIsLowered(s: string)
    ensures |Bare(s)| == |Stripped(s, SEPARATORS)|
    ensures forall i :: 0 <= i < |Bare(s)| ==> Bare(s)[i] == ToLower(Stripped(s, SEPARATORS)[i])
  {
    if s != "" {
      BareIsLowered(s[..|s| - 1]);
      var c := s[|s| - 1];
      assert Dropped(c) <==> c in SEPARATORS;
    }
  }

  lemma {:induction false} BareOfNormal(v: string)
    requires forall i :: 0 <= i < |v| ==> v[i] == '-' || IsLowerHex(v[i])
    ensures Bare(v) == Stripped(v, {'-'})
    ensures forall i :: 0 <= i < |Bare(v)| ==> IsLowerHex(Bare(v)[i])
  {
    if v != "" {
      BareOfNormal(v[..|v| - 1]);
    }
  }

  lemma SameBareExactly(s: string, v: string)
    requires IsValidGmid(v)
    ensures Normalize(s) == v <==> Bare(s) == Bare(v)
  {
    NormalizeFixesValid(v);
    if Normalize(s) == v {
      BareIsLower(s);
      BareIsLower(v);
      BareUndoesDashed(Bare(s));
      BareUndoesDashed(Bare(v));
    }
  }

  /** What the normaliser does, for any string and any well-formed id: it yields the id exactly if the string is
      the id's digits, in either case, with any separators anywhere between, before and after them. */
  lemma NormalizesToExactly(s: string, v: string)
    requires IsValidGmid(v)
    ensures Normalize(s) == v <==> SameDigits(Stripped(s, SEPARATORS), Stripped(v, {'-'}))
  {
    hide Normalize, Bare, Stripped;
    SameBareExactly(s, v);
    BareIsLowered(s);
    assert forall i :: 0 <= i < |v| ==> v[i] == '-' || IsLowerHex(v[i]);
    BareOfNormal(v);
    var x, h := Stripped(s, SEPARATORS), Bare(v);
    forall i | 0 <= i < |x| && |x| == |h|
      ensures Bare(s)[i] == h[i] <==>
              x[i] == h[i] || (x[i], h[i]) in {('A', 'a'), ('B', 'b'), ('C', 'c'), ('D', 'd'), ('E', 'e'), ('F', 'f')}
    {
      assert IsLowerHex(h[i]);
      LowersTo(x[i], h[i]);
    }
  }

  lemma LowersTo(c: char, d: char)
    requires IsLowerHex(d)
    ensures ToLower(c) == d <==>
            c == d || (c, d) in {('A', 'a'), ('B', 'b'), ('C', 'c'), ('D', 'd'), ('E', 'e'), ('F', 'f')}
  {}
}

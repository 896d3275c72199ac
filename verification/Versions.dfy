/** The order on release versions: dotted numbers before the first dash, then a release above
    its prereleases. */
module Versions {
  import opened State
  import opened Codec
  import opened Transfer

  const DOT: Byte := 46
  const MAX_I128 := 0x7FFF_FFFF_FFFF_FFFF_FFFF_FFFF_FFFF_FFFF

  function Split(text: seq<Byte>, separator: Byte): (parts: seq<seq<Byte>>)
    ensures parts != []
    decreases |text|
  {
    var once := SplitOnce(text, separator);
    if once.None? then [text] else [once.value.0] + Split(once.value.1, separator)
  }

  /** A component that is no number, or too large, counts as 0. It is never negative: the first dash ends the core. */
  function Component(text: seq<Byte>): nat {
    var n := Unsigned(text, MAX_I128);
    if n.Some? then n.value else 0
  }

  function Components(parts: seq<seq<Byte>>): (core: seq<nat>)
    ensures |core| == |parts|
  {
    seq(|parts|, i requires 0 <= i < |parts| => Component(parts[i]))
  }

  function Core(version: seq<Byte>): seq<nat> {
    Components(Split(Split(version, DASH)[0], DOT))
  }

  predicate Prerelease(version: seq<Byte>) {
    DASH in version
  }

  // ---------------------------------------------------------------- the order

  function Nth(core: seq<nat>, i: nat): nat {
    if i < |core| then core[i] else 0
  }

  predicate AgreeTo(a: seq<nat>, b: seq<nat>, n: nat) {
    forall k: nat :: k < n ==> Nth(a, k) == Nth(b, k)
  }

  /** They first differ at `i`, and `a` is larger there. */
  predicate LargerAt(a: seq<nat>, b: seq<nat>, i: nat) {
    AgreeTo(a, b, i) && Nth(a, i) > Nth(b, i)
  }

  ghost predicate Larger(a: seq<nat>, b: seq<nat>) {
    exists i: nat :: LargerAt(a, b, i)
  }

  ghost predicate Same(a: seq<nat>, b: seq<nat>) {
    forall k: nat :: Nth(a, k) == Nth(b, k)
  }

  ghost predicate Newer(a: seq<Byte>, b: seq<Byte>) {
    || Larger(Core(a), Core(b))
    || (Same(Core(a), Core(b)) && !Prerelease(a) && Prerelease(b))
  }

  /** The comparison as it is computed: component by component, missing ones as 0. */
  method IsNewer(a: seq<Byte>, b: seq<Byte>) returns (r: bool)
    ensures r <==> Newer(a, b)
  {
    var p, q := Core(a), Core(b);
    var n := if |p| >= |q| then |p| else |q|;
    for i := 0 to n
      invariant AgreeTo(p, q, i)
    {
      var x, y := Nth(p, i), Nth(q, i);
      if x != y {
        Decided(p, q, i);
        return x > y;
      }
    }
    assert Same(p, q);
    NeverLarger(p, q);
    return !Prerelease(a) && Prerelease(b);
  }

  /** The first difference decides. */
  lemma Decided(a: seq<nat>, b: seq<nat>, i: nat)
    requires AgreeTo(a, b, i) && Nth(a, i) != Nth(b, i)
    ensures Larger(a, b) <==> Nth(a, i) > Nth(b, i)
    ensures Larger(b, a) <==> Nth(a, i) < Nth(b, i)
    ensures !Same(a, b) && !Same(b, a)
  {
    forall j: nat | LargerAt(a, b, j) || LargerAt(b, a, j) ensures j == i {
      assert j < i ==> Nth(a, j) == Nth(b, j);
      assert i < j ==> Nth(a, i) == Nth(b, i);
    }
    assert Nth(a, i) > Nth(b, i) ==> LargerAt(a, b, i);
    assert Nth(a, i) < Nth(b, i) ==> LargerAt(b, a, i);
  }

  lemma NeverLarger(a: seq<nat>, b: seq<nat>)
    requires Same(a, b)
    ensures !Larger(a, b) && !Larger(b, a)
  {
    forall i: nat ensures !LargerAt(a, b, i) && !LargerAt(b, a, i) {
      assert Nth(a, i) == Nth(b, i);
    }
  }

  lemma {:induction false} FirstDifference(a: seq<nat>, b: seq<nat>, k: nat) returns (i: nat)
    requires Nth(a, k) != Nth(b, k)
    ensures AgreeTo(a, b, i) && Nth(a, i) != Nth(b, i)
  {
    i := 0;
    while Nth(a, i) == Nth(b, i)
      invariant i <= k && AgreeTo(a, b, i)
      decreases k - i
    {
      i := i + 1;
    }
  }

  /** Cores are larger, smaller or the same, and only one of these. */
  lemma Trichotomy(a: seq<nat>, b: seq<nat>)
    ensures Same(a, b) || Larger(a, b) || Larger(b, a)
    ensures !(Larger(a, b) && Larger(b, a))
    ensures Same(a, b) ==> !Larger(a, b) && !Larger(b, a)
  {
    if Same(a, b) {
      NeverLarger(a, b);
    } else {
      var k: nat :| Nth(a, k) != Nth(b, k);
      var i := FirstDifference(a, b, k);
      Decided(a, b, i);
    }
  }

  lemma LargerIsTransitive(a: seq<nat>, b: seq<nat>, c: seq<nat>)
    requires (Larger(a, b) || Same(a, b)) && (Larger(b, c) || Same(b, c))
    ensures if Same(a, b) && Same(b, c) then Same(a, c) else Larger(a, c)
  {
    if Same(a, b) && Same(b, c) {
      forall k: nat ensures Nth(a, k) == Nth(c, k) {
        assert Nth(a, k) == Nth(b, k) == Nth(c, k);
      }
    } else if Same(a, b) {
      var j: nat :| LargerAt(b, c, j);
      assert LargerAt(a, c, j);
    } else if Same(b, c) {
      var i: nat :| LargerAt(a, b, i);
      assert LargerAt(a, c, i);
    } else {
      Trichotomy(a, b);
      Trichotomy(b, c);
      var i: nat :| LargerAt(a, b, i);
      var j: nat :| LargerAt(b, c, j);
      var k := if i < j then i else j;
      assert LargerAt(a, c, k);
    }
  }

  lemma SameIsSymmetric(a: seq<nat>, b: seq<nat>)
    requires Same(a, b)
    ensures Same(b, a)
  {
  }

  ghost predicate Incomparable(a: seq<Byte>, b: seq<Byte>) {
    !Newer(a, b) && !Newer(b, a)
  }

  /** Two versions tie exactly when their cores are the same and both or neither are prereleases. */
  lemma IncomparableIsSame(a: seq<Byte>, b: seq<Byte>)
    ensures Incomparable(a, b) <==> Same(Core(a), Core(b)) && Prerelease(a) == Prerelease(b)
  {
    Trichotomy(Core(a), Core(b));
    if Same(Core(a), Core(b)) {
      SameIsSymmetric(Core(a), Core(b));
    }
  }

  /** Newer is a strict weak order on all strings. */
  lemma StrictWeakOrder(a: seq<Byte>, b: seq<Byte>, c: seq<Byte>)
    ensures !Newer(a, a)
    ensures Newer(a, b) ==> !Newer(b, a)
    ensures Newer(a, b) && Newer(b, c) ==> Newer(a, c)
    ensures Incomparable(a, b) && Incomparable(b, c) ==> Incomparable(a, c)
  {
    var p, q, r := Core(a), Core(b), Core(c);
    NeverLarger(p, p);
    Trichotomy(p, q);
    if Newer(a, b) && Newer(b, c) {
      LargerIsTransitive(p, q, r);
      Trichotomy(q, r);
    }
    IncomparableIsSame(a, b);
    IncomparableIsSame(b, c);
    IncomparableIsSame(a, c);
    if Incomparable(a, b) && Incomparable(b, c) {
      LargerIsTransitive(p, q, r);
    }
  }

  // ---------------------------------------------------------------- as a lexicographic order

  function Strip(core: seq<nat>): (s: seq<nat>)
    ensures |s| <= |core|
  {
    if core == [] || core[|core| - 1] != 0 then core else Strip(core[..|core| - 1])
  }

  /** Word order: the first difference decides, and a proper prefix comes first. */
  predicate Below(s: seq<nat>, t: seq<nat>) {
    if t == [] then false
    else if s == [] then true
    else s[0] < t[0] || (s[0] == t[0] && Below(s[1..], t[1..]))
  }

  lemma {:induction false} StripKeepsNth(core: seq<nat>, k: nat)
    ensures Nth(Strip(core), k) == Nth(core, k)
    decreases |core|
  {
    if core != [] && core[|core| - 1] == 0 {
      StripKeepsNth(core[..|core| - 1], k);
    }
  }

  lemma {:induction false} StripEndsNonzero(core: seq<nat>)
    ensures var s := Strip(core); s != [] ==> s[|s| - 1] != 0
  {
    if core != [] && core[|core| - 1] == 0 {
      StripEndsNonzero(core[..|core| - 1]);
    }
  }

  predicate Stripped(s: seq<nat>) {
    s != [] ==> s[|s| - 1] != 0
  }

  /** On cores without trailing zeros, word order is the order by first difference. */
  lemma {:induction false} BelowIsLarger(s: seq<nat>, t: seq<nat>)
    requires Stripped(s) && Stripped(t)
    ensures Below(s, t) <==> Larger(t, s)
    ensures s == t <==> Same(s, t)
    decreases |s|
  {
    if t == [] {
      if s != [] {
        assert Nth(s, |s| - 1) != Nth(t, |s| - 1);
      }
      forall i: nat ensures !LargerAt(t, s, i) {}
    } else if s == [] {
      var i := FirstDifference(t, s, |t| - 1);
      Decided(t, s, i);
    } else if s[0] != t[0] {
      Decided(t, s, 0);
      assert Nth(s, 0) != Nth(t, 0);
    } else {
      BelowIsLarger(s[1..], t[1..]);
      TailsDecide(s, t);
      assert s == [s[0]] + s[1..] && t == [t[0]] + t[1..];
    }
  }

  lemma TailsDecide(s: seq<nat>, t: seq<nat>)
    requires s != [] && t != [] && s[0] == t[0]
    ensures Larger(t, s) <==> Larger(t[1..], s[1..])
    ensures Same(s, t) <==> Same(s[1..], t[1..])
  {
    forall k: nat ensures Nth(s[1..], k) == Nth(s, k + 1) && Nth(t[1..], k) == Nth(t, k + 1) {}
    forall i: nat ensures LargerAt(t[1..], s[1..], i) <==> LargerAt(t, s, i + 1) {
      NextAgrees(s, t, i);
    }
    if Larger(t, s) {
      var i: nat :| LargerAt(t, s, i);
      assert i > 0;
      assert LargerAt(t[1..], s[1..], i - 1);
    }
    if Same(s[1..], t[1..]) {
      forall k: nat ensures Nth(s, k) == Nth(t, k) {
        if k > 0 {
          assert Nth(s[1..], k - 1) == Nth(t[1..], k - 1);
        }
      }
    }
  }

  lemma NextAgrees(s: seq<nat>, t: seq<nat>, n: nat)
    requires s != [] && t != [] && s[0] == t[0]
    ensures AgreeTo(t[1..], s[1..], n) <==> AgreeTo(t, s, n + 1)
  {
    if AgreeTo(t[1..], s[1..], n) {
      forall k: nat | k < n + 1 ensures Nth(t, k) == Nth(s, k) {
        if k > 0 {
          assert Nth(t[1..], k - 1) == Nth(s[1..], k - 1);
        }
      }
    }
    if AgreeTo(t, s, n + 1) {
      forall k: nat | k < n ensures Nth(t[1..], k) == Nth(s[1..], k) {
        assert Nth(t, k + 1) == Nth(s, k + 1);
      }
    }
  }

  /** Newer is word order on the cores without their trailing zeros, then release above prerelease. */
  lemma NewerIsLexicographic(a: seq<Byte>, b: seq<Byte>)
    ensures Newer(a, b) <==>
              var s, t := Strip(Core(a)), Strip(Core(b));
              Below(t, s) || (s == t && !Prerelease(a) && Prerelease(b))
  {
    var p, q := Core(a), Core(b);
    var s, t := Strip(p), Strip(q);
    StripEndsNonzero(p);
    StripEndsNonzero(q);
    BelowIsLarger(t, s);
    forall k: nat ensures Nth(s, k) == Nth(p, k) && Nth(t, k) == Nth(q, k) {
      StripKeepsNth(p, k);
      StripKeepsNth(q, k);
    }
    assert Same(p, q) <==> Same(t, s);
    assert forall i: nat :: LargerAt(p, q, i) <==> LargerAt(s, t, i);
  }
}

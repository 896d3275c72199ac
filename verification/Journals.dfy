/** The journal grammar: the entry-by-entry check the engine maintains accepts exactly
    the concatenations of complete walks plus at most one unfinished walk. */
module Journals {
  import opened State

  lemma LegalIsTheTable(p: Phase, q: Phase)
    ensures Legal(p, q) <==> (p, q) in TRANSITIONS
  {
    assert TRANSITIONS[0] == (Idle, Staged) && TRANSITIONS[1] == (Staged, HandingOver);
    assert TRANSITIONS[2] == (HandingOver, RunningExperiment) && TRANSITIONS[3] == (RunningExperiment, Readback);
    assert TRANSITIONS[4] == (Readback, Promoted) && TRANSITIONS[5] == (Staged, RolledBack);
    assert TRANSITIONS[6] == (HandingOver, RolledBack) && TRANSITIONS[7] == (RunningExperiment, RolledBack);
    assert TRANSITIONS[8] == (Readback, RolledBack);
  }

  lemma ContinuesSnoc(s: seq<Phase>, p: Phase)
    ensures Continues(s + [p]) <==> Continues(s) && Legal(Origin(s), p)
  {
    var t := s + [p];
    assert t[..|s|] == s && t[|s|] == p;
    forall i | 0 <= i < |s| ensures ContinuesAt(t, i) == ContinuesAt(s, i) {
      assert t[..i] == s[..i];
    }
    if Continues(t) {
      assert ContinuesAt(t, |s|);
      forall i | 0 <= i < |s| ensures ContinuesAt(s, i) {
        assert ContinuesAt(t, i);
      }
    }
    if Continues(s) && Legal(Origin(s), p) {
      forall i | 0 <= i < |t| ensures ContinuesAt(t, i) {
        if i < |s| {
          assert ContinuesAt(s, i);
        }
      }
    }
  }

  /** Journal, walks and tail move together when one phase is appended. */
  lemma SnocDecomposition(s: seq<Phase>, walks: seq<seq<Phase>>, tail: seq<Phase>, p: Phase)
    returns (walks': seq<seq<Phase>>, tail': seq<Phase>)
    requires Decomposition(s, walks, tail) && Legal(Origin(s), p)
    ensures Decomposition(s + [p], walks', tail')
  {
    LastOfDecomposition(s, walks, tail);
    var grown := tail + [p];
    assert Walk(grown) by {
      forall i | 0 <= i < |grown|
        ensures WalksAt(grown, i)
      {
        if i < |tail| {
          assert WalksAt(tail, i);
        }
      }
    }
    if p.AtRest() {
      walks', tail' := walks + [grown], [];
      assert walks'[..|walks|] == walks;
      assert s + [p] == Flatten(walks') + tail';
    } else {
      walks', tail' := walks, grown;
      assert s + [p] == Flatten(walks) + grown;
    }
  }

  lemma {:induction false} LastOfDecomposition(s: seq<Phase>, walks: seq<seq<Phase>>, tail: seq<Phase>)
    requires Decomposition(s, walks, tail)
    ensures Origin(s) == if tail == [] then Idle else tail[|tail| - 1]
  {
    if tail == [] {
      assert s == Flatten(walks);
      if walks != [] {
        var last := walks[|walks| - 1];
        assert last in walks;
        assert CompleteWalk(last);
        assert s[|s| - 1] == last[|last| - 1];
      }
    }
  }

  lemma {:induction false} Decompose(s: seq<Phase>) returns (walks: seq<seq<Phase>>, tail: seq<Phase>)
    requires Continues(s)
    ensures Decomposition(s, walks, tail)
    decreases |s|
  {
    if s == [] {
      walks, tail := [], [];
    } else {
      var front, p := s[..|s| - 1], s[|s| - 1];
      assert s == front + [p];
      ContinuesSnoc(front, p);
      walks, tail := Decompose(front);
      walks, tail := SnocDecomposition(front, walks, tail, p);
    }
  }

  lemma WalkFrom(base: seq<Phase>, w: seq<Phase>)
    requires Continues(base) && Origin(base) == Idle && Walk(w)
    requires forall i :: 0 <= i < |w| - 1 ==> !w[i].AtRest()
    ensures Continues(base + w)
  {
    var all := base + w;
    forall i | 0 <= i < |all| ensures ContinuesAt(all, i) {
      if i < |base| {
        assert all[..i] == base[..i];
        assert ContinuesAt(base, i);
      } else {
        var j := i - |base|;
        assert all[..i] == base + w[..j];
        assert WalksAt(w, j);
        if j == 0 {
          assert all[..i] == base;
        } else {
          assert all[..i][i - 1] == w[j - 1];
        }
      }
    }
  }

  /** A walk rests only at its end: nothing in the table leads out of a resting phase but Idle. */
  lemma WalkRestsLast(w: seq<Phase>)
    requires Walk(w)
    ensures forall i :: 0 <= i < |w| - 1 ==> !w[i].AtRest()
  {
    forall i | 0 <= i < |w| - 1 ensures !w[i].AtRest() {
      assert WalksAt(w, i);
      assert WalksAt(w, i + 1);
    }
  }

  lemma {:induction false} FlattenContinues(walks: seq<seq<Phase>>)
    requires forall w :: w in walks ==> CompleteWalk(w)
    ensures Continues(Flatten(walks)) && Origin(Flatten(walks)) == Idle
    decreases |walks|
  {
    if walks != [] {
      var front, last := walks[..|walks| - 1], walks[|walks| - 1];
      assert last in walks && CompleteWalk(last);
      assert forall w :: w in front ==> w in walks;
      FlattenContinues(front);
      WalkRestsLast(last);
      WalkFrom(Flatten(front), last);
      assert Flatten(walks)[|Flatten(walks)| - 1] == last[|last| - 1];
    }
  }

  /** The journals the engine may write are exactly the decomposable ones. */
  lemma JournalGrammar(s: seq<Phase>)
    ensures Continues(s) <==> exists walks, tail :: Decomposition(s, walks, tail)
  {
    if Continues(s) {
      var walks, tail := Decompose(s);
    }
    if walks, tail :| Decomposition(s, walks, tail) {
      FlattenContinues(walks);
      WalkRestsLast(tail);
      WalkFrom(Flatten(walks), tail);
    }
  }

  /** A rest is reached only through a readback, or given up through a rollback. */
  lemma RestReachedBy(s: seq<Phase>, i: nat)
    requires Continues(s) && i < |s| && s[i] == Promoted
    ensures i >= 4 && s[i - 4..i + 1] == [Staged, HandingOver, RunningExperiment, Readback, Promoted]
  {
    assert ContinuesAt(s, i);
    assert i > 0 && s[i - 1] == Readback;
    assert ContinuesAt(s, i - 1);
    assert i > 1 && s[i - 2] == RunningExperiment;
    assert ContinuesAt(s, i - 2);
    assert i > 2 && s[i - 3] == HandingOver;
    assert ContinuesAt(s, i - 3);
    assert i > 3 && s[i - 4] == Staged;
  }

  /** A promotion after a rest has its whole walk after that rest. */
  lemma WalkSinceRest(s: seq<Phase>, n: nat, i: nat)
    requires Continues(s) && n <= i < |s| && s[i] == Promoted
    requires n == 0 || s[n - 1].AtRest()
    ensures n + 4 <= i
  {
    RestReachedBy(s, i);
    var walk := s[i - 4..i + 1];
    forall k | i - 4 <= k < i ensures !s[k].AtRest() {
      assert s[k] == walk[k - (i - 4)];
    }
  }
}

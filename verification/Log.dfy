/** The append-only log under the journal and the provenance history: one entry a line, a
    torn tail allowed, everything before it committed. */
module Log {
  import opened State
  import opened Codec

  /** The journal numbers its entries from 0 without a gap; provenance numbers only grow. */
  datatype Order = Contiguous | Increasing

  predicate Follows(order: Order, entries: seq<Entry>, seqNo: nat) {
    match order
    case Contiguous => seqNo == if entries == [] then 0 else entries[|entries| - 1].seqNo + 1
    case Increasing => entries != [] ==> entries[|entries| - 1].seqNo < seqNo
  }

  predicate Space(b: Byte) {
    b == 9 || b == 10 || b == 12 || b == 13 || b == 32
  }

  predicate Blank(line: seq<Byte>) {
    forall i :: 0 <= i < |line| ==> Space(line[i])
  }

  // ---------------------------------------------------------------- what a file holds

  /** The bytes after the last newline. */
  function Tail(bytes: seq<Byte>): (tail: seq<Byte>)
    ensures |tail| <= |bytes|
  {
    if bytes == [] || bytes[|bytes| - 1] == NEWLINE then []
    else Tail(bytes[..|bytes| - 1]) + [bytes[|bytes| - 1]]
  }

  /** The lines before it. */
  function Lines(bytes: seq<Byte>): seq<seq<Byte>> {
    if bytes == [] then []
    else
      var front := bytes[..|bytes| - 1];
      if bytes[|bytes| - 1] == NEWLINE then Lines(front) + [Tail(front)] else Lines(front)
  }

  /** One more line read: a blank one is skipped, a corrupt or misplaced one is an error for good. */
  function Extend(order: Order, before: Option<seq<Entry>>, line: seq<Byte>): Option<seq<Entry>> {
    if before.None? || Blank(line) then before
    else
      var entry := Decode(line);
      if entry.None? || !Follows(order, before.value, entry.value.seqNo) then None
      else Some(before.value + [entry.value])
  }

  function Entries(order: Order, lines: seq<seq<Byte>>): Option<seq<Entry>> {
    if lines == [] then Some([])
    else Extend(order, Entries(order, lines[..|lines| - 1]), lines[|lines| - 1])
  }

  function Parse(order: Order, bytes: seq<Byte>): Option<seq<Entry>> {
    Entries(order, Lines(bytes))
  }

  // ---------------------------------------------------------------- lemmas about lines

  /** Bytes without a newline add no line. */
  lemma {:induction false} TornBytesAreInvisible(bytes: seq<Byte>, torn: seq<Byte>)
    requires NEWLINE !in torn
    ensures Lines(bytes + torn) == Lines(bytes) && Tail(bytes + torn) == Tail(bytes) + torn
    decreases |torn|
  {
    if torn == [] {
      assert bytes + torn == bytes;
    } else {
      var front := torn[..|torn| - 1];
      TornBytesAreInvisible(bytes, front);
      assert (bytes + torn)[..|bytes + torn| - 1] == bytes + front;
    }
  }

  /** A newline commits the tail. */
  lemma NewlineCommits(bytes: seq<Byte>)
    ensures Lines(bytes + [NEWLINE]) == Lines(bytes) + [Tail(bytes)] && Tail(bytes + [NEWLINE]) == []
  {
    assert (bytes + [NEWLINE])[..|bytes|] == bytes;
  }

  /** Cutting anywhere into the tail keeps every line. */
  lemma {:induction false} CutKeepsLines(bytes: seq<Byte>, n: nat)
    requires |bytes| - |Tail(bytes)| <= n <= |bytes|
    ensures Lines(bytes[..n]) == Lines(bytes)
    ensures |Tail(bytes[..n])| == |Tail(bytes)| - (|bytes| - n)
    decreases |bytes|
  {
    if n == |bytes| {
      assert bytes[..n] == bytes;
    } else {
      var front := bytes[..|bytes| - 1];
      CutKeepsLines(front, n);
      assert front[..n] == bytes[..n];
    }
  }

  /** What one more committed line does to what is read. */
  lemma LineCommits(order: Order, bytes: seq<Byte>, line: seq<Byte>)
    requires NEWLINE !in line
    ensures Parse(order, bytes + line + [NEWLINE]) == Extend(order, Parse(order, bytes), Tail(bytes) + line)
  {
    TornBytesAreInvisible(bytes, line);
    NewlineCommits(bytes + line);
    var lines := Lines(bytes + line + [NEWLINE]);
    assert lines[..|lines| - 1] == Lines(bytes);
  }

  /** Reading one byte further. */
  lemma NextByte(order: Order, bytes: seq<Byte>, i: nat, start: nat)
    requires start <= i < |bytes| && Tail(bytes[..i]) == bytes[start..i]
    ensures bytes[i] != NEWLINE ==>
              Parse(order, bytes[..i + 1]) == Parse(order, bytes[..i]) && Tail(bytes[..i + 1]) == bytes[start..i + 1]
    ensures bytes[i] == NEWLINE ==>
              Parse(order, bytes[..i + 1]) == Extend(order, Parse(order, bytes[..i]), bytes[start..i])
              && Tail(bytes[..i + 1]) == []
  {
    var front := bytes[..i];
    assert bytes[..i + 1] == front + [bytes[i]];
    if bytes[i] == NEWLINE {
      LineCommits(order, front, []);
      NewlineCommits(front);
      assert front + [] == front && Tail(front) + [] == Tail(front);
    } else {
      TornBytesAreInvisible(front, [bytes[i]]);
    }
  }

  /** A written entry reads back; one written short of its newline is not there. */
  lemma AppendedReadsBack(order: Order, bytes: seq<Byte>, entry: Entry, n: nat)
    requires Tail(bytes) == [] && Parse(order, bytes).Some? && Follows(order, Parse(order, bytes).value, entry.seqNo)
    requires n <= |Encode(entry)|
    ensures Parse(order, bytes + Encode(entry) + [NEWLINE]) == Some(Parse(order, bytes).value + [entry])
    ensures Parse(order, bytes + Encode(entry)[..n]) == Parse(order, bytes)
  {
    var line := Encode(entry);
    EncodeRoundTrip(entry);
    LineCommits(order, bytes, line);
    assert [] + line == line;
    assert !Space(line[0]);
    TornBytesAreInvisible(bytes, line[..n]);
  }

  // ---------------------------------------------------------------- consequences

  /** A corrupt or misplaced line is never skipped: nothing after it is read. */
  lemma {:induction false} CorruptionStops(order: Order, lines: seq<seq<Byte>>, n: nat)
    requires n <= |lines| && Entries(order, lines[..n]).None?
    ensures Entries(order, lines).None?
    decreases |lines|
  {
    if n < |lines| {
      assert lines[..|lines| - 1][..n] == lines[..n];
      CorruptionStops(order, lines[..|lines| - 1], n);
    } else {
      assert lines[..n] == lines;
    }
  }

  lemma Hopeless(order: Order, bytes: seq<Byte>, n: nat)
    requires n <= |bytes| && Parse(order, bytes[..n]).None?
    ensures Parse(order, bytes).None?
  {
    LinesGrow(bytes, n);
    var lines := Lines(bytes[..n]);
    assert Lines(bytes)[..|lines|] == lines;
    CorruptionStops(order, Lines(bytes), |lines|);
  }

  /** What can be read is in order. */
  lemma {:induction false} ReadIsOrdered(order: Order, lines: seq<seq<Byte>>)
    requires Entries(order, lines).Some?
    ensures var entries := Entries(order, lines).value;
            forall i :: 0 <= i < |entries| ==> Follows(order, entries[..i], entries[i].seqNo)
  {
    if lines != [] {
      var entries, before := Entries(order, lines).value, Entries(order, lines[..|lines| - 1]).value;
      ReadIsOrdered(order, lines[..|lines| - 1]);
      forall i | 0 <= i < |entries| ensures Follows(order, entries[..i], entries[i].seqNo) {
        if i < |before| {
          assert entries[..i] == before[..i];
        } else {
          assert entries[..i] == before;
        }
      }
    }
  }

  /** A journal's entries are numbered from 0 without a gap. */
  lemma {:induction false} ContiguousFromZero(entries: seq<Entry>, i: nat)
    requires forall k :: 0 <= k < |entries| ==> Follows(Contiguous, entries[..k], entries[k].seqNo)
    requires i < |entries|
    ensures entries[i].seqNo == i
  {
    assert Follows(Contiguous, entries[..i], entries[i].seqNo);
    if i > 0 {
      ContiguousFromZero(entries, i - 1);
    }
  }

  /** A provenance history's numbers grow. */
  lemma {:induction false} IncreasingThroughout(entries: seq<Entry>, i: nat, j: nat)
    requires forall k :: 0 <= k < |entries| ==> Follows(Increasing, entries[..k], entries[k].seqNo)
    requires i < j < |entries|
    ensures entries[i].seqNo < entries[j].seqNo
    decreases j
  {
    assert Follows(Increasing, entries[..j], entries[j].seqNo);
    if i < j - 1 {
      IncreasingThroughout(entries, i, j - 1);
    }
  }

  // ---------------------------------------------------------------- the file

  /** How far an append gets: the file cut to `n` bytes during repair, or `n` bytes of the new
      line written, when the worker dies; or all of it. */
  datatype Fate = Survives | DiesCutting(n: nat) | DiesWriting(n: nat)

  datatype Appending = Appended | Died | Corrupt | OutOfOrder

  class LogFile {
    const order: Order
    var bytes: seq<Byte>

    constructor (order: Order)
      ensures this.order == order && bytes == []
    {
      this.order := order;
      bytes := [];
    }

    /** Read every committed entry, or fail at the first corrupt or misplaced one. */
    method Read() returns (r: Option<seq<Entry>>)
      ensures r == Parse(order, bytes)
    {
      var entries: seq<Entry> := [];
      var start := 0;
      for i := 0 to |bytes|
        invariant 0 <= start <= i
        invariant Tail(bytes[..i]) == bytes[start..i]
        invariant Parse(order, bytes[..i]) == Some(entries)
      {
        NextByte(order, bytes, i, start);
        if bytes[i] != NEWLINE {
          continue;
        }
        var line := bytes[start..i];
        start := i + 1;
        if Blank(line) {
          continue;
        }
        var entry := Decode(line);
        if entry.None? || !Follows(order, entries, entry.value.seqNo) {
          Hopeless(order, bytes, i + 1);
          return None;
        }
        entries := entries + [entry.value];
      }
      assert bytes[..|bytes|] == bytes;
      r := Some(entries);
    }

    /** The position after the last newline. */
    method Committed() returns (n: nat)
      ensures n == |bytes| - |Tail(bytes)|
    {
      n := |bytes|;
      assert bytes[..n] == bytes;
      while n > 0 && bytes[n - 1] != NEWLINE
        invariant n <= |bytes|
        invariant |Tail(bytes[..n])| + |bytes| - n == |Tail(bytes)|
      {
        assert bytes[..n][..n - 1] == bytes[..n - 1];
        n := n - 1;
      }
    }

    /** Drop the uncommitted tail, if there is one. */
    method Repair(fate: Fate) returns (died: bool)
      modifies this
      ensures Lines(bytes) == Lines(old(bytes))
      ensures old(bytes)[..|old(bytes)| - |Tail(old(bytes))|] <= bytes <= old(bytes)
      ensures !died ==> Tail(bytes) == []
      ensures died ==> fate.DiesCutting?
    {
      var n := Committed();
      died := fate.DiesCutting? && n <= fate.n <= |bytes|;
      var kept := if died then fate.n else n;
      CutKeepsLines(bytes, kept);
      bytes := bytes[..kept];
    }

    /** Append one entry. It commits all at once: whatever byte the worker dies at, the file
        reads as before or with the one entry more, which it has exactly when its newline
        was written. Committed bytes are never touched. */
    method Append(entry: Entry, fate: Fate) returns (r: Appending)
      modifies this
      ensures r.Corrupt? <==> Parse(order, old(bytes)).None?
      ensures r.OutOfOrder? <==>
                Parse(order, old(bytes)).Some? && !Follows(order, Parse(order, old(bytes)).value, entry.seqNo)
      ensures r.Corrupt? || r.OutOfOrder? ==> bytes == old(bytes)
      ensures r.Appended? ==> Parse(order, bytes) == Some(Parse(order, old(bytes)).value + [entry])
      ensures r.Died? ==>
                Parse(order, bytes) ==
                  if fate.DiesWriting? && fate.n > |Encode(entry)| then Some(Parse(order, old(bytes)).value + [entry])
                  else Parse(order, old(bytes))
      ensures old(bytes)[..|old(bytes)| - |Tail(old(bytes))|] <= bytes
    {
      var entries := Read();
      if entries.None? {
        return Corrupt;
      }
      if !Follows(order, entries.value, entry.seqNo) {
        return OutOfOrder;
      }
      var died := Repair(fate);
      if died {
        return Died;
      }
      var line := Encode(entry);
      if fate.DiesWriting? && fate.n <= |line| {
        AppendedReadsBack(order, bytes, entry, fate.n);
        bytes := bytes + line[..fate.n];
        return Died;
      }
      AppendedReadsBack(order, bytes, entry, 0);
      bytes := bytes + line + [NEWLINE];
      return if fate.DiesWriting? then Died else Appended;
    }

    /** Append under the number given, or under the next one, which is never refused. */
    method Record(explicit: Option<nat>, body: seq<Byte>, fate: Fate) returns (r: Appending, entry: Entry)
      modifies this
      ensures entry.body == body && (explicit.Some? ==> entry.seqNo == explicit.value)
      ensures r.Corrupt? <==> Parse(order, old(bytes)).None?
      ensures r.OutOfOrder? ==> explicit.Some? && !Follows(order, Parse(order, old(bytes)).value, explicit.value)
      ensures r.Appended? ==> Parse(order, bytes) == Some(Parse(order, old(bytes)).value + [entry])
      ensures !r.Appended? && !r.Died? ==> bytes == old(bytes)
      ensures r.Died? ==>
                || Parse(order, bytes) == Parse(order, old(bytes))
                || Parse(order, bytes) == Some(Parse(order, old(bytes)).value + [entry])
    {
      var entries := Read();
      var next := if entries.Some? && entries.value != [] then entries.value[|entries.value| - 1].seqNo + 1 else 0;
      entry := Entry(if explicit.Some? then explicit.value else next, body);
      r := Append(entry, fate);
    }

    /** Any number of appends, by workers that may die at any byte. What was there stays, every
        acknowledged entry is there, and nothing else is but what was asked for, in order. */
    method Session(asked: seq<(Entry, Fate)>) returns (acknowledged: seq<bool>, ghost kept: seq<bool>)
      requires Parse(order, bytes).Some?
      modifies this
      ensures Parse(order, bytes).Some?
      ensures |acknowledged| == |kept| == |asked|
      ensures Parse(order, bytes).value == Parse(order, old(bytes)).value + Chosen(asked, kept)
      ensures forall i :: 0 <= i < |asked| && acknowledged[i] ==> kept[i]
    {
      acknowledged, kept := [], [];
      ghost var start := Parse(order, bytes).value;
      assert start + [] == start;
      for i := 0 to |asked|
        invariant |acknowledged| == |kept| == i
        invariant Parse(order, bytes) == Some(start + Chosen(asked[..i], kept))
        invariant forall k :: 0 <= k < i && acknowledged[k] ==> kept[k]
      {
        ghost var before, chosen := Parse(order, bytes).value, Chosen(asked[..i], kept);
        var r := Append(asked[i].0, asked[i].1);
        ghost var there := Parse(order, bytes) == Some(before + [asked[i].0]);
        ChosenSnoc(asked[..i], kept, asked[i], there);
        assert asked[..i + 1] == asked[..i] + [asked[i]];
        assert before + [] == before;
        assert Parse(order, bytes) == Some(before + if there then [asked[i].0] else []);
        assert before + (if there then [asked[i].0] else []) == start + (chosen + if there then [asked[i].0] else []);
        acknowledged, kept := acknowledged + [r.Appended?], kept + [there];
      }
      assert asked[..|asked|] == asked;
    }
  }

  /** The entries of those requests that were kept. */
  function Chosen(asked: seq<(Entry, Fate)>, kept: seq<bool>): seq<Entry>
    requires |asked| == |kept|
  {
    if asked == [] then []
    else Chosen(asked[..|asked| - 1], kept[..|asked| - 1]) + if kept[|asked| - 1] then [asked[|asked| - 1].0] else []
  }

  lemma ChosenSnoc(asked: seq<(Entry, Fate)>, kept: seq<bool>, next: (Entry, Fate), there: bool)
    requires |asked| == |kept|
    ensures Chosen(asked + [next], kept + [there]) == Chosen(asked, kept) + if there then [next.0] else []
  {
    assert (asked + [next])[..|asked|] == asked && (kept + [there])[..|asked|] == kept;
  }

  lemma {:induction false} LinesGrow(bytes: seq<Byte>, n: nat)
    requires n <= |bytes|
    ensures Lines(bytes[..n]) <= Lines(bytes)
    decreases |bytes|
  {
    if n < |bytes| {
      assert bytes[..|bytes| - 1][..n] == bytes[..n];
      LinesGrow(bytes[..|bytes| - 1], n);
    } else {
      assert bytes[..n] == bytes;
    }
  }
}

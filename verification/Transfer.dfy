/** Resumable, verified transfer: the partial file is the buffer, the declared size is never
    exceeded, and what is returned has the declared size and digest. */
module Transfer {
  import opened State
  import opened Codec

  // ---------------------------------------------------------------- budgets

  datatype TransferPolicy = TransferPolicy(responseMs: nat, idleMs: nat, minimumBytesPerSecond: nat,
                                           maximumOverallMs: nat)

  datatype Budgets = Budgets(responseMs: nat, idleMs: nat, overallMs: nat)

  function DivCeil(a: nat, b: nat): (q: nat)
    requires b > 0
    ensures q * b >= a
    ensures q > 0 ==> (q - 1) * b < a
  {
    if a % b == 0 then a / b else a / b + 1
  }

  /** The overall budget covers the response and a body at the minimum rate, unless it is capped. */
  function BudgetsFor(policy: TransferPolicy, size: nat): (r: Result<Budgets>)
    ensures r.Success? <==>
              && policy.responseMs > 0 && policy.idleMs > 0 && policy.minimumBytesPerSecond > 0
              && policy.maximumOverallMs >= policy.responseMs
    ensures r.Success? ==>
              && policy.responseMs <= r.value.overallMs <= policy.maximumOverallMs
              && (r.value.overallMs < policy.maximumOverallMs ==>
                    (r.value.overallMs - policy.responseMs) * policy.minimumBytesPerSecond >= 1000 * size)
  {
    if policy.responseMs == 0 || policy.idleMs == 0 || policy.minimumBytesPerSecond == 0
       || policy.maximumOverallMs < policy.responseMs
    then Failure(Invalid(TransferPolicyInvalid))
    else
      var total := DivCeil(size * 1000, policy.minimumBytesPerSecond) + policy.responseMs;
      Success(Budgets(policy.responseMs, policy.idleMs,
                      if total <= policy.maximumOverallMs then total else policy.maximumOverallMs))
  }

  // ---------------------------------------------------------------- Content-Range

  const MAX_U64 := 0xFFFF_FFFF_FFFF_FFFF
  const PLUS: Byte := 43
  const DASH: Byte := 45
  const SLASH: Byte := 47
  const UNIT: seq<Byte> := [98, 121, 116, 101, 115, 32]  // "bytes "

  /** Decimal digits after an optional plus sign, within `max`. */
  function Unsigned(text: seq<Byte>, max: nat): (n: Option<nat>)
    ensures n.Some? ==> n.value <= max
  {
    var n := Number(if text != [] && text[0] == PLUS then text[1..] else text);
    if n.Some? && n.value <= max then n else None
  }

  /** The text before and after the first separator. */
  function SplitOnce(text: seq<Byte>, separator: Byte): (r: Option<(seq<Byte>, seq<Byte>)>)
    ensures r.None? <==> separator !in text
    ensures r.Some? ==> text == r.value.0 + [separator] + r.value.1 && separator !in r.value.0
  {
    if text == [] then None
    else if text[0] == separator then Some(([], text[1..]))
    else
      var rest := SplitOnce(text[1..], separator);
      assert text == [text[0]] + text[1..];
      if rest.None? then None else Some(([text[0]] + rest.value.0, rest.value.1))
  }

  function ParseSpan(text: seq<Byte>): (r: Option<(nat, nat)>)
    ensures r.Some? ==> r.value.1 <= MAX_U64
  {
    var span := SplitOnce(text, DASH);
    if span.None? then None
    else
      var first, last := Unsigned(span.value.0, MAX_U64), Unsigned(span.value.1, MAX_U64);
      if first.None? || last.None? then None else Some((first.value, last.value))
  }

  function ParseContentRange(text: seq<Byte>): (r: Option<(nat, nat, nat)>)
    ensures r.Some? ==> r.value.0 <= r.value.1 < r.value.2 <= MAX_U64
  {
    var parts := if UNIT <= text then SplitOnce(text[|UNIT|..], SLASH) else None;
    if parts.None? then None
    else
      var span, total := ParseSpan(parts.value.0), Unsigned(parts.value.1, MAX_U64);
      if span.None? || total.None? || span.value.0 > span.value.1 || span.value.1 >= total.value then None
      else Some((span.value.0, span.value.1, total.value))
  }

  function Span(first: nat, last: nat): seq<Byte> {
    Digits(first) + [DASH] + Digits(last)
  }

  /** The header of section 14.4 of RFC 9110 for a satisfied range of known length. */
  function ContentRange(first: nat, last: nat, total: nat): seq<Byte> {
    UNIT + (Span(first, last) + [SLASH] + Digits(total))
  }

  lemma {:induction false} SplitOnceAt(before: seq<Byte>, separator: Byte, after: seq<Byte>)
    requires separator !in before
    ensures SplitOnce(before + [separator] + after, separator) == Some((before, after))
    decreases |before|
  {
    var text := before + [separator] + after;
    if before == [] {
      assert text[1..] == after;
    } else {
      SplitOnceAt(before[1..], separator, after);
      assert text[1..] == before[1..] + [separator] + after;
      assert before == [before[0]] + before[1..];
    }
  }

  lemma DigitsAreUnsigned(n: nat)
    requires n <= MAX_U64
    ensures Unsigned(Digits(n), MAX_U64) == Some(n)
    ensures DASH !in Digits(n) && SLASH !in Digits(n)
  {
    NumberOfDigits(n);
  }

  lemma SpanRoundTrip(first: nat, last: nat)
    requires first <= MAX_U64 && last <= MAX_U64
    ensures ParseSpan(Span(first, last)) == Some((first, last))
    ensures SLASH !in Span(first, last)
  {
    DigitsAreUnsigned(first);
    DigitsAreUnsigned(last);
    SplitOnceAt(Digits(first), DASH, Digits(last));
  }

  lemma ContentRangeRoundTrip(first: nat, last: nat, total: nat)
    requires first <= last < total <= MAX_U64
    ensures ParseContentRange(ContentRange(first, last, total)) == Some((first, last, total))
  {
    var text, rest := ContentRange(first, last, total), Span(first, last) + [SLASH] + Digits(total);
    assert UNIT <= text && text[|UNIT|..] == rest;
    SpanRoundTrip(first, last);
    DigitsAreUnsigned(total);
    SplitOnceAt(Span(first, last), SLASH, Digits(total));
  }

  /** The header says that the answer is the rest of the release from `offset` on. */
  predicate Covers(contentRange: Option<seq<Byte>>, offset: nat, size: nat) {
    && contentRange.Some? && size > 0
    && ParseContentRange(contentRange.value) == Some((offset, size - 1, size))
  }

  lemma HonestRangeCovers(contentRange: Option<seq<Byte>>, offset: nat, size: nat)
    requires offset < size <= MAX_U64 && contentRange == Some(ContentRange(offset, size - 1, size))
    ensures Covers(contentRange, offset, size)
  {
    var header := ContentRange(offset, size - 1, size);
    ContentRangeRoundTrip(offset, size - 1, size);
    assert contentRange.value == header;
  }

  // ---------------------------------------------------------------- transfer

  datatype Representation = Representation(size: nat, digest: int)

  /** What the body delivers next, or how the attempt ends there: nothing comes in time, or the
      worker dies with part of the chunk written. */
  datatype Event = Chunk(data: seq<Byte>) | Stall | Death(data: seq<Byte>, written: nat)

  datatype Reply = Reply(status: nat, contentRange: Option<seq<Byte>>, body: seq<Event>)

  function Verify(bytes: seq<Byte>, release: Representation, digest: seq<Byte> -> int): Status {
    if |bytes| != release.size then Err(Invalid(SizeMismatch))
    else if digest(bytes) != release.digest then Err(Invalid(DigestMismatch))
    else Ok
  }

  /** All the bytes a body sends. */
  function Body(events: seq<Event>): seq<Byte> {
    if events == [] then []
    else Body(events[..|events| - 1]) + Data(events[|events| - 1])
  }

  predicate Whole(events: seq<Event>) {
    forall i :: 0 <= i < |events| ==> events[i].Chunk?
  }

  /** An honest answer to a request for the bytes from `offset` on, which may ignore the range. */
  predicate Honest(reply: Reply, content: seq<Byte>, offset: nat)
    requires offset <= |content|
  {
    || (reply.status == 200 && Body(reply.body) <= content && (Whole(reply.body) ==> Body(reply.body) == content))
    || (reply.status == 206 && 0 < offset < |content|
        && reply.contentRange == Some(ContentRange(offset, |content| - 1, |content|))
        && Body(reply.body) <= content[offset..] && (Whole(reply.body) ==> Body(reply.body) == content[offset..]))
  }

  /** The bytes an attempt starts from: what is on disk, if the request resumes and the answer honours it. */
  function Kept(file: Option<seq<Byte>>, size: nat, server: nat -> Reply): seq<Byte> {
    if Offset(file, size) > 0 && server(Offset(file, size)).status == 206 then file.value else []
  }

  /** Where a request starts: behind the partial file, unless that is missing or not shorter than the release. */
  function Offset(file: Option<seq<Byte>>, size: nat): nat {
    if file.Some? && |file.value| < size then |file.value| else 0
  }

  class Downloader {
    const digest: seq<Byte> -> int
    var partial: Option<seq<Byte>>

    constructor (digest: seq<Byte> -> int, partial: Option<seq<Byte>>)
      ensures this.digest == digest && this.partial == partial
    {
      this.digest := digest;
      this.partial := partial;
    }

    /** Is the answer one this request can use, and where do its bytes begin? */
    method Accept(reply: Reply, offset: nat, size: nat) returns (begin: Option<nat>)
      ensures begin.Some? <==>
                || reply.status == 200
                || (reply.status == 206 && Covers(reply.contentRange, offset, size))
      ensures begin.Some? ==> begin.value == if reply.status == 206 then offset else 0
    {
      if reply.status != 200 && reply.status != 206 {
        return None;
      }
      if reply.status == 200 {
        return Some(0);
      }
      if reply.contentRange.None? {
        return None;
      }
      var range := ParseContentRange(reply.contentRange.value);
      if range.None? || range.value.0 != offset || range.value.2 != size || range.value.1 + 1 != size {
        return None;
      }
      return Some(offset);
    }

    /** Read the body into the buffer and, when resuming, into the file with it. */
    method Receive(body: seq<Event>, size: nat, resuming: bool, start: seq<Byte>) returns (r: Status, bytes: seq<Byte>)
      requires |start| <= size && (resuming ==> partial == Some(start))
      modifies this
      ensures !resuming ==> partial == old(partial)
      ensures resuming && partial.Some? ==> |partial.value| <= size
      ensures r.Ok? ==>
                Whole(body) && bytes == start + Body(body) && |bytes| <= size && (resuming ==> partial == Some(bytes))
      ensures r.Err? && |start + Body(body)| <= size && resuming ==>
                partial.Some? && start <= partial.value <= start + Body(body)
      ensures Whole(body) && |start + Body(body)| <= size ==> r.Ok?
    {
      bytes := start;
      r := Ok;
      for i := 0 to |body|
        invariant bytes == start + Body(body[..i]) && |bytes| <= size
        invariant Whole(body[..i])
        invariant if resuming then partial == Some(bytes) else partial == old(partial)
      {
        ReadOn(start, body, i);
        match body[i] {
          case Stall =>
            return Err(Invalid(DownloadFailed)), bytes;
          case Death(data, written) =>
            if resuming && |bytes| + |data| <= size && written <= |data| {
              partial := Some(bytes + data[..written]);
            }
            return Err(Crash), bytes;
          case Chunk(data) =>
            if |bytes| + |data| > size {
              if resuming {
                partial := None;
              }
              return Err(Invalid(SizeMismatch)), bytes;
            }
            if resuming {
              partial := Some(partial.value + data);
            }
            bytes := bytes + data;
        }
      }
      assert body[..|body|] == body;
    }

    /** One attempt. What it returns has the declared size and digest and is also the partial
        file; a wrong result is not kept. From an honest server and undisturbed it succeeds
        exactly when the bytes it started from were right; disturbed, it loses none of them. */
    method Transfer(release: Representation, resuming: bool, server: nat -> Reply, ghost content: seq<Byte>)
      returns (r: Result<seq<Byte>>)
      modifies this
      ensures r.Success? ==> Verify(r.value, release, digest).Ok? && (resuming ==> partial == Some(r.value))
      ensures partial.Some? && partial != old(partial) ==> |partial.value| <= release.size
      ensures !resuming ==> partial == old(partial)
      ensures Genuine(content, release, digest) && HonestServer(server, content) ==>
                var file := if resuming then old(partial) else None;
                EndsAs(content, Kept(file, release.size, server), Whole(server(Offset(file, release.size)).body), r,
                        if resuming then partial else None)
    {
      ghost var file := if resuming then partial else None;
      var offset := Offset(if resuming then partial else None, release.size);
      var reply := server(offset);
      ghost var honest := Genuine(content, release, digest) && HonestServer(server, content);
      if honest {
        if reply.status == 206 {
          HonestRangeCovers(reply.contentRange, offset, |content|);
        }
        Assembled(content, reply, offset, Kept(file, release.size, server));
      }
      var begin := Accept(reply, offset, release.size);
      if begin.None? {
        return Failure(Invalid(DownloadFailed));
      }
      var start := if resuming && begin.value > 0 then partial.value else [];
      if resuming && begin.value == 0 {
        partial := Some([]);
      }
      var received, bytes := Receive(reply.body, release.size, resuming, start);
      if received.Err? {
        return Failure(received.error);
      }
      var verified := Verify(bytes, release, digest);
      if verified.Err? {
        if resuming {
          partial := None;
        }
        return Failure(verified.error);
      }
      return Success(bytes);
    }
  }

  /** The release's bytes, which nothing else of that size shares a digest with. */
  ghost predicate Genuine(content: seq<Byte>, release: Representation, digest: seq<Byte> -> int) {
    && |content| == release.size <= MAX_U64 && digest(content) == release.digest
    && forall bytes :: |bytes| == |content| && digest(bytes) == digest(content) ==> bytes == content
  }

  ghost predicate HonestServer(server: nat -> Reply, content: seq<Byte>) {
    forall offset: nat :: offset <= |content| ==> Honest(server(offset), content, offset)
  }

  /** How an attempt at an honest server ends, from the bytes it kept. */
  predicate EndsAs(content: seq<Byte>, kept: seq<Byte>, whole: bool, r: Result<seq<Byte>>, file: Option<seq<Byte>>) {
    && (r.Success? ==> r.value == content)
    && (whole ==> (r.Success? <==> kept <= content))
    && (whole && r.Failure? ==> file.None?)
    && (!whole && r.Failure? && kept <= content && file.Some? ==> kept <= file.value <= content)
  }

  /** What an honest body makes of the bytes kept. */
  lemma Assembled(content: seq<Byte>, reply: Reply, offset: nat, kept: seq<Byte>)
    requires offset <= |content| && Honest(reply, content, offset)
    requires |kept| == if reply.status == 206 then offset else 0
    ensures |kept + Body(reply.body)| <= |content|
    ensures kept <= content ==> kept + Body(reply.body) <= content
    ensures Whole(reply.body) ==>
              |kept + Body(reply.body)| == |content| && (kept + Body(reply.body) == content <==> kept <= content)
  {
    var body := Body(reply.body);
    if kept <= content {
      assert content == kept + content[|kept|..];
    }
    if kept + body == content {
      assert content[..|kept|] == kept;
    }
  }

  function Data(event: Event): seq<Byte> {
    if event.Stall? then [] else event.data
  }

  /** The buffer after one more event is part of what the whole body makes of it. */
  lemma {:induction false} ReadOn(start: seq<Byte>, body: seq<Event>, i: nat)
    requires i < |body|
    ensures start + Body(body[..i]) + Data(body[i]) == start + Body(body[..i + 1])
    ensures start + Body(body[..i + 1]) <= start + Body(body)
    ensures start + Body(body[..i]) <= start + Body(body)
  {
    var before, now, all := Body(body[..i]), Body(body[..i + 1]), Body(body);
    assert now == before + Data(body[i]) by {
      assert body[..i + 1][..i] == body[..i];
    }
    assert start + before + Data(body[i]) == start + now;
    BodyGrows(body, i);
    BodyGrows(body, i + 1);
    PrefixAfter(start, before, all);
    PrefixAfter(start, now, all);
  }

  lemma PrefixAfter(start: seq<Byte>, a: seq<Byte>, b: seq<Byte>)
    requires a <= b
    ensures start + a <= start + b
  {
  }

  lemma {:induction false} BodyGrows(events: seq<Event>, n: nat)
    requires n <= |events|
    ensures Body(events[..n]) <= Body(events)
    decreases |events|
  {
    if n < |events| {
      assert events[..|events| - 1][..n] == events[..n];
      BodyGrows(events[..|events| - 1], n);
    } else {
      assert events[..n] == events;
    }
  }

  /** Whatever the partial file was left as, an honest server that honours or ignores ranges
      delivers the release within two attempts. */
  method Fetch(downloader: Downloader, release: Representation, resuming: bool, servers: seq<nat -> Reply>,
               ghost content: seq<Byte>)
    returns (r: Result<seq<Byte>>, attempts: nat)
    requires |servers| == 2 && Genuine(content, release, downloader.digest)
    requires forall i :: 0 <= i < 2 ==> HonestServer(servers[i], content) && Undisturbed(servers[i], release.size)
    modifies downloader
    ensures r == Success(content) && 1 <= attempts <= 2
    ensures resuming ==> downloader.partial == Some(content)
  {
    r := downloader.Transfer(release, resuming, servers[0], content);
    attempts := 1;
    if r.Failure? {
      r := downloader.Transfer(release, resuming, servers[1], content);
      attempts := 2;
    }
  }

  ghost predicate Undisturbed(server: nat -> Reply, size: nat) {
    forall offset: nat :: offset <= size ==> Whole(server(offset).body)
  }
}

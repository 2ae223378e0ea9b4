/**
 * Framing of HTTP requests on a connection: the incremental parser, the loop that hands bytes left over by one
 * request to the next, and what both make of a byte stream that arrives in pieces. Strings are byte strings.
 * What the header block says is a function `parse` of that block; everything here holds for any such function.
 */
module Http {
  import opened Jobs

  const MAX_HEADER_BYTES: nat := 16384
  const TERMINATOR: string := "\r\n\r\n"

  /** Of a header block: refused with a status, or the length of the body and whether the connection stays open. */
  datatype Head = Malformed(status: int) | Headed(length: nat, keepAlive: bool)

  datatype Request = Request(head: string, body: string, keepAlive: bool)

  /** What the bytes received so far amount to. */
  datatype Frame = Partial | Reject(status: int) | Done(request: Request, rest: string)

  datatype Ending = Waiting | Refused(status: int) | Closed

  /** The requests a connection delivers, how it ends, and the bytes that belong to none of them. */
  datatype Served = Served(requests: seq<Request>, ending: Ending, rest: string)

  // ---- the end of the header block ----

  predicate EndsAt(s: string, i: nat) { i + 4 <= |s| && s[i..i + 4] == TERMINATOR }

  function EndFrom(s: string, i: nat): (r: Option<nat>)
    ensures r.Some? ==> EndsAt(s, r.value) && r.value >= i
    ensures forall k: nat :: i <= k && (r.Some? ==> k < r.value) ==> !EndsAt(s, k)
    decreases |s| - i
  {
    if i + 4 > |s| then None else if s[i..i + 4] == TERMINATOR then Some(i) else EndFrom(s, i + 1)
  }

  /** The first terminator: std::string::find from the start. */
  function End(s: string): (r: Option<nat>)
    ensures r.Some? <==> exists k :: EndsAt(s, k)
    ensures r.Some? ==> EndsAt(s, r.value) && forall k: nat :: k < r.value ==> !EndsAt(s, k)
  {
    EndFrom(s, 0)
  }

  method FindEnd(s: string) returns (r: Option<nat>)
    ensures r == End(s)
  {
    var i := 0;
    while i + 4 <= |s|
      invariant EndFrom(s, 0) == EndFrom(s, i)
    {
      if s[i..i + 4] == TERMINATOR { return Some(i); }
      i := i + 1;
    }
    return None;
  }

  lemma EndsAtExtended(a: string, b: string, k: nat)
    ensures EndsAt(a, k) ==> EndsAt(a + b, k)
    ensures EndsAt(a + b, k) && k + 4 <= |a| ==> EndsAt(a, k)
  {
    if k + 4 <= |a| { assert (a + b)[k..k + 4] == a[k..k + 4]; }
  }

  /** A terminator once found stays the first; one that appears later ends after the bytes there were. */
  lemma EndExtended(a: string, b: string)
    ensures End(a).Some? ==> End(a + b) == End(a)
    ensures End(a).None? && End(a + b).Some? ==> |a| <= End(a + b).value + 3
    ensures End(a + b).Some? && End(a + b).value + 4 <= |a| ==> End(a) == End(a + b)
  {
    forall k: nat ensures EndsAt(a, k) ==> EndsAt(a + b, k) { EndsAtExtended(a, b, k); }
    forall k: nat ensures EndsAt(a + b, k) && k + 4 <= |a| ==> EndsAt(a, k) { EndsAtExtended(a, b, k); }
  }

  lemma EndFits(s: string, i: nat)
    ensures EndsAt(s, i) ==> i + 4 <= |s|
  {
  }

  lemma HeadExtended(a: string, b: string)
    ensures End(a).Some? ==>
              End(a + b) == End(a) && End(a).value + 4 <= |a| && (a + b)[..End(a).value] == a[..End(a).value]
  {
    EndExtended(a, b);
  }

  // ---- one request ----

  function FrameOf(parse: string -> Head, s: string): Frame {
    match End(s)
    case None => if |s| > MAX_HEADER_BYTES then Reject(431) else Partial
    case Some(end) =>
      if end > MAX_HEADER_BYTES then Reject(431) else
        match parse(s[..end])
        case Malformed(status) => Reject(status)
        case Headed(length, keepAlive) =>
          var next := end + 4 + length;
          if |s| < next then Partial else Done(Request(s[..end], s[end + 4..next], keepAlive), s[next..])
  }

  /** The bytes of a request as they were sent. */
  function Raw(r: Request): string { r.head + TERMINATOR + r.body }

  lemma FrameIsRaw(parse: string -> Head, s: string)
    ensures var f := FrameOf(parse, s); f.Done? ==> s == Raw(f.request) + f.rest && |f.rest| < |s|
  {
  }

  // ---- what the three verdicts mean ----

  /** The header block of `s` is its first `n` bytes. */
  ghost predicate HeadEnds(s: string, n: nat) {
    EndsAt(s, n) && forall k: nat :: k < n ==> !EndsAt(s, k)
  }

  lemma EndIsHead(s: string, n: nat)
    ensures End(s) == Some(n) <==> HeadEnds(s, n)
  {
  }

  /** `s` is a request, its body as long as its header block announces, and the bytes behind it. */
  ghost predicate Framed(parse: string -> Head, s: string, r: Request, rest: string) {
    && s == r.head + "\r\n\r\n" + r.body + rest && HeadEnds(s, |r.head|) && |r.head| <= 16384
    && parse(r.head) == Headed(|r.body|, r.keepAlive)
  }

  /** The terminator, or part of the announced body, is still missing. */
  ghost predicate Lacking(parse: string -> Head, s: string) {
    || (|s| <= 16384 && forall k: nat :: !EndsAt(s, k))
    || exists n: nat :: n <= 16384 && HeadEnds(s, n) && parse(s[..n]).Headed? && |s| < n + 4 + parse(s[..n]).length
  }

  /** The header block is too long, or refused. */
  ghost predicate Refusable(parse: string -> Head, s: string, status: int) {
    || (status == 431 && |s| > 16384 && forall k: nat :: !EndsAt(s, k))
    || (status == 431 && exists n: nat :: n > 16384 && HeadEnds(s, n))
    || exists n: nat :: n <= 16384 && HeadEnds(s, n) && parse(s[..n]) == Malformed(status)
  }

  lemma DoneIff(parse: string -> Head, s: string, r: Request, rest: string)
    ensures FrameOf(parse, s) == Done(r, rest) <==> Framed(parse, s, r, rest)
  {
    hide EndsAt, EndFrom;
    forall n: nat ensures End(s) == Some(n) <==> HeadEnds(s, n) { EndIsHead(s, n); }
    if Framed(parse, s, r, rest) {
      assert s[..|r.head|] == r.head;
      var next := |r.head| + 4 + |r.body|;
      assert s[|r.head| + 4..next] == r.body && s[next..] == rest;
    }
    if FrameOf(parse, s) == Done(r, rest) {
      FrameIsRaw(parse, s);
      assert s == r.head + "\r\n\r\n" + r.body + rest;
    }
  }

  lemma PartialIff(parse: string -> Head, s: string)
    ensures FrameOf(parse, s) == Partial <==> Lacking(parse, s)
  {
    forall n: nat ensures End(s) == Some(n) <==> HeadEnds(s, n) { EndIsHead(s, n); }
  }

  lemma RejectIff(parse: string -> Head, s: string, status: int)
    ensures FrameOf(parse, s) == Reject(status) <==> Refusable(parse, s, status)
  {
    forall n: nat ensures End(s) == Some(n) <==> HeadEnds(s, n) { EndIsHead(s, n); }
  }

  /** The header block ends where a packet boundary can decide whether it is too long. */
  predicate Ambiguous(s: string) {
    End(s).Some? && MAX_HEADER_BYTES - 2 <= End(s).value <= MAX_HEADER_BYTES
  }

  lemma CompleteIsStable(parse: string -> Head, a: string, b: string)
    ensures var f := FrameOf(parse, a); f.Done? ==> FrameOf(parse, a + b) == Done(f.request, f.rest + b)
  {
    if FrameOf(parse, a).Done? {
      EndExtended(a, b);
      var end := End(a).value;
      assert (a + b)[..end] == a[..end];
      var next := end + 4 + parse(a[..end]).length;
      assert (a + b)[end + 4..next] == a[end + 4..next] && (a + b)[next..] == a[next..] + b;
    }
  }

  lemma RejectIsStable(parse: string -> Head, a: string, b: string)
    requires !Ambiguous(a + b) && FrameOf(parse, a).Reject?
    ensures FrameOf(parse, a + b) == FrameOf(parse, a)
  {
    EndExtended(a, b);
    if End(a).Some? { assert (a + b)[..End(a).value] == a[..End(a).value]; }
  }

  /** Cutting a stream anywhere behind its first request leaves the request whole. */
  lemma CompleteInPrefix(parse: string -> Head, s: string, n: nat)
    requires var f := FrameOf(parse, s); f.Done? && n <= |f.rest|
    ensures var f := FrameOf(parse, s);
            FrameOf(parse, s[..|s| - |f.rest| + n]) == Done(f.request, f.rest[..n])
  {
    var f := FrameOf(parse, s);
    var end := End(s).value;
    var next := end + 4 + parse(s[..end]).length;
    var a, b := s[..next + n], s[next + n..];
    assert s == a + b && |s| - |f.rest| == next;
    EndExtended(a, b);
    assert a[..end] == s[..end] && a[end + 4..next] == s[end + 4..next] && a[next..] == f.rest[..n];
  }

  // ---- a connection ----

  function Concat(chunks: seq<string>): string { if chunks == [] then "" else chunks[0] + Concat(chunks[1..]) }

  function RawAll(requests: seq<Request>): string {
    if requests == [] then "" else Raw(requests[0]) + RawAll(requests[1..])
  }

  function Then(r: Request, s: Served): Served { s.(requests := [r] + s.requests) }

  /** The reference: the whole stream at once. */
  function Whole(parse: string -> Head, s: string): Served
    decreases |s|
  {
    match FrameOf(parse, s)
    case Partial => Served([], Waiting, s)
    case Reject(status) => Served([], Refused(status), s)
    case Done(r, rest) =>
      FrameIsRaw(parse, s);
      if r.keepAlive then Then(r, Whole(parse, rest)) else Served([r], Closed, rest)
  }

  /** serve_connection: `buffer` is what the parser holds, `chunks` what is still to be received. */
  function Chunked(parse: string -> Head, buffer: string, chunks: seq<string>): Served
    decreases |chunks|, |buffer|
  {
    match FrameOf(parse, buffer)
    case Partial => if chunks == [] then Served([], Waiting, buffer)
      else Chunked(parse, buffer + chunks[0], chunks[1..])
    case Reject(status) => Served([], Refused(status), buffer + Concat(chunks))
    case Done(r, rest) =>
      FrameIsRaw(parse, buffer);
      if r.keepAlive then Then(r, Chunked(parse, rest, chunks)) else Served([r], Closed, rest + Concat(chunks))
  }

  /** No header block of the stream is ambiguous. */
  predicate Clear(parse: string -> Head, s: string)
    decreases |s|
  {
    && !Ambiguous(s)
    && var f := FrameOf(parse, s);
       FrameIsRaw(parse, s);
       f.Done? && f.request.keepAlive ==> Clear(parse, f.rest)
  }

  /** With one request in front, the bytes of that request come in front. */
  lemma RawThen(r: Request, s: Served, tail: string)
    requires RawAll(s.requests) + s.rest == tail
    ensures RawAll(Then(r, s).requests) + s.rest == Raw(r) + tail
  {
    hide Raw;
    assert Then(r, s).requests[1..] == s.requests;
    assert Raw(r) + RawAll(s.requests) + s.rest == Raw(r) + (RawAll(s.requests) + s.rest);
  }

  /** Bytes are neither lost nor duplicated, however they arrive. */
  lemma {:induction false} NothingLost(parse: string -> Head, buffer: string, chunks: seq<string>)
    ensures var r := Chunked(parse, buffer, chunks); RawAll(r.requests) + r.rest == buffer + Concat(chunks)
    decreases |chunks|, |buffer|
  {
    hide FrameOf, RawAll, Then, Raw;
    var f := FrameOf(parse, buffer);
    FrameIsRaw(parse, buffer);
    assert RawAll([]) == "" by { NoRequests(); }
    match f
    case Partial =>
      if chunks != [] {
        NothingLost(parse, buffer + chunks[0], chunks[1..]);
        assert buffer + chunks[0] + Concat(chunks[1..]) == buffer + Concat(chunks);
      } else {
        assert "" + buffer == buffer + "";
      }
    case Reject(_) => assert "" + (buffer + Concat(chunks)) == buffer + Concat(chunks);
    case Done(r, rest) =>
      assert Raw(r) + (rest + Concat(chunks)) == buffer + Concat(chunks);
      if r.keepAlive {
        NothingLost(parse, rest, chunks);
        RawThen(r, Chunked(parse, rest, chunks), rest + Concat(chunks));
        OnlyRequests(r, Chunked(parse, rest, chunks));
      } else {
        OneRequest(r, rest + Concat(chunks));
      }
  }

  lemma NoRequests()
    ensures RawAll([]) == ""
  {
  }

  lemma OnlyRequests(r: Request, s: Served)
    ensures Then(r, s).rest == s.rest
  {
  }

  lemma OneRequest(r: Request, tail: string)
    ensures RawAll([r]) + tail == Raw(r) + tail
  {
    hide Raw;
    assert RawAll([r][1..]) == "" && Raw(r) + "" == Raw(r);
  }

  /**
   The requests a connection delivers, as its bytes say: each has the body its header block announces; all but a last
   one ask to go on; what is left is unfinished, or begins with something refused.
   */
  ghost predicate Delivers(parse: string -> Head, s: string, served: Served) {
    && RawAll(served.requests) + served.rest == s
    && (forall r <- served.requests :: |r.head| <= 16384 && parse(r.head) == Headed(|r.body|, r.keepAlive))
    && (forall k :: 0 <= k < |served.requests| - 1 ==> served.requests[k].keepAlive)
    && match served.ending
       case Waiting => Lacking(parse, served.rest) && KeepsOn(served.requests)
       case Refused(status) =>
         KeepsOn(served.requests) && exists n :: 0 <= n <= |served.rest| && Refusable(parse, served.rest[..n], status)
       case Closed => !KeepsOn(served.requests)
  }

  predicate KeepsOn(requests: seq<Request>) { requests == [] || requests[|requests| - 1].keepAlive }

  lemma DeliversThen(parse: string -> Head, s: string, r: Request, rest: string, tail: string, served: Served)
    requires Framed(parse, s, r, rest) && r.keepAlive && Delivers(parse, rest + tail, served)
    ensures Delivers(parse, s + tail, Then(r, served))
  {
    hide Lacking, Refusable, HeadEnds;
    var t := Then(r, served);
    RawThen(r, served, rest + tail);
    assert Raw(r) + (rest + tail) == s + tail;
    assert forall k :: 0 < k < |t.requests| ==> t.requests[k] == served.requests[k - 1];
  }

  lemma {:induction false} ChunkedDelivers(parse: string -> Head, buffer: string, chunks: seq<string>)
    ensures Delivers(parse, buffer + Concat(chunks), Chunked(parse, buffer, chunks))
    decreases |chunks|, |buffer|
  {
    hide FrameOf, Framed, Lacking, Refusable, Then, RawAll;
    var f := FrameOf(parse, buffer);
    NothingLost(parse, buffer, chunks);
    match f
    case Partial =>
      PartialIff(parse, buffer);
      if chunks != [] {
        ChunkedDelivers(parse, buffer + chunks[0], chunks[1..]);
        assert buffer + chunks[0] + Concat(chunks[1..]) == buffer + Concat(chunks);
      }
    case Reject(status) =>
      RejectIff(parse, buffer, status);
      assert (buffer + Concat(chunks))[..|buffer|] == buffer;
    case Done(r, rest) =>
      DoneIff(parse, buffer, r, rest);
      FrameIsRaw(parse, buffer);
      if r.keepAlive {
        ChunkedDelivers(parse, rest, chunks);
        DeliversThen(parse, buffer, r, rest, Concat(chunks), Chunked(parse, rest, chunks));
      } else {
        FramedAnnounces(parse, buffer, r, rest);
      }
  }

  lemma FramedAnnounces(parse: string -> Head, s: string, r: Request, rest: string)
    requires Framed(parse, s, r, rest)
    ensures |r.head| <= 16384 && parse(r.head) == Headed(|r.body|, r.keepAlive)
  {
  }

  /** Any split of a clear stream gives the requests, and the first error, of the whole stream. */
  lemma {:induction false} ChunkingIrrelevant(parse: string -> Head, buffer: string, chunks: seq<string>)
    requires Clear(parse, buffer + Concat(chunks))
    ensures Chunked(parse, buffer, chunks) == Whole(parse, buffer + Concat(chunks))
    decreases |chunks|, |buffer|
  {
    var f := FrameOf(parse, buffer);
    var s := buffer + Concat(chunks);
    match f
    case Partial =>
      if chunks == [] {
        assert s == buffer;
      } else {
        assert s == buffer + chunks[0] + Concat(chunks[1..]);
        ChunkingIrrelevant(parse, buffer + chunks[0], chunks[1..]);
      }
    case Reject(_) => RejectIsStable(parse, buffer, Concat(chunks));
    case Done(r, rest) =>
      FrameIsRaw(parse, buffer);
      CompleteIsStable(parse, buffer, Concat(chunks));
      if r.keepAlive { ChunkingIrrelevant(parse, rest, chunks); }
  }

  /** parse_headers never answers 431. */
  ghost predicate Distinguishes(parse: string -> Head) { forall head :: parse(head) != Malformed(431) }

  /** A stream that is not clear can be cut in two so that it is refused where, in one piece, it is not. */
  lemma {:induction false} AmbiguityShows(parse: string -> Head, s: string) returns (n: nat)
    requires Distinguishes(parse) && !Clear(parse, s)
    ensures n <= |s| && Chunked(parse, s[..n], [s[n..]]) != Whole(parse, s)
    decreases |s|
  {
    if Ambiguous(s) {
      var end := End(s).value;
      n := MAX_HEADER_BYTES + 1;
      assert s == s[..n] + s[n..];
      EndExtended(s[..n], s[n..]);
      assert FrameOf(parse, s[..n]) == Reject(431);
      assert parse(s[..end]) != Malformed(431);
      assert Whole(parse, s).ending != Refused(431) || Whole(parse, s).requests != [];
    } else {
      var f := FrameOf(parse, s);
      FrameIsRaw(parse, s);
      var m := AmbiguityShows(parse, f.rest);
      n := |s| - |f.rest| + m;
      CompleteInPrefix(parse, s, m);
      assert s[n..] == f.rest[m..];
      assert Chunked(parse, s[..n], [s[n..]]) == Then(f.request, Chunked(parse, f.rest[..m], [f.rest[m..]]));
      var a, b := Chunked(parse, f.rest[..m], [f.rest[m..]]), Whole(parse, f.rest);
      assert Then(f.request, a).requests[1..] == a.requests && Then(f.request, b).requests[1..] == b.requests;
    }
  }

  lemma TwoPieces(parse: string -> Head, s: string, n: nat)
    requires n <= |s|
    ensures Concat([s[..n], s[n..]]) == s
    ensures Chunked(parse, "", [s[..n], s[n..]]) == Chunked(parse, s[..n], [s[n..]])
  {
    var chunks := [s[..n], s[n..]];
    assert chunks[1..] == [s[n..]] && Concat([s[n..]]) == s[n..] + "" == s[n..];
    assert s[..n] + s[n..] == s;
    assert FrameOf(parse, "") == Partial;
    assert "" + s[..n] == s[..n];
  }

  /** Exactly the clear streams are framed the same way however they are cut. */
  lemma IndependentIffClear(parse: string -> Head, s: string)
    requires Distinguishes(parse)
    ensures Clear(parse, s) <==> forall chunks :: Concat(chunks) == s ==> Chunked(parse, "", chunks) == Whole(parse, s)
  {
    hide Distinguishes, Clear, Chunked, Whole;
    if Clear(parse, s) {
      forall chunks | Concat(chunks) == s ensures Chunked(parse, "", chunks) == Whole(parse, s) {
        assert "" + Concat(chunks) == s;
        ChunkingIrrelevant(parse, "", chunks);
      }
    } else {
      var n := AmbiguityShows(parse, s);
      TwoPieces(parse, s, n);
    }
  }

  /** There are such streams: a header block of exactly the limit, with the terminator behind it. */
  lemma AmbiguousStreamsExist() returns (s: string)
    ensures Ambiguous(s)
  {
    var head := seq(MAX_HEADER_BYTES, _ => 'a');
    s := head + TERMINATOR;
    assert s[MAX_HEADER_BYTES..MAX_HEADER_BYTES + 4] == TERMINATOR;
    assert EndsAt(s, MAX_HEADER_BYTES);
    forall k: nat | k < MAX_HEADER_BYTES ensures !EndsAt(s, k) {
      assert s[k] == 'a';
      if k + 4 <= |s| { assert s[k..k + 4][0] == 'a'; }
    }
  }

  // ---- the parser and the connection loop ----

  datatype Status = NeedMore | Complete | Error

  function StatusOf(f: Frame): Status {
    match f
    case Partial => NeedMore
    case Reject(_) => Error
    case Done(_, _) => Complete
  }

  class HttpRequestParser {
    const parse: string -> Head
    var buffer: string
    var headersDone: bool
    var bodyExpected: nat
    var bodyStart: nat
    var consumed: nat
    var keepAlive: bool
    var body: string
    var errorStatus: int

    /** What parse_headers found is still what the buffer says. */
    ghost predicate Valid()
      reads this
    {
      headersDone ==>
        && bodyStart >= 4 && End(buffer) == Some(bodyStart - 4) && bodyStart - 4 <= MAX_HEADER_BYTES
        && bodyStart <= |buffer|
        && parse(buffer[..bodyStart - 4]) == Headed(bodyExpected, keepAlive)
    }

    constructor (parseHeaders: string -> Head)
      ensures Valid() && buffer == "" && parse == parseHeaders
    {
      parse := parseHeaders;
      buffer, headersDone, bodyExpected, bodyStart, consumed := "", false, 0, 0, 0;
      keepAlive, body, errorStatus := false, "", 400;
    }

    method Reset()
      modifies this
      ensures Valid() && buffer == ""
    {
      buffer, headersDone, bodyExpected, bodyStart, consumed := "", false, 0, 0, 0;
      keepAlive, body, errorStatus := false, "", 400;
    }

    /** The verdict is that of the bytes received since the last reset, taken as one piece. */
    method Feed(data: string) returns (status: Status)
      requires Valid()
      modifies this
      ensures Valid() && buffer == old(buffer) + data
      ensures var f := FrameOf(parse, buffer);
              && status == StatusOf(f)
              && (f.Reject? ==> errorStatus == f.status)
              && (f.Done? ==> CompletedRequest() == f.request && Leftover() == f.rest)
      ensures status == NeedMore <==> Lacking(parse, buffer)
      ensures status == Complete ==> Framed(parse, buffer, CompletedRequest(), Leftover())
      ensures status == Error ==> Refusable(parse, buffer, errorStatus)
    {
      status := Take(data);
      hide FrameOf, Lacking, Framed, Refusable;
      PartialIff(parse, buffer);
      RejectIff(parse, buffer, errorStatus);
      DoneIff(parse, buffer, CompletedRequest(), Leftover());
    }

    /** feed itself; Feed says what its answer means. */
    method Take(data: string) returns (status: Status)
      requires Valid()
      modifies this
      ensures Valid() && buffer == old(buffer) + data
      ensures var f := FrameOf(parse, buffer);
              && status == StatusOf(f)
              && (f.Reject? ==> errorStatus == f.status)
              && (f.Done? ==> CompletedRequest() == f.request && Leftover() == f.rest)
    {
      hide EndsAt, EndFrom, End;
      HeadExtended(buffer, data);
      buffer := buffer + data;
      if !headersDone {
        var ended := ReadHead();
        if ended != Complete { return ended; }
      }
      if |buffer| - bodyStart < bodyExpected { return NeedMore; }
      body := buffer[bodyStart..bodyStart + bodyExpected];
      consumed := bodyStart + bodyExpected;
      return Complete;
    }

    /** The header part of feed: Complete when there is a header block and it is in order. */
    method ReadHead() returns (status: Status)
      requires !headersDone
      modifies `bodyStart, `bodyExpected, `keepAlive, `headersDone, `errorStatus
      ensures Valid() && (headersDone <==> status == Complete)
      ensures status != Complete ==> status == StatusOf(FrameOf(parse, buffer))
      ensures status == Error ==> FrameOf(parse, buffer) == Reject(errorStatus)
    {
      hide EndsAt, EndFrom;
      var end := FindEnd(buffer);
      if end.None? {
        if |buffer| > MAX_HEADER_BYTES {
          errorStatus := 431;
          return Error;
        }
        return NeedMore;
      }
      assert end.value + 4 <= |buffer| by { assert EndsAt(buffer, end.value); EndFits(buffer, end.value); }
      if end.value > MAX_HEADER_BYTES {
        errorStatus := 431;
        return Error;
      }
      bodyStart := end.value + 4;
      var head := parse(buffer[..bodyStart - 4]);
      if head.Malformed? {
        errorStatus := head.status;
        return Error;
      }
      bodyExpected, keepAlive := head.length, head.keepAlive;
      headersDone := true;
      return Complete;
    }

    function CompletedRequest(): Request
      reads this
    {
      if 4 <= bodyStart <= |buffer| then Request(buffer[..bodyStart - 4], body, keepAlive)
      else Request("", body, keepAlive)
    }

    /** Bytes already read that belong to the next request. */
    function Leftover(): string
      reads this
    {
      if consumed < |buffer| then buffer[consumed..] else ""
    }
  }

  function Prefixed(done: seq<Request>, s: Served): Served { s.(requests := done + s.requests) }

  lemma PrefixedThen(done: seq<Request>, r: Request, s: Served)
    ensures Prefixed(done, Then(r, s)) == Prefixed(done + [r], s)
  {
    assert done + ([r] + s.requests) == done + [r] + s.requests;
  }

  /** serve_connection up to the handlers: `chunks` are what successive reads return, and the peer closes after them. */
  method ServeConnection(parse: string -> Head, chunks: seq<string>) returns (served: Served)
    ensures served == Chunked(parse, "", chunks)
    ensures Delivers(parse, Concat(chunks), served)
  {
    hide FrameOf, Delivers, Framed, Lacking, Refusable;
    assert Delivers(parse, Concat(chunks), Chunked(parse, "", chunks)) by {
      ChunkedDelivers(parse, "", chunks);
      assert "" + Concat(chunks) == Concat(chunks);
    }
    var parser := new HttpRequestParser(parse);
    var requests: seq<Request>, pending, i := [], "", 0;
    while true
      invariant parser.Valid() && parser.parse == parse && fresh(parser) && i <= |chunks|
      invariant Chunked(parse, "", chunks) == Prefixed(requests, Chunked(parse, pending, chunks[i..]))
      decreases |chunks| - i, |pending|
    {
      ghost var first := i;
      parser.Reset();
      NothingYet(parse);
      var status := NeedMore;
      if pending != "" {
        status := parser.Feed(pending);
        assert "" + pending == pending;
      }
      while status == NeedMore && i < |chunks|
        invariant first <= i <= |chunks| && parser.Valid() && parser.parse == parse && fresh(parser)
        invariant Chunked(parse, pending, chunks[first..]) == Chunked(parse, parser.buffer, chunks[i..])
        invariant i == first ==> parser.buffer == pending
        invariant Reported(parse, parser, status)
        decreases |chunks| - i
      {
        status := parser.Feed(chunks[i]);
        assert chunks[i..][1..] == chunks[i + 1..];
        i := i + 1;
      }
      if status == NeedMore {
        assert chunks[i..] == [];
        return Served(requests, Waiting, parser.buffer);
      }
      if status == Error {
        var unread := Rest(chunks, i);
        return Served(requests, Refused(parser.errorStatus), parser.buffer + unread);
      }
      var r := parser.CompletedRequest();
      FrameIsRaw(parse, parser.buffer);
      if !r.keepAlive {
        var unread := Rest(chunks, i);
        return Served(requests + [r], Closed, parser.Leftover() + unread);
      }
      PrefixedThen(requests, r, Chunked(parse, parser.Leftover(), chunks[i..]));
      pending := parser.Leftover();
      requests := requests + [r];
    }
  }

  ghost predicate Reported(parse: string -> Head, parser: HttpRequestParser, status: Status)
    reads parser
  {
    var f := FrameOf(parse, parser.buffer);
    && status == StatusOf(f)
    && (f.Reject? ==> parser.errorStatus == f.status)
    && (f.Done? ==> parser.CompletedRequest() == f.request && parser.Leftover() == f.rest)
  }

  lemma NothingYet(parse: string -> Head)
    ensures FrameOf(parse, "") == Partial
  {
  }

  /** What was sent and never read. */
  method Rest(chunks: seq<string>, from: nat) returns (unread: string)
    requires from <= |chunks|
    ensures unread == Concat(chunks[from..])
  {
    unread := "";
    var i := |chunks|;
    while i > from
      invariant from <= i <= |chunks| && unread == Concat(chunks[i..])
    {
      i := i - 1;
      assert chunks[i..][1..] == chunks[i + 1..];
      unread := chunks[i] + unread;
    }
  }
}

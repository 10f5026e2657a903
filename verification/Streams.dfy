/** Scanners that see a response body piece by piece (sseCounter and tailBuffer
    in controller/gateway/proxy.go, sseCollector in superborg.go) agree with a
    scan of the whole body, however it is cut. */
module Streams {
  import opened Ordering
  import opened Text
  import opened Wrappers

  type Bytes = string

  const SSE_EVENT: Bytes := "data: {"
  const K: nat := 6

  /** The pieces of a body in order. */
  function Join(chunks: seq<Bytes>): Bytes
  {
    if chunks == [] then [] else Join(chunks[..|chunks| - 1]) + chunks[|chunks| - 1]
  }

  // ----- occurrences of the event marker -----------------------------------------------

  /** The marker m occurs at position i of s. */
  predicate At(m: Bytes, s: Bytes, i: int)
  {
    0 <= i && i + |m| <= |s| && s[i..i + |m|] == m
  }

  /** At how many positions lo <= i < hi the marker occurs. */
  function Hits(m: Bytes, s: Bytes, lo: int, hi: int): nat
    decreases hi - lo
  {
    if hi <= lo then 0 else Hits(m, s, lo, hi - 1) + (if At(m, s, hi - 1) then 1 else 0)
  }

  function Occurrences(m: Bytes, s: Bytes): nat { Hits(m, s, 0, |s|) }

  /** bytes.Count: non-overlapping occurrences, scanned from the left. */
  function Count(m: Bytes, s: Bytes): nat
    requires m != []
    decreases |s|
  {
    if |s| < |m| then 0
    else if At(m, s, 0) then 1 + Count(m, s[|m|..])
    else Count(m, s[1..])
  }

  lemma {:induction false} HitsSplit(m: Bytes, s: Bytes, lo: int, mid: int, hi: int)
    requires lo <= mid <= hi
    ensures Hits(m, s, lo, hi) == Hits(m, s, lo, mid) + Hits(m, s, mid, hi)
    decreases hi - mid
  {
    if mid < hi { HitsSplit(m, s, lo, mid, hi - 1); }
  }

  lemma {:induction false} HitsShift(m: Bytes, s: Bytes, t: Bytes, lo: int, hi: int, d: int)
    requires forall i :: lo <= i < hi ==> At(m, s, i) == At(m, t, i + d)
    ensures Hits(m, s, lo, hi) == Hits(m, t, lo + d, hi + d)
    decreases hi - lo
  {
    hide At;
    if lo < hi {
      HitsShift(m, s, t, lo, hi - 1, d);
      assert At(m, s, hi - 1) == At(m, t, hi - 1 + d);
    }
  }

  lemma {:induction false} NoHits(m: Bytes, s: Bytes, lo: int, hi: int)
    requires forall i :: lo <= i < hi ==> !At(m, s, i)
    ensures Hits(m, s, lo, hi) == 0
    decreases hi - lo
  {
    if lo < hi { NoHits(m, s, lo, hi - 1); }
  }

  /** No two characters of the marker equal its first, so it never overlaps
      itself. */
  predicate NonOverlapping(m: Bytes)
  {
    m != [] && forall j :: 0 < j < |m| ==> m[j] != m[0]
  }

  lemma MarkerIsNonOverlapping()
    ensures |SSE_EVENT| == K + 1 && NonOverlapping(SSE_EVENT)
  {
    assert SSE_EVENT[1] == 'a' && SSE_EVENT[2] == 't' && SSE_EVENT[3] == 'a' && SSE_EVENT[4] == ':' && SSE_EVENT[5] == ' ' && SSE_EVENT[6] == '{';
  }

  lemma NotInside(m: Bytes, s: Bytes, k: int, j: int)
    requires NonOverlapping(m) && At(m, s, k) && k < j < k + |m|
    ensures !At(m, s, j)
  {
    assert s[j] == m[j - k];
    if j + |m| <= |s| { assert s[j..j + |m|][0] == s[j]; }
  }

  lemma NoneInside(m: Bytes, s: Bytes, k: int)
    requires NonOverlapping(m) && At(m, s, k)
    ensures Hits(m, s, k + 1, k + |m|) == 0
  {
    forall j | k + 1 <= j < k + |m| ensures !At(m, s, j) { NotInside(m, s, k, j); }
    hide NonOverlapping, At;
    NoHits(m, s, k + 1, k + |m|);
  }

  /** A left-to-right count of non-overlapping matches finds every occurrence. */
  lemma {:induction false} CountFindsAll(m: Bytes, s: Bytes, k: nat)
    requires NonOverlapping(m) && k <= |s|
    ensures Count(m, s[k..]) == Hits(m, s, k, |s|)
    decreases |s| - k
  {
    assert m != [];
    hide NonOverlapping;
    var t := s[k..];
    if |t| < |m| {
      NoHits(m, s, k, |s|);
    } else {
      assert t[..|m|] == s[k..k + |m|];
      HitsSplit(m, s, k, k + 1, |s|);
      assert Hits(m, s, k, k + 1) == Hits(m, s, k, k) + (if At(m, s, k) then 1 else 0);
      if At(m, s, k) {
        HitsSplit(m, s, k + 1, k + |m|, |s|);
        NoneInside(m, s, k);
        assert t[|m|..] == s[k + |m|..];
        CountFindsAll(m, s, k + |m|);
      } else {
        assert t[1..] == s[k + 1..];
        CountFindsAll(m, s, k + 1);
      }
    }
  }

  lemma CountIsOccurrences(m: Bytes, s: Bytes)
    requires NonOverlapping(m)
    ensures Count(m, s) == Occurrences(m, s)
  {
    CountFindsAll(m, s, 0);
    assert s[0..] == s;
  }

  lemma AtInPart(m: Bytes, s: Bytes, t: Bytes, i: int, d: int)
    requires 0 <= i <= i + |m| <= |s| && 0 <= i + d <= i + d + |m| <= |t|
    requires s[i..i + |m|] == t[i + d..i + d + |m|]
    ensures At(m, s, i) == At(m, t, i + d)
  {
  }

  lemma AtInFront(m: Bytes, a: Bytes, b: Bytes, i: int)
    requires 0 <= i <= i + |m| <= |a|
    ensures At(m, a, i) == At(m, a + b, i)
  {
    assert (a + b)[i..i + |m|] == a[i..i + |m|];
    AtInPart(m, a, a + b, i, 0);
  }

  /** Occurrences that start early enough to lie in the first part. */
  lemma HitsInFront(m: Bytes, a: Bytes, b: Bytes, k: nat)
    requires |m| == k + 1
    ensures Hits(m, a + b, 0, |a| - |Last(a, k)|) == Occurrences(m, a)
  {
    var n := |a| - |Last(a, k)|;
    assert n == 0 || n + k == |a|;
    hide Last, Hits;
    HitsSplit(m, a, 0, n, |a|);
    NoHits(m, a, n, |a|);
    forall i | 0 <= i < n ensures At(m, a, i) == At(m, a + b, i + 0) { AtInFront(m, a, b, i); }
    hide At;
    HitsShift(m, a, a + b, 0, n, 0);
  }

  lemma HitsInBack(m: Bytes, a: Bytes, b: Bytes)
    ensures Hits(m, a + b, |a|, |a + b|) == Occurrences(m, b)
  {
    forall i | 0 <= i < |b| ensures At(m, b, i) == At(m, a + b, i + |a|) {
      if i + |m| <= |b| {
        assert (a + b)[i + |a|..i + |a| + |m|] == b[i..i + |m|];
        AtInPart(m, b, a + b, i, |a|);
      }
    }
    HitsShift(m, b, a + b, 0, |b|, |a|);
  }

  lemma PieceAround(a: Bytes, b: Bytes, k: nat, n: nat)
    requires n <= |b|
    ensures |Last(a, k)| <= |a|
    ensures var c := Last(a, k); var d := |a| - |c|; c + b[..n] == (a + b)[d..|a| + n]
  {
    var c := Last(a, k);
    var d := |a| - |c|;
    assert c == a[d..];
    assert (a + b)[d..|a| + n] == a[d..] + b[..n];
  }

  /** Occurrences that start in [lo, mid) are those of the slice that goes on
      for up to |m| - 1 more bytes. */
  lemma HitsInSlice(m: Bytes, s: Bytes, lo: nat, mid: nat, hi: nat)
    requires m != [] && lo <= mid <= hi <= |s|
    requires hi - mid == |m| - 1 || (hi - mid < |m| && hi == |s|)
    ensures Hits(m, s, lo, mid) == Occurrences(m, s[lo..hi])
  {
    hide Hits;
    var t := s[lo..hi];
    HitsSplit(m, t, 0, mid - lo, |t|);
    NoHits(m, t, mid - lo, |t|);
    forall i | 0 <= i < mid - lo ensures At(m, t, i) == At(m, s, i + lo) { AtInSlice(m, s, lo, hi, i); }
    HitsShift(m, t, s, 0, mid - lo, lo);
  }

  lemma MinIs(a: int, b: int)
    ensures Min(a, b) == if a < b then a else b
  {
  }

  /** Occurrences across the boundary are those of the piece of stream around
      it: the last k bytes before and the first k after. */
  lemma HitsAcross(m: Bytes, a: Bytes, b: Bytes, k: nat)
    requires |m| == k + 1
    ensures Hits(m, a + b, |a| - |Last(a, k)|, |a|) == Occurrences(m, Last(a, k) + b[..Min(|b|, k)])
  {
    hide *;
    var n := if |b| < k then |b| else k;
    MinIs(|b|, k);
    PieceAround(a, b, k, n);
    var s, lo := a + b, |a| - |Last(a, k)|;
    assert |s| == |a| + |b|;
    HitsInSlice(m, s, lo, |a|, |a| + n);
  }

  lemma AtInSlice(m: Bytes, s: Bytes, lo: nat, hi: nat, i: nat)
    requires lo <= hi <= |s| && (lo + i + |m| <= hi || hi == |s|)
    requires m != []
    ensures At(m, s[lo..hi], i) == At(m, s, i + lo)
  {
    if lo + i + |m| <= hi {
      var t := s[lo..hi];
      var u, v := t[i..i + |m|], s[i + lo..i + lo + |m|];
      assert forall x :: 0 <= x < |m| ==> u[x] == t[i + x] && v[x] == s[i + lo + x];
      assert u == v;
    }
  }

  /** A match across the boundary lies in head, one inside p in p, none in both. */
  lemma HeadAndBody(m: Bytes, seen: Bytes, p: Bytes, k: nat)
    requires NonOverlapping(m) && |m| == k + 1
    ensures Occurrences(m, seen + p) == Occurrences(m, seen) + Count(m, Last(seen, k) + p[..Min(|p|, k)]) + Count(m, p)
  {
    var s, c := seen + p, Last(seen, k);
    CountIsOccurrences(m, c + p[..Min(|p|, k)]);
    CountIsOccurrences(m, p);
    HitsSplit(m, s, 0, |seen|, |s|);
    HitsSplit(m, s, 0, |seen| - |c|, |seen|);
    HitsInFront(m, seen, p, k);
    HitsAcross(m, seen, p, k);
    HitsInBack(m, seen, p);
  }

  // ----- sseCounter -----------------------------------------------------------------------

  class SseCounter {
    var n: nat
    var carry: Bytes
    ghost var seen: Bytes

    /** n counts the whole stream so far and carry is its last 6 bytes. */
    ghost predicate Valid()
      reads this
    {
      n == Occurrences(SSE_EVENT, seen) && carry == Last(seen, K)
    }

    constructor ()
      ensures Valid() && seen == []
    {
      n, carry, seen := 0, [], [];
    }

    method Write(p: Bytes)
      requires Valid()
      modifies this
      ensures Valid() && seen == old(seen) + p
    {
      MarkerIsNonOverlapping();
      hide NonOverlapping, Occurrences, Count;
      var k := |SSE_EVENT| - 1;
      var head := carry + p[..Min(|p|, k)];
      HeadAndBody(SSE_EVENT, seen, p, K);
      n := n + Count(SSE_EVENT, head) + Count(SSE_EVENT, p);
      LastAppend(seen, p, K);
      if |p| >= k {
        carry := p[|p| - k..];
      } else {
        carry := head[Max(0, |head| - k)..];
      }
      seen := seen + p;
    }
  }

  /** However a stream is cut, the counter ends with the number of occurrences
      of the marker in the whole of it. */
  method CountStream(chunks: seq<Bytes>) returns (n: nat)
    ensures n == Occurrences(SSE_EVENT, Join(chunks)) == Count(SSE_EVENT, Join(chunks))
  {
    var c := new SseCounter();
    for i := 0 to |chunks|
      invariant fresh(c) && c.Valid() && c.seen == Join(chunks[..i])
    {
      assert chunks[..i + 1][..i] == chunks[..i];
      c.Write(chunks[i]);
    }
    assert chunks[..|chunks|] == chunks;
    MarkerIsNonOverlapping();
    CountIsOccurrences(SSE_EVENT, Join(chunks));
    n := c.n;
  }

  // ----- tailBuffer -------------------------------------------------------------------------

  class TailBuffer {
    const max: nat
    var buf: Bytes
    ghost var seen: Bytes

    ghost predicate Valid()
      reads this
    {
      buf == Last(seen, max)
    }

    constructor (max: nat)
      ensures Valid() && seen == [] && this.max == max
    {
      this.max, buf, seen := max, [], [];
    }

    method Write(p: Bytes)
      requires Valid()
      modifies this
      ensures Valid() && seen == old(seen) + p
    {
      LastAppend(seen, p, max);
      buf := buf + p;
      var over := |buf| - max;
      if over > 0 { buf := buf[over..]; }
      seen := seen + p;
    }
  }

  /** However a stream is cut, the buffer ends with its last min(max, length)
      bytes. */
  method TailOfStream(chunks: seq<Bytes>, max: nat) returns (tail: Bytes)
    ensures tail == Last(Join(chunks), max)
  {
    var t := new TailBuffer(max);
    for i := 0 to |chunks|
      invariant fresh(t) && t.Valid() && t.max == max && t.seen == Join(chunks[..i])
    {
      assert chunks[..i + 1][..i] == chunks[..i];
      t.Write(chunks[i]);
    }
    assert chunks[..|chunks|] == chunks;
    tail := t.buf;
  }

  // ----- sseCollector -----------------------------------------------------------------------

  /** The complete lines of a stream, without their newlines, and the rest. */
  function Lines(s: Bytes): seq<Bytes>
  {
    if s == [] then []
    else if s[|s| - 1] == '\n' then Lines(s[..|s| - 1]) + [Rest(s[..|s| - 1])]
    else Lines(s[..|s| - 1])
  }

  function Rest(s: Bytes): Bytes
  {
    if s == [] then []
    else if s[|s| - 1] == '\n' then []
    else Rest(s[..|s| - 1]) + [s[|s| - 1]]
  }

  /** Lines and the rest are a faithful split: joined by newlines they give the
      stream back, and none of them holds a newline. */
  function Unsplit(lines: seq<Bytes>): Bytes
  {
    if lines == [] then [] else Unsplit(lines[..|lines| - 1]) + lines[|lines| - 1] + ['\n']
  }

  lemma {:induction false} LinesAreFaithful(s: Bytes)
    ensures Unsplit(Lines(s)) + Rest(s) == s
    ensures '\n' !in Rest(s) && forall l :: l in Lines(s) ==> '\n' !in l
  {
    if s != [] {
      var init, c := s[..|s| - 1], s[|s| - 1];
      LinesAreFaithful(init);
      assert s == init + [c];
      if c == '\n' {
        var ls := Lines(init) + [Rest(init)];
        assert ls[..|ls| - 1] == Lines(init);
      }
    }
  }

  lemma LinesSnoc(s: Bytes, c: char)
    ensures Lines(s + [c]) == if c == '\n' then Lines(s) + [Rest(s)] else Lines(s)
    ensures Rest(s + [c]) == if c == '\n' then [] else Rest(s) + [c]
  {
    assert (s + [c])[..|s|] == s;
  }

  lemma {:induction false} LinesAppend(s: Bytes, t: Bytes)
    ensures Lines(s + t) == Lines(s) + Lines(Rest(s) + t)
    ensures Rest(s + t) == Rest(Rest(s) + t)
  {
    hide Lines, Rest;
    if t == [] {
      LinesAreFaithful(s);
      assert s + t == s && Rest(s) + t == Rest(s);
      NoNewlineNoLines(Rest(s));
    } else {
      var init, c := t[..|t| - 1], t[|t| - 1];
      LinesAppend(s, init);
      LinesSnoc(s + init, c);
      LinesSnoc(Rest(s) + init, c);
      assert s + t == s + init + [c] && Rest(s) + t == Rest(s) + init + [c];
    }
  }

  lemma {:induction false} NoNewlineNoLines(s: Bytes)
    requires '\n' !in s
    ensures Lines(s) == [] && Rest(s) == s
  {
    if s != [] {
      NoNewlineNoLines(s[..|s| - 1]);
      assert s == s[..|s| - 1] + [s[|s| - 1]];
      assert s[|s| - 1] in s;
    }
  }

  lemma OneLineOf(l: Bytes)
    requires '\n' !in l
    ensures Lines(l + ['\n']) == [l] && Rest(l + ['\n']) == []
  {
    NoNewlineNoLines(l);
    assert (l + ['\n'])[..|l|] == l;
  }

  lemma FirstNewline(s: Bytes, i: nat)
    requires i < |s| && s[i] == '\n' && '\n' !in s[..i]
    ensures Lines(s) == [s[..i]] + Lines(s[i + 1..]) && Rest(s) == Rest(s[i + 1..])
  {
    hide Lines, Rest;
    var a, b := s[..i] + ['\n'], s[i + 1..];
    OneLineOf(s[..i]);
    assert s == a + b;
    LinesAppend(a, b);
    assert [] + b == b;
  }

  /** A streamed piece of one tool call. */
  datatype CallDelta = CallDelta(index: int, id: string, name: string, arguments: string)

  /** What one SSE data event carries, once its JSON is read. */
  datatype Event = Event(content: string, calls: seq<CallDelta>)

  datatype ToolCall = ToolCall(id: string, name: string, arguments: string)

  /** What a collector has put together: text and calls in order of arrival. */
  datatype Answer = Answer(content: string, calls: map<int, ToolCall>, order: seq<int>)

  const NOTHING := Answer("", map[], [])

  function AddCall(a: Answer, d: CallDelta): Answer
  {
    var c := if d.index in a.calls then a.calls[d.index] else ToolCall("", "", "");
    var c' := ToolCall(if d.id != "" then d.id else c.id, c.name + d.name, c.arguments + d.arguments);
    Answer(a.content, a.calls[d.index := c'], if d.index in a.calls then a.order else a.order + [d.index])
  }

  function AddCalls(a: Answer, ds: seq<CallDelta>): Answer
  {
    if ds == [] then a else AddCall(AddCalls(a, ds[..|ds| - 1]), ds[|ds| - 1])
  }

  /** parse is the JSON reader: None for a line that is no data event, or one
      without choices. */
  function AddLine(a: Answer, line: Bytes, parse: Bytes -> Option<Event>): Answer
  {
    match parse(TrimSpace(line))
    case None => a
    case Some(e) => AddCalls(a.(content := a.content + e.content), e.calls)
  }

  function AddLines(a: Answer, lines: seq<Bytes>, parse: Bytes -> Option<Event>): Answer
  {
    if lines == [] then a else AddLine(AddLines(a, lines[..|lines| - 1], parse), lines[|lines| - 1], parse)
  }

  lemma {:induction false} AddLinesAppend(a: Answer, ls: seq<Bytes>, ms: seq<Bytes>, parse: Bytes -> Option<Event>)
    ensures AddLines(a, ls + ms, parse) == AddLines(AddLines(a, ls, parse), ms, parse)
  {
    if ms == [] {
      assert ls + ms == ls;
    } else {
      AddLinesAppend(a, ls, ms[..|ms| - 1], parse);
      assert (ls + ms)[..|ls + ms| - 1] == ls + ms[..|ms| - 1];
    }
  }

  method IndexByte(s: Bytes, c: char) returns (i: int)
    ensures i < 0 ==> c !in s
    ensures i >= 0 ==> i < |s| && s[i] == c && c !in s[..i]
  {
    i := 0;
    while i < |s|
      invariant 0 <= i <= |s| && c !in s[..i]
    {
      if s[i] == c { return; }
      i := i + 1;
    }
    i := -1;
  }

  class SseCollector {
    const parse: Bytes -> Option<Event>
    var line: Bytes
    var content: string
    var calls: map<int, ToolCall>
    var order: seq<int>
    ghost var seen: Bytes

    function Value(): Answer
      reads this
    {
      Answer(content, calls, order)
    }

    /** The collector holds what a scan of the whole stream would give, and the
        unfinished line of it. */
    ghost predicate Valid()
      reads this
    {
      line == Rest(seen) && Value() == AddLines(NOTHING, Lines(seen), parse)
    }

    constructor (parse: Bytes -> Option<Event>)
      ensures Valid() && seen == [] && this.parse == parse
    {
      this.parse, line, seen := parse, [], [];
      content, calls, order := "", map[], [];
    }

    method HandleCall(d: CallDelta)
      modifies this`calls, this`order
      ensures Value() == AddCall(old(Value()), d)
    {
      var c := ToolCall("", "", "");
      if d.index in calls { c := calls[d.index]; } else { order := order + [d.index]; }
      if d.id != "" { c := c.(id := d.id); }
      calls := calls[d.index := c.(name := c.name + d.name, arguments := c.arguments + d.arguments)];
    }

    method HandleLine(l: Bytes)
      modifies this`content, this`calls, this`order
      ensures Value() == AddLine(old(Value()), l, parse)
    {
      match parse(TrimSpace(l)) {
        case None =>
        case Some(e) =>
          content := content + e.content;
          ghost var start := Value();
          for i := 0 to |e.calls|
            invariant Value() == AddCalls(start, e.calls[..i])
          {
            assert e.calls[..i + 1][..i] == e.calls[..i];
            HandleCall(e.calls[i]);
          }
          assert e.calls[..|e.calls|] == e.calls;
      }
    }

    method Write(p: Bytes)
      requires Valid()
      modifies this
      ensures Valid() && seen == old(seen) + p
    {
      hide AddLine;
      LinesAppend(seen, p);
      AddLinesAppend(NOTHING, Lines(seen), Lines(Rest(seen) + p), parse);
      seen := seen + p;
      line := line + p;
      var i := IndexByte(line, '\n');
      while i >= 0
        invariant i < 0 ==> '\n' !in line
        invariant i >= 0 ==> i < |line| && line[i] == '\n' && '\n' !in line[..i]
        invariant seen == old(seen) + p && Rest(seen) == Rest(line)
        invariant AddLines(NOTHING, Lines(seen), parse) == AddLines(Value(), Lines(line), parse)
        decreases |line|
      {
        FirstNewline(line, i);
        AddLinesAppend(Value(), [line[..i]], Lines(line[i + 1..]), parse);
        OneLine(Value(), line[..i], parse);
        HandleLine(line[..i]);
        line := line[i + 1..];
        i := IndexByte(line, '\n');
      }
      NoNewlineNoLines(line);
    }
  }

  lemma OneLine(a: Answer, l: Bytes, parse: Bytes -> Option<Event>)
    ensures AddLines(a, [l], parse) == AddLine(a, l, parse)
  {
    assert [l][..0] == [];
    assert AddLines(a, [], parse) == a;
  }

  /** However a stream is cut, the collector handles the lines of the whole of
      it, in order, and keeps its unfinished last line. */
  method CollectStream(chunks: seq<Bytes>, parse: Bytes -> Option<Event>) returns (answer: Answer, rest: Bytes)
    ensures answer == AddLines(NOTHING, Lines(Join(chunks)), parse) && rest == Rest(Join(chunks))
    ensures answer.content == TextOf(Lines(Join(chunks)), parse) && Assembled(answer, DeltasOf(Lines(Join(chunks)), parse))
  {
    LinesAreAssembled(Lines(Join(chunks)), parse);
    hide Assembled, TextOf, DeltasOf, Lines;
    var s := new SseCollector(parse);
    for i := 0 to |chunks|
      invariant fresh(s) && s.Valid() && s.parse == parse && s.seen == Join(chunks[..i])
    {
      assert chunks[..i + 1][..i] == chunks[..i];
      s.Write(chunks[i]);
    }
    assert chunks[..|chunks|] == chunks;
    answer, rest := s.Value(), s.line;
  }

  // ----- tool calls -------------------------------------------------------------------------

  /** The deltas of one call, in order. */
  function Of(ds: seq<CallDelta>, index: int): seq<CallDelta>
  {
    if ds == [] then []
    else
      var d := ds[|ds| - 1];
      Of(ds[..|ds| - 1], index) + (if d.index == index then [d] else [])
  }

  /** The indices in order of first appearance. */
  function FirstSeen(ds: seq<CallDelta>): seq<int>
  {
    if ds == [] then []
    else
      var before, i := FirstSeen(ds[..|ds| - 1]), ds[|ds| - 1].index;
      if i in before then before else before + [i]
  }

  /** What the deltas of one call add up to: the names and arguments in order,
      and the last id that is not empty. */
  function Joined(ds: seq<CallDelta>): ToolCall
  {
    if ds == [] then ToolCall("", "", "")
    else
      var c, d := Joined(ds[..|ds| - 1]), ds[|ds| - 1];
      ToolCall(if d.id != "" then d.id else c.id, c.name + d.name, c.arguments + d.arguments)
  }

  /** The call index appears in ds at k and not before. */
  ghost predicate FirstAt(ds: seq<CallDelta>, k: int, index: int)
  {
    0 <= k < |ds| && ds[k].index == index && forall j :: 0 <= j < k ==> ds[j].index != index
  }

  ghost predicate LastId(ds: seq<CallDelta>, k: int)
  {
    0 <= k < |ds| && ds[k].id != "" && forall j :: k < j < |ds| ==> ds[j].id == ""
  }

  /** FirstSeen in words: every index that appears is listed once, and of two
      the one that appears first comes first. */
  lemma {:induction false} FirstSeenIs(ds: seq<CallDelta>)
    ensures Distinct(FirstSeen(ds)) && forall i :: i in FirstSeen(ds) <==> exists d :: d in ds && d.index == i
    ensures forall x, y, k, l :: 0 <= x < y < |FirstSeen(ds)| && FirstAt(ds, k, FirstSeen(ds)[x]) && FirstAt(ds, l, FirstSeen(ds)[y]) ==> k < l
  {
    if ds != [] {
      var n := |ds| - 1;
      var init, i := ds[..n], ds[n].index;
      FirstSeenIs(init);
      assert ds == init + [ds[n]];
      var before, r := FirstSeen(init), FirstSeen(ds);
      assert r == if i in before then before else before + [i];
      hide FirstSeen;
      SeenMore(init, ds[n], before, r);
      forall x, y, k, l | 0 <= x < y < |r| && FirstAt(ds, k, r[x]) && FirstAt(ds, l, r[y]) ensures k < l {
        assert r[x] == before[x] && before[x] in before;
        FirstInInit(init, ds[n], k, r[x]);
        if y < |before| {
          assert before[y] in before;
          FirstInInit(init, ds[n], l, r[y]);
        } else {
          NotInInit(init, ds[n], l);
        }
      }
    }
  }

  lemma SeenMore(init: seq<CallDelta>, d: CallDelta, before: seq<int>, r: seq<int>)
    requires Distinct(before) && forall i :: i in before <==> exists e :: e in init && e.index == i
    requires r == if d.index in before then before else before + [d.index]
    ensures Distinct(r) && forall i :: i in r <==> exists e :: e in init + [d] && e.index == i
  {
    forall i ensures i in r <==> exists e :: e in init + [d] && e.index == i {
      if i in before { var e :| e in init && e.index == i; assert e in init + [d]; }
      if i == d.index { assert d in init + [d]; }
    }
  }

  lemma FirstInInit(init: seq<CallDelta>, d: CallDelta, k: int, index: int)
    requires FirstAt(init + [d], k, index) && exists e :: e in init && e.index == index
    ensures FirstAt(init, k, index)
  {
    var ds := init + [d];
    var j :| 0 <= j < |init| && init[j].index == index;
    assert ds[j] == init[j] && k <= j;
    assert forall i :: 0 <= i < k ==> init[i] == ds[i];
  }

  lemma NotInInit(init: seq<CallDelta>, d: CallDelta, l: int)
    requires FirstAt(init + [d], l, d.index) && !exists e :: e in init && e.index == d.index
    ensures l == |init|
  {
    forall j | 0 <= j < |init| ensures (init + [d])[j].index != d.index { assert init[j] in init; }
  }

  /** The id of a call is its last non-empty one, if it has one. */
  lemma {:induction false} JoinedId(ds: seq<CallDelta>)
    ensures forall k :: LastId(ds, k) ==> Joined(ds).id == ds[k].id
    ensures Joined(ds).id != "" ==> exists k :: LastId(ds, k)
  {
    if ds != [] {
      var n := |ds| - 1;
      JoinedId(ds[..n]);
      if ds[n].id != "" {
        assert LastId(ds, n);
      } else {
        assert forall k :: LastId(ds, k) ==> LastId(ds[..n], k);
        assert forall k :: LastId(ds[..n], k) ==> LastId(ds, k);
      }
    }
  }

  /** Calls are listed in order of first appearance, exactly the indices that
      appeared, and each one is what its own deltas add up to. */
  ghost predicate Assembled(a: Answer, ds: seq<CallDelta>)
  {
    && a.order == FirstSeen(ds) && (forall i :: i in a.calls <==> i in a.order)
    && (forall i :: i in a.calls ==> a.calls[i] == Joined(Of(ds, i)))
    && (forall i :: i !in a.calls ==> Of(ds, i) == [])
  }

  lemma OfSnoc(ds: seq<CallDelta>, d: CallDelta, index: int)
    ensures Of(ds + [d], index) == Of(ds, index) + (if d.index == index then [d] else [])
    ensures FirstSeen(ds + [d]) == if d.index in FirstSeen(ds) then FirstSeen(ds) else FirstSeen(ds) + [d.index]
  {
    assert (ds + [d])[..|ds|] == ds;
  }

  lemma JoinedSnoc(ds: seq<CallDelta>, d: CallDelta)
    ensures Joined(ds + [d]) == ToolCall(if d.id != "" then d.id else Joined(ds).id, Joined(ds).name + d.name, Joined(ds).arguments + d.arguments)
  {
    assert (ds + [d])[..|ds|] == ds;
  }

  lemma AssembledSnoc(a: Answer, ds: seq<CallDelta>, d: CallDelta)
    requires Assembled(a, ds)
    ensures Assembled(AddCall(a, d), ds + [d])
  {
    hide Of, FirstSeen, Joined;
    OfSnoc(ds, d, d.index);
    forall i ensures i in AddCall(a, d).calls ==> AddCall(a, d).calls[i] == Joined(Of(ds + [d], i))
             ensures i !in AddCall(a, d).calls ==> Of(ds + [d], i) == []
    {
      CallSnoc(a, ds, d, i);
    }
  }

  lemma CallSnoc(a: Answer, ds: seq<CallDelta>, d: CallDelta, i: int)
    requires Assembled(a, ds)
    ensures var b, c := AddCall(a, d).calls, Of(ds + [d], i);
            if i in b then b[i] == Joined(c) else c == []
  {
    hide Of, FirstSeen, Joined;
    OfSnoc(ds, d, i);
    NothingJoined();
    if i == d.index {
      JoinedSnoc(Of(ds, i), d);
    } else {
      assert Of(ds, i) + [] == Of(ds, i);
    }
  }

  lemma NothingJoined()
    ensures Joined([]) == ToolCall("", "", "")
  {
  }

  lemma SameText(a: Answer, d: CallDelta)
    ensures AddCall(a, d).content == a.content
  {
  }

  lemma {:induction false} AssembledMore(a: Answer, ds: seq<CallDelta>, es: seq<CallDelta>)
    requires Assembled(a, ds)
    ensures Assembled(AddCalls(a, es), ds + es) && AddCalls(a, es).content == a.content
  {
    hide Assembled, AddCall;
    if es == [] {
      assert ds + es == ds;
    } else {
      var init, d := es[..|es| - 1], es[|es| - 1];
      AssembledMore(a, ds, init);
      SameText(AddCalls(a, init), d);
      AssembledSnoc(AddCalls(a, init), ds + init, d);
      assert ds + es == ds + init + [d];
    }
  }

  /** However the deltas of different calls interleave, the calls are
      assembled. */
  lemma CallsAreAssembled(ds: seq<CallDelta>)
    ensures Assembled(AddCalls(NOTHING, ds), ds)
  {
    assert Assembled(NOTHING, []);
    AssembledMore(NOTHING, [], ds);
    assert [] + ds == ds;
  }

  /** The text and the deltas of the data events among these lines. */
  function TextOf(lines: seq<Bytes>, parse: Bytes -> Option<Event>): string
  {
    if lines == [] then ""
    else TextOf(lines[..|lines| - 1], parse) + (match parse(TrimSpace(lines[|lines| - 1])) case None => "" case Some(e) => e.content)
  }

  function DeltasOf(lines: seq<Bytes>, parse: Bytes -> Option<Event>): seq<CallDelta>
  {
    if lines == [] then []
    else DeltasOf(lines[..|lines| - 1], parse) + (match parse(TrimSpace(lines[|lines| - 1])) case None => [] case Some(e) => e.calls)
  }

  /** So the collector's answer is the text of the stream's events, and the calls
      are assembled from all their deltas. */
  lemma {:induction false} LinesAreAssembled(lines: seq<Bytes>, parse: Bytes -> Option<Event>)
    ensures var a := AddLines(NOTHING, lines, parse);
            a.content == TextOf(lines, parse) && Assembled(a, DeltasOf(lines, parse))
  {
    if lines == [] {
      assert Assembled(NOTHING, []);
    } else {
      var init, line := lines[..|lines| - 1], lines[|lines| - 1];
      LinesAreAssembled(init, parse);
      hide Of, FirstSeen, Joined, TrimSpace;
      var a := AddLines(NOTHING, init, parse);
      match parse(TrimSpace(line)) {
        case None => assert DeltasOf(init, parse) + [] == DeltasOf(init, parse);
        case Some(e) => AssembledMore(a.(content := a.content + e.content), DeltasOf(init, parse), e.calls);
      }
    }
  }
}

/** Parallel tool calls may be interleaved in any way: the assembled calls are the same. */
module StreamInterleaving {
  import opened Wrappers
  import opened StreamAssembler
  import opened StreamCalls

  /** Every header has an index, and every delta the index of an earlier header. */
  ghost predicate Indexed(s: seq<Part>) {
    forall i | 0 <= i < |s| ::
      && (s[i].ToolCall? ==> s[i].streamIndex.Some?)
      && (s[i].ToolCallPart? ==> s[i].index.Some? && LastWith(s, i, s[i].index.value) >= 0)
  }

  predicate HasIndex(p: Part, idx: Index) {
    IsHeader(p, idx) || (p.ToolCallPart? && p.index == Some(idx))
  }

  /** What one index contributes: its headers and deltas, in order. */
  function Channel(s: seq<Part>, n: nat, idx: Index): seq<Part>
    requires n <= |s|
  {
    if n == 0 then [] else Channel(s, n - 1, idx) + if HasIndex(s[n - 1], idx) then [s[n - 1]] else []
  }

  function HeaderParts(s: seq<Part>, n: nat): (r: seq<Part>)
    requires n <= |s|
    ensures |r| == |Headers(s, n)| && forall k | 0 <= k < |r| :: r[k] == s[Headers(s, n)[k]]
  {
    if n == 0 then [] else HeaderParts(s, n - 1) + if s[n - 1].ToolCall? then [s[n - 1]] else []
  }

  function HeaderCount(parts: seq<Part>, idx: Index): nat {
    if parts == [] then 0
    else HeaderCount(parts[..|parts| - 1], idx) + if IsHeader(parts[|parts| - 1], idx) then 1 else 0
  }

  lemma CountSnoc(parts: seq<Part>, p: Part, idx: Index)
    ensures HeaderCount(parts + [p], idx) == HeaderCount(parts, idx) + if IsHeader(p, idx) then 1 else 0
  {
  }

  /** The arguments of the channel's header number `r`: its own and the deltas up to the next header. */
  function SegmentArgs(channel: seq<Part>, r: nat, idx: Index): Option<string> {
    if channel == [] then None
    else
      var front, last := channel[..|channel| - 1], channel[|channel| - 1];
      if last.ToolCall? then
        if HeaderCount(front, idx) == r then last.arguments else SegmentArgs(front, r, idx)
      else if last.ToolCallPart? && HeaderCount(front, idx) == r + 1 then
        AppendArguments(SegmentArgs(front, r, idx), last.argumentsPart)
      else SegmentArgs(front, r, idx)
  }

  lemma SegmentSnoc(channel: seq<Part>, p: Part, r: nat, idx: Index)
    requires HasIndex(p, idx)
    ensures SegmentArgs(channel + [p], r, idx) ==
            if p.ToolCall? then
              if HeaderCount(channel, idx) == r then p.arguments else SegmentArgs(channel, r, idx)
            else if HeaderCount(channel, idx) == r + 1 then
              AppendArguments(SegmentArgs(channel, r, idx), p.argumentsPart)
            else SegmentArgs(channel, r, idx)
  {
  }

  /** Headers of an index are counted alike in its channel and in the header sequence. */
  lemma {:induction false} SameCount(s: seq<Part>, n: nat, idx: Index)
    requires n <= |s|
    ensures HeaderCount(Channel(s, n, idx), idx) == HeaderCount(HeaderParts(s, n), idx)
  {
    hide HeaderCount, Channel, HeaderParts, Headers;
    if n == 0 {
      NothingCounted(s, idx);
    } else {
      SameCount(s, n - 1, idx);
      ChannelStep(s, n, idx);
      HeaderPartsStep(s, n);
      CountSnoc(Channel(s, n - 1, idx), s[n - 1], idx);
      CountSnoc(HeaderParts(s, n - 1), s[n - 1], idx);
    }
  }

  lemma NothingCounted(s: seq<Part>, idx: Index)
    ensures HeaderCount(Channel(s, 0, idx), idx) == 0 && HeaderCount(HeaderParts(s, 0), idx) == 0
  {
  }

  lemma ChannelStep(s: seq<Part>, n: nat, idx: Index)
    requires 0 < n <= |s|
    ensures Channel(s, n, idx) ==
            if HasIndex(s[n - 1], idx) then Channel(s, n - 1, idx) + [s[n - 1]] else Channel(s, n - 1, idx)
  {
  }

  lemma HeaderPartsStep(s: seq<Part>, n: nat)
    requires 0 < n <= |s|
    ensures HeaderParts(s, n) ==
            if s[n - 1].ToolCall? then HeaderParts(s, n - 1) + [s[n - 1]] else HeaderParts(s, n - 1)
  {
  }

  /** `h` is the last header of its index iff none has been counted since. */
  lemma {:induction false} CountSince(s: seq<Part>, h: nat, n: nat, idx: Index)
    requires h < n <= |s| && IsHeader(s[h], idx)
    ensures var before, now := HeaderCount(Channel(s, h, idx), idx), HeaderCount(Channel(s, n, idx), idx);
            now >= before + 1 && (now == before + 1 <==> LastWith(s, n, idx) == h)
  {
    hide HeaderCount, Channel;
    CountSnoc(Channel(s, n - 1, idx), s[n - 1], idx);
    ChannelStep(s, n, idx);
    if h < n - 1 {
      CountSince(s, h, n - 1, idx);
    }
  }

  /** A call's arguments can be read off its channel alone. */
  lemma {:induction false} ArgsFromChannel(s: seq<Part>, h: nat, n: nat, idx: Index)
    requires h < n <= |s| && IsHeader(s[h], idx) && Indexed(s)
    ensures ArgsAt(s, h, n) == SegmentArgs(Channel(s, n, idx), HeaderCount(Channel(s, h, idx), idx), idx)
  {
    hide HeaderCount, SegmentArgs, Channel;
    var r, p, channel := HeaderCount(Channel(s, h, idx), idx), s[n - 1], Channel(s, n - 1, idx);
    ChannelStep(s, n, idx);
    if HasIndex(p, idx) {
      SegmentSnoc(channel, p, r, idx);
    }
    if h < n - 1 {
      ArgsFromChannel(s, h, n - 1, idx);
      CountSince(s, h, n - 1, idx);
      if p.ToolCallPart? {
        IndexedDelta(s, n - 1);
      }
    }
  }

  /** The headers before header number `k`. */
  lemma {:induction false} HeadersBefore(s: seq<Part>, n: nat, k: nat)
    requires n <= |s| && k < |Headers(s, n)|
    ensures HeaderParts(s, Headers(s, n)[k]) == HeaderParts(s, n)[..k]
  {
    if k < |Headers(s, n - 1)| {
      HeadersBefore(s, n - 1, k);
      assert HeaderParts(s, n)[..k] == HeaderParts(s, n - 1)[..k];
    } else {
      assert HeaderParts(s, n)[..k] == HeaderParts(s, n - 1);
    }
  }

  /** Two streams with the same headers in the same order and the same channels. */
  ghost predicate SameChannels(s: seq<Part>, t: seq<Part>) {
    && HeaderParts(s, |s|) == HeaderParts(t, |t|)
    && forall idx :: Channel(s, |s|, idx) == Channel(t, |t|, idx)
  }

  lemma SameCall(s: seq<Part>, t: seq<Part>, k: nat)
    requires Indexed(s) && Indexed(t) && SameChannels(s, t) && k < |Headers(s, |s|)|
    ensures |Headers(s, |s|)| == |Headers(t, |t|)|
    ensures CallAt(s, Headers(s, |s|)[k], |s|) == CallAt(t, Headers(t, |t|)[k], |t|)
  {
    hide HeaderCount, SegmentArgs, Channel, Headers, ArgsAt;
    assert |HeaderParts(s, |s|)| == |HeaderParts(t, |t|)|;
    var g, h := Headers(s, |s|)[k], Headers(t, |t|)[k];
    assert s[g] == HeaderParts(s, |s|)[k] && t[h] == HeaderParts(t, |t|)[k];
    var idx := s[g].streamIndex.value;
    HeadersBefore(s, |s|, k);
    HeadersBefore(t, |t|, k);
    SameCount(s, g, idx);
    SameCount(t, h, idx);
    ArgsFromChannel(s, g, |s|, idx);
    ArgsFromChannel(t, h, |t|, idx);
    assert Channel(s, |s|, idx) == Channel(t, |t|, idx);
  }

  /** However the channels and the content are interleaved, the same tool calls come out. */
  lemma InterleavingDoesNotMatter(s: seq<Part>, t: seq<Part>)
    requires Indexed(s) && Indexed(t) && SameChannels(s, t)
    ensures Final(s).toolCalls == Final(t).toolCalls
  {
    hide Final, CallAt, Headers, Channel, Indexed;
    CallsAreRight(s);
    CallsAreRight(t);
    assert |HeaderParts(s, |s|)| == |HeaderParts(t, |t|)|;
    forall k | 0 <= k < |Calls(s)|
      ensures Calls(s)[k] == Calls(t)[k]
    {
      SameCall(s, t, k);
    }
  }
}

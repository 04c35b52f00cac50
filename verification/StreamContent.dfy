/** What becomes of the content parts of a stream. */
module StreamContent {
  import opened Wrappers
  import opened StreamAssembler
  import opened StreamCalls

  /** The first `n` parts without the deltas that belong to a call. */
  function Significant(s: seq<Part>, n: nat): seq<Part>
    requires n <= |s|
  {
    if n == 0 then [] else Significant(s, n - 1) + if Target(s, n - 1) >= 0 then [] else [s[n - 1]]
  }

  // ---------- maximal runs ----------

  predicate Joins(p: Part, q: Part) {
    (p.Text? && q.Text?) || (p.Think? && q.Think? && p.encrypted.None?)
  }

  /** Length of the run of joining parts that starts `sig`. */
  function RunLength(sig: seq<Part>): (n: nat)
    requires sig != []
    ensures 1 <= n <= |sig|
  {
    if |sig| > 1 && Joins(sig[0], sig[1]) then 1 + RunLength(sig[1..]) else 1
  }

  function JoinedText(run: seq<Part>): string {
    if run == [] then ""
    else JoinedText(run[..|run| - 1]) + if run[|run| - 1].Text? then run[|run| - 1].text else ""
  }

  function JoinedThink(run: seq<Part>): string {
    if run == [] then ""
    else JoinedThink(run[..|run| - 1]) + if run[|run| - 1].Think? then run[|run| - 1].think else ""
  }

  /** A run as one part: the concatenated text, and the signature of its last part. */
  function Glue(run: seq<Part>): Part
    requires run != []
  {
    var last := run[|run| - 1];
    if last.Text? then Text(JoinedText(run))
    else if last.Think? then Think(JoinedThink(run), last.encrypted)
    else last
  }

  /** The content parts, every maximal run made into one part. */
  function Merged(sig: seq<Part>): seq<Part>
    decreases |sig|
  {
    if sig == [] then []
    else if !IsContent(sig[0]) then Merged(sig[1..])
    else [Glue(sig[..RunLength(sig)])] + Merged(sig[RunLength(sig)..])
  }

  // ---------- appending one part ----------

  lemma {:induction false} RunLengthSnoc(sig: seq<Part>, p: Part)
    requires sig != []
    ensures RunLength(sig + [p]) ==
            if RunLength(sig) == |sig| && Joins(sig[|sig| - 1], p) then |sig| + 1 else RunLength(sig)
    decreases |sig|
  {
    if |sig| > 1 {
      assert (sig + [p])[1..] == sig[1..] + [p];
      RunLengthSnoc(sig[1..], p);
    }
  }

  lemma GlueSnoc(run: seq<Part>, p: Part)
    requires run != [] && RunLength(run) == |run| && Joins(run[|run| - 1], p)
    ensures Merge(Glue(run), p) == Some(Glue(run + [p]))
  {
  }

  lemma GlueSingle(p: Part)
    requires IsContent(p)
    ensures Glue([p]) == p
  {
    assert [p][..0] == [];
    assert p.Text? ==> JoinedText([p]) == "" + p.text;
    assert p.Think? ==> JoinedThink([p]) == "" + p.think;
  }

  /** How `Merged` grows: the last part absorbs `p`, or `p` starts a new one. */
  ghost predicate GrowsBy(prior: seq<Part>, p: Part, joined: bool, grown: seq<Part>) {
    if joined then
      && prior != [] && Merge(prior[|prior| - 1], p).Some?
      && grown == prior[..|prior| - 1] + [Merge(prior[|prior| - 1], p).value]
    else grown == prior + if IsContent(p) then [p] else []
  }

  predicate JoinsLast(sig: seq<Part>, p: Part) {
    sig != [] && Joins(sig[|sig| - 1], p)
  }

  lemma GrowsUnder(head: seq<Part>, prior: seq<Part>, p: Part, joined: bool, grown: seq<Part>)
    requires GrowsBy(prior, p, joined, grown)
    ensures GrowsBy(head + prior, p, joined, head + grown)
  {
  }

  lemma MergedOne(p: Part)
    ensures Merged([p]) == if IsContent(p) then [p] else []
  {
    if IsContent(p) {
      GlueSingle(p);
      assert [p][..1] == [p] && [p][1..] == [];
    }
  }

  lemma {:induction false} MergedSnoc(sig: seq<Part>, p: Part)
    ensures GrowsBy(Merged(sig), p, JoinsLast(sig, p), Merged(sig + [p]))
    decreases |sig|
  {
    hide Glue, RunLength;
    if sig == [] {
      MergedOne(p);
      assert sig + [p] == [p];
    } else if !IsContent(sig[0]) {
      assert (sig + [p])[1..] == sig[1..] + [p];
      MergedSnoc(sig[1..], p);
    } else {
      var n := RunLength(sig);
      RunLengthSnoc(sig, p);
      MergedHead(sig);
      MergedHead(sig + [p]);
      if n < |sig| {
        assert (sig + [p])[..n] == sig[..n] && (sig + [p])[n..] == sig[n..] + [p];
        MergedSnoc(sig[n..], p);
        GrowsUnder([Glue(sig[..n])], Merged(sig[n..]), p, JoinsLast(sig, p), Merged(sig[n..] + [p]));
      } else {
        LastRun(sig, p);
      }
    }
  }

  lemma MergedHead(sig: seq<Part>)
    requires sig != [] && IsContent(sig[0])
    ensures Merged(sig) == [Glue(sig[..RunLength(sig)])] + Merged(sig[RunLength(sig)..])
  {
  }

  /** The part comes right after a stream that is one single run. */
  lemma LastRun(sig: seq<Part>, p: Part)
    requires sig != [] && IsContent(sig[0]) && RunLength(sig) == |sig|
    ensures GrowsBy(Merged(sig), p, JoinsLast(sig, p), Merged(sig + [p]))
  {
    hide Glue, RunLength, Merged, Merge, Joins, IsContent;
    var longer := sig + [p];
    RunLengthSnoc(sig, p);
    MergedHead(sig);
    MergedHead(longer);
    assert sig[..|sig|] == sig && longer[..|sig| + 1] == longer && longer[..|sig|] == sig;
    assert sig[|sig|..] == [] && longer[|sig| + 1..] == [] && longer[|sig|..] == [p];
    NothingMerged();
    if JoinsLast(sig, p) {
      GlueSnoc(sig, p);
      assert [Glue(sig)] + [] == [Glue(sig)] && [Glue(longer)] + [] == [Glue(longer)];
    } else {
      MergedOne(p);
    }
  }

  lemma NothingMerged()
    ensures Merged([]) == []
  {
  }

  // ---------- the loop builds exactly that ----------

  function WithPending(st: LoopState): seq<Part> {
    st.content + if st.pending.Some? && IsContent(st.pending.value) then [st.pending.value] else []
  }

  predicate Resembles(p: Part, q: Part) {
    && (p.Text? <==> q.Text?) && (p.Media? <==> q.Media?) && (p.ToolCall? <==> q.ToolCall?)
    && (p.Think? <==> q.Think?) && (p.Think? ==> p.encrypted == q.encrypted)
  }

  ghost predicate ContentInv(s: seq<Part>, n: nat, st: LoopState)
    requires n <= |s|
  {
    var sig := Significant(s, n);
    && WithPending(st) == Merged(sig)
    && (st.pending.None? <==> sig == [])
    && (sig != [] ==> Resembles(st.pending.value, sig[|sig| - 1]))
  }

  /** A delta that belongs to a call touches neither the content nor the kind of what is pending. */
  lemma AbsorbedStep(s: seq<Part>, n: nat, st: LoopState)
    requires n < |s| && Inv(s, n, st) && ContentInv(s, n, st) && Target(s, n) >= 0
    ensures ContentInv(s, n + 1, Step(st, s[n]))
  {
    hide Merged, Target, CallsOk, MapOk, Significant;
    SignificantStep(s, n);
    DeltaTarget(s, n, st);
  }

  lemma SignificantStep(s: seq<Part>, n: nat)
    requires n < |s|
    ensures Significant(s, n + 1) ==
            if Target(s, n) >= 0 then Significant(s, n) else Significant(s, n) + [s[n]]
  {
  }

  /** Every other part merges with the pending one or replaces it. */
  lemma SignificantPart(s: seq<Part>, n: nat, st: LoopState)
    requires n < |s| && Inv(s, n, st) && ContentInv(s, n, st) && Target(s, n) < 0
    ensures ContentInv(s, n + 1, Step(st, s[n]))
  {
    hide Merged, Target, CallsOk, MapOk, Significant;
    SignificantStep(s, n);
    var sig, p := Significant(s, n), s[n];
    if p.ToolCallPart? {
      DeltaTarget(s, n, st);
    }
    MergedSnoc(sig, p);
    NothingMerged();
  }

  lemma {:induction false} ContentInvariant(s: seq<Part>, n: nat)
    requires n <= |s|
    ensures ContentInv(s, n, After(s, n))
  {
    hide ContentInv, Inv, Step;
    if n == 0 {
      ContentStart(s);
    } else {
      ContentInvariant(s, n - 1);
      Invariant(s, n - 1);
      if Target(s, n - 1) >= 0 {
        AbsorbedStep(s, n - 1, After(s, n - 1));
      } else {
        SignificantPart(s, n - 1, After(s, n - 1));
      }
    }
  }

  lemma ContentStart(s: seq<Part>)
    ensures ContentInv(s, 0, Empty)
  {
  }

  /**
    For every stream: the content is the stream's content parts with every maximal run made into one
    part; calls and orphan deltas end a run, deltas of a call do not.
   */
  lemma ContentIsMerged(s: seq<Part>)
    ensures Final(s).content == Merged(Significant(s, |s|))
  {
    hide Merged, Significant, After;
    ContentInvariant(s, |s|);
  }

  // ---------- nothing lost, doubled or reordered ----------

  datatype Item = TextChar(c: char) | ThinkChar(k: char) | Signature(value: string) | MediaItem(media: Part)

  function TextItems(text: string): seq<Item> {
    if text == [] then [] else TextItems(text[..|text| - 1]) + [TextChar(text[|text| - 1])]
  }

  function ThinkItems(text: string): seq<Item> {
    if text == [] then [] else ThinkItems(text[..|text| - 1]) + [ThinkChar(text[|text| - 1])]
  }

  /** The characters of a part; a signature stands right after the thought that it signs. */
  function Items(p: Part): seq<Item> {
    match p
    case Text(text) => TextItems(text)
    case Think(think, encrypted) => ThinkItems(think) + if encrypted.Some? then [Signature(encrypted.value)] else []
    case Media(_, _, _) => [MediaItem(p)]
    case _ => []
  }

  function AllItems(parts: seq<Part>): seq<Item> {
    if parts == [] then [] else AllItems(parts[..|parts| - 1]) + Items(parts[|parts| - 1])
  }

  lemma ItemsSnoc(parts: seq<Part>, p: Part)
    ensures AllItems(parts + [p]) == AllItems(parts) + Items(p)
  {
  }

  lemma {:induction false} TextItemsConcat(a: string, b: string)
    ensures TextItems(a + b) == TextItems(a) + TextItems(b)
    decreases |b|
  {
    if b == [] {
      assert a + b == a;
    } else {
      assert (a + b)[..|a + b| - 1] == a + b[..|b| - 1];
      TextItemsConcat(a, b[..|b| - 1]);
    }
  }

  lemma {:induction false} ThinkItemsConcat(a: string, b: string)
    ensures ThinkItems(a + b) == ThinkItems(a) + ThinkItems(b)
    decreases |b|
  {
    if b == [] {
      assert a + b == a;
    } else {
      assert (a + b)[..|a + b| - 1] == a + b[..|b| - 1];
      ThinkItemsConcat(a, b[..|b| - 1]);
    }
  }

  /** Merging keeps the characters and their order; a signature is never overwritten. */
  lemma MergeKeepsItems(p: Part, q: Part)
    requires Merge(p, q).Some? && IsContent(p)
    ensures Items(Merge(p, q).value) == Items(p) + Items(q)
  {
    hide TextItems, ThinkItems;
    if p.Text? {
      TextItemsConcat(p.text, q.text);
    } else {
      ThinkItemsConcat(p.think, q.think);
    }
  }

  lemma GrowthKeepsItems(prior: seq<Part>, p: Part, joined: bool, grown: seq<Part>)
    requires GrowsBy(prior, p, joined, grown) && forall q | q in prior :: IsContent(q)
    ensures AllItems(grown) == AllItems(prior) + Items(p)
    ensures forall q | q in grown :: IsContent(q)
  {
    hide Items, AllItems;
    if joined {
      var last := prior[|prior| - 1];
      assert last in prior;
      MergeKeepsItems(last, p);
      ItemsSnoc(prior[..|prior| - 1], last);
      ItemsSnoc(prior[..|prior| - 1], Merge(last, p).value);
      assert prior == prior[..|prior| - 1] + [last];
      assert AllItems(grown) == AllItems(prior) + Items(p);
    } else if IsContent(p) {
      ItemsSnoc(prior, p);
    } else {
      NoItems(p);
      assert prior + [] == prior;
    }
  }

  lemma NoItems(p: Part)
    ensures !IsContent(p) ==> Items(p) == []
    ensures AllItems([]) == []
  {
  }

  lemma {:induction false} MergedKeepsItems(sig: seq<Part>)
    ensures AllItems(Merged(sig)) == AllItems(sig) && forall q | q in Merged(sig) :: IsContent(q)
    decreases |sig|
  {
    hide Items, AllItems, Merged, GrowsBy;
    if sig == [] {
      NothingMerged();
    } else {
      var front, last := sig[..|sig| - 1], sig[|sig| - 1];
      assert sig == front + [last];
      MergedKeepsItems(front);
      MergedSnoc(front, last);
      GrowthKeepsItems(Merged(front), last, JoinsLast(front, last), Merged(sig));
      ItemsSnoc(front, last);
    }
  }

  lemma {:induction false} SignificantKeepsItems(s: seq<Part>, n: nat)
    requires n <= |s|
    ensures AllItems(Significant(s, n)) == AllItems(s[..n])
  {
    hide Items, AllItems, Target;
    if n > 0 {
      SignificantKeepsItems(s, n - 1);
      assert s[..n] == s[..n - 1] + [s[n - 1]];
      ItemsSnoc(s[..n - 1], s[n - 1]);
      ItemsSnoc(Significant(s, n - 1), s[n - 1]);
      assert Significant(s, n - 1) + [] == Significant(s, n - 1);
      NoItems(s[n - 1]);
    }
  }

  /** For every stream: the content's characters, media and signatures are the stream's, in order. */
  lemma NothingLost(s: seq<Part>)
    ensures AllItems(Final(s).content) == AllItems(s)
  {
    ContentIsMerged(s);
    MergedKeepsItems(Significant(s, |s|));
    SignificantKeepsItems(s, |s|);
    assert s[..|s|] == s;
  }
}

/** When `generate` rejects a response, said of the raw stream. */
module StreamOutcome {
  import opened Wrappers
  import opened StreamAssembler
  import opened StreamCalls
  import opened StreamContent

  ghost predicate HasThought(parts: seq<Part>) {
    exists p | p in parts :: p.Think?
  }

  ghost predicate HasSaying(parts: seq<Part>) {
    exists p | p in parts :: SaysSomething(p)
  }

  ghost predicate HasContent(parts: seq<Part>) {
    exists p | p in parts :: IsContent(p)
  }

  ghost predicate HasCall(parts: seq<Part>) {
    exists p | p in parts :: p.ToolCall?
  }

  lemma InkConcat(a: string, b: string)
    ensures HasInk(a + b) <==> HasInk(a) || HasInk(b)
  {
    hide IsSpace;
    if k :| 0 <= k < |a| && !IsSpace(a[k]) {
      assert (a + b)[k] == a[k];
    }
    if k :| 0 <= k < |b| && !IsSpace(b[k]) {
      assert (a + b)[|a| + k] == b[k];
    }
  }

  lemma MergeKeepsKinds(p: Part, q: Part)
    requires Merge(p, q).Some? && IsContent(p)
    ensures var r := Merge(p, q).value;
            && (r.Think? <==> p.Think? || q.Think?)
            && (SaysSomething(r) <==> SaysSomething(p) || SaysSomething(q))
  {
    hide HasInk;
    if p.Text? {
      InkConcat(p.text, q.text);
    }
  }

  lemma SnocKinds(parts: seq<Part>, p: Part)
    ensures HasThought(parts + [p]) <==> HasThought(parts) || p.Think?
    ensures HasSaying(parts + [p]) <==> HasSaying(parts) || SaysSomething(p)
    ensures HasContent(parts + [p]) <==> HasContent(parts) || IsContent(p)
  {
  }

  lemma GrowthKeepsKinds(prior: seq<Part>, p: Part, joined: bool, grown: seq<Part>)
    requires GrowsBy(prior, p, joined, grown) && forall q | q in prior :: IsContent(q)
    ensures HasThought(grown) <==> HasThought(prior) || p.Think?
    ensures HasSaying(grown) <==> HasSaying(prior) || SaysSomething(p)
    ensures grown == [] <==> prior == [] && !IsContent(p)
  {
    hide HasThought, HasSaying, HasContent, HasInk;
    if joined {
      var front, last := prior[..|prior| - 1], prior[|prior| - 1];
      assert last in prior && prior == front + [last];
      MergeKeepsKinds(last, p);
      SnocKinds(front, last);
      SnocKinds(front, Merge(last, p).value);
    } else if IsContent(p) {
      SnocKinds(prior, p);
    } else {
      assert prior + [] == prior;
    }
  }

  lemma {:induction false} MergedKinds(sig: seq<Part>)
    ensures HasThought(Merged(sig)) <==> HasThought(sig)
    ensures HasSaying(Merged(sig)) <==> HasSaying(sig)
    ensures Merged(sig) != [] <==> HasContent(sig)
    decreases |sig|
  {
    hide Merged, GrowsBy, SaysSomething, IsContent, JoinsLast;
    NothingMerged();
    if sig != [] {
      var front, last := sig[..|sig| - 1], sig[|sig| - 1];
      assert sig == front + [last];
      MergedKinds(front);
      MergedSnoc(front, last);
      MergedKeepsItems(front);
      GrowthKeepsKinds(Merged(front), last, JoinsLast(front, last), Merged(sig));
      SnocKinds(front, last);
    }
  }

  lemma {:induction false} SignificantKinds(s: seq<Part>, n: nat)
    requires n <= |s|
    ensures HasThought(Significant(s, n)) <==> HasThought(s[..n])
    ensures HasSaying(Significant(s, n)) <==> HasSaying(s[..n])
    ensures HasContent(Significant(s, n)) <==> HasContent(s[..n])
  {
    hide HasThought, HasSaying, HasContent, Target;
    if n == 0 {
      assert Significant(s, 0) == s[..0];
    } else {
      SignificantKinds(s, n - 1);
      SignificantStep(s, n - 1);
      assert s[..n] == s[..n - 1] + [s[n - 1]];
      SnocKinds(s[..n - 1], s[n - 1]);
      SnocKinds(Significant(s, n - 1), s[n - 1]);
    }
  }

  // ---------- visible text ----------

  /** WhiteSpace and LineTerminator of ECMA-262, sections 12.2 and 12.3, by code point. */
  predicate IsBlank(c: int) {
    || c == 0x9 || c == 0xB || c == 0xC || c == 0xFEFF || c == 0x20 || c == 0xA0 || c == 0x1680 || 0x2000 <= c <= 0x200A
    || c == 0x202F || c == 0x205F || c == 0x3000 || c == 0xA || c == 0xD || c == 0x2028 || c == 0x2029
  }

  function TrimStart(s: string): string {
    if s != "" && IsBlank(s[0] as int) then TrimStart(s[1..]) else s
  }

  function TrimEnd(s: string): string {
    if s != "" && IsBlank(s[|s| - 1] as int) then TrimEnd(s[..|s| - 1]) else s
  }

  function Trim(s: string): string {
    TrimEnd(TrimStart(s))
  }

  /** All the text that was streamed. */
  function TextOf(parts: seq<Part>): string {
    if parts == [] then ""
    else TextOf(parts[..|parts| - 1]) + if parts[|parts| - 1].Text? then parts[|parts| - 1].text else ""
  }

  lemma BlankIff(c: char)
    ensures IsBlank(c as int) <==> IsSpace(c)
  {
  }

  lemma {:induction false} TrimStartEmpty(s: string)
    ensures HasInk(TrimStart(s)) <==> HasInk(s)
    ensures TrimStart(s) == "" <==> !HasInk(s)
  {
    hide IsSpace, IsBlank;
    if s != "" {
      BlankIff(s[0]);
      TrimStartEmpty(s[1..]);
      assert s == [s[0]] + s[1..];
      InkConcat([s[0]], s[1..]);
      assert HasInk([s[0]]) <==> !IsSpace([s[0]][0]);
    }
  }

  lemma {:induction false} TrimEndEmpty(s: string)
    ensures TrimEnd(s) == "" <==> !HasInk(s)
  {
    hide IsSpace, IsBlank;
    if s != "" {
      var front, last := s[..|s| - 1], s[|s| - 1];
      BlankIff(last);
      TrimEndEmpty(front);
      assert s == front + [last];
      InkConcat(front, [last]);
      assert HasInk([last]) <==> !IsSpace([last][0]);
    }
  }

  lemma TrimEmpty(s: string)
    ensures Trim(s) == "" <==> !HasInk(s)
  {
    hide HasInk;
    TrimStartEmpty(s);
    TrimEndEmpty(TrimStart(s));
  }

  lemma {:induction false} SayingIsVisible(parts: seq<Part>)
    ensures HasSaying(parts) <==> HasInk(TextOf(parts))
  {
    hide IsSpace;
    if parts != [] {
      var front, last := parts[..|parts| - 1], parts[|parts| - 1];
      assert parts == front + [last];
      hide HasInk;
      SayingIsVisible(front);
      SnocKinds(front, last);
      InkConcat(TextOf(front), if last.Text? then last.text else "");
    }
  }

  /**
    A response is rejected as empty if nothing but deltas was streamed, and as thinking only if there was a thought,
    but no call, and no text is left when blanks are trimmed off.
   */
  lemma RejectedIff(s: seq<Part>)
    ensures var r := Finish(Final(s).content, Final(s).toolCalls);
            && (r == Err(NoOutput) <==> forall p | p in s :: p.ToolCallPart?)
            && (r == Err(OnlyThinking) <==>
                  && (exists p | p in s :: p.Think?) && (forall p | p in s :: !p.ToolCall?) && Trim(TextOf(s)) == "")
            && (r.Ok? ==> r.value == Message(Final(s).content, Final(s).toolCalls))
  {
    hide Merged, Significant, Final, CallAt, SaysSomething, Headers, Calls, Trim, HasInk;
    var content := Final(s).content;
    ContentIsMerged(s);
    CallsAreRight(s);
    MergedKinds(Significant(s, |s|));
    SignificantKinds(s, |s|);
    assert s[..|s|] == s;
    CallsExist(s);
    TrimEmpty(TextOf(s));
    SayingIsVisible(s);
    assert HasThought(content) <==> exists k | 0 <= k < |content| :: content[k].Think?;
    assert HasSaying(content) <==> exists k | 0 <= k < |content| :: SaysSomething(content[k]);
    assert HasContent(s) || HasCall(s) <==> exists p | p in s :: !p.ToolCallPart?;
  }

  lemma CallsExist(s: seq<Part>)
    ensures Calls(s) != [] <==> HasCall(s)
  {
    if p :| p in s && p.ToolCall? {
      var h :| 0 <= h < |s| && s[h] == p;
      assert h in Headers(s, |s|);
    }
    if Headers(s, |s|) != [] {
      assert s[Headers(s, |s|)[0]] in s;
    }
  }

}

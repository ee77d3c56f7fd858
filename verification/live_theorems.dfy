/** What holds of every recording's live preview, whatever the backend recognises,
    whenever ticks come, and however often the worker interrupts. */
module LiveTheorems {
  import opened Core
  import opened Sequences
  import opened Words
  import opened LiveTranscribers
  import opened LiveStories

  ghost predicate Good(cfg: Config, s: Story) {
    AudioOk(cfg, s) && TextOk(s) && AgreementOk(s) && IndicesOk(s) && OrderOk(s) && BasesOk(s) && PartialsOk(s)
  }

  lemma BeginningText()
    ensures TextOk(Beginning) && PartialsOk(Beginning)
  {
  }

  lemma BeginningRest(cfg: Config)
    ensures AudioOk(cfg, Beginning) && AgreementOk(Beginning)
    ensures IndicesOk(Beginning) && OrderOk(Beginning) && BasesOk(Beginning)
  {
  }

  lemma GoodBeginning(cfg: Config)
    ensures Good(cfg, Beginning)
  {
    BeginningText();
    BeginningRest(cfg);
  }

  lemma GoodTold(cfg: Config, s: Story, k: Look)
    requires Good(cfg, s) && Hears(s, k)
    ensures Good(cfg, Told(cfg, s, k)) && s.live.committed <= Told(cfg, s, k).live.committed
  {
    AudioTold(cfg, s, k);
    TextTold(cfg, s, k);
    AgreementTold(cfg, s, k);
    IndicesTold(cfg, s, k);
    PartialsTold(cfg, s, k);
  }

  lemma {:induction false} GoodRun(cfg: Config, s: Story, looks: seq<Look>)
    requires Good(cfg, s) && CanTell(cfg, s, looks)
    ensures Good(cfg, Tell(cfg, s, looks)) && s.live.committed <= Tell(cfg, s, looks).live.committed
    decreases looks
  {
    if looks != [] {
      GoodTold(cfg, s, looks[0]);
      GoodRun(cfg, Told(cfg, s, looks[0]), looks[1..]);
    }
  }

  /** `s` is the story of some recording. */
  ghost predicate Lived(cfg: Config, s: Story, looks: seq<Look>) {
    CanTell(cfg, Beginning, looks) && s == Tell(cfg, Beginning, looks)
  }

  lemma LivedGood(cfg: Config, s: Story, looks: seq<Look>)
    requires Lived(cfg, s, looks)
    ensures Good(cfg, s)
  {
    GoodBeginning(cfg);
    GoodRun(cfg, Beginning, looks);
  }

  lemma LivedText(cfg: Config, s: Story, looks: seq<Look>)
    requires Lived(cfg, s, looks)
    ensures TextOk(s) && Follows(s.partials, s.live.committed, s.live.tail)
  {
    LivedGood(cfg, s, looks);
  }

  // ----- Sample accounting -----

  lemma ToldDecode(cfg: Config, s: Story, k: Look)
    requires Decodes(cfg, s.live, k)
    ensures var n, start := Told(cfg, s, k), Resumed(cfg, s.live, k).start;
            && |n.decodes| == |s.decodes| + 1
            && n.decodes[|s.decodes|].from == start
            && n.decodes[|s.decodes|].to == start + |Decoded(cfg, s.live, k)|
  {
  }

  lemma SuffixOfPrefix(part: seq<Sample>, whole: seq<Sample>, from: nat)
    requires part <= whole && from <= |part|
    ensures part[from..] == whole[from..|part|]
  {
  }

  /** Every window handed to the backend is a contiguous slice of the recording that
      begins at the segment start. */
  lemma WindowIsSlice(cfg: Config, s: Story, k: Look)
    requires Hears(s, k) && Decodes(cfg, s.live, k)
    ensures |Told(cfg, s, k).decodes| == |s.decodes| + 1
    ensures var d := Told(cfg, s, k).decodes[|s.decodes|];
            && d.from == Resumed(cfg, s.live, k).start
            && d.from < d.to <= |k.heardAgain|
            && Decoded(cfg, s.live, k) == k.heardAgain[d.from..d.to]
  {
    ToldDecode(cfg, s, k);
    var from, source := Resumed(cfg, s.live, k).start, Source(cfg, s.live, k);
    assert Decoded(cfg, s.live, k) == source[from..];
    SuffixOfPrefix(source, k.heardAgain, from);
  }

  /** A forced commit strictly advances the segment start; the next segment begins
      exactly the kept audio before the end of the window, or at its end if the window
      holds no more than that. */
  lemma ForcedAdvances(cfg: Config, l: Live, words: seq<string>, size: nat, silence: bool)
    requires 0 < size && Forces(cfg, size, silence)
    ensures var n := Absorbed(cfg, l, words, size, silence);
            && l.start < n.start <= l.start + size
            && n.start == if size > 16 * cfg.keep then l.start + size - 16 * cfg.keep else l.start + size
  {
  }

  /** After a pause exactly the excess over the cap is dropped, and that tick, if its
      decode succeeds, is a forced commit, whatever the voice detector says. */
  lemma SkipForcesCommit(cfg: Config, s: Story, k: Look)
    requires Hears(s, k) && Proceeds(s.live, k) && Skips(cfg, s.live, k)
    ensures Resumed(cfg, s.live, k).start + SamplesIn(cfg.maxSegment) == |k.heard|
    ensures Decodes(cfg, s.live, k) ==> Forces(cfg, |Decoded(cfg, s.live, k)|, k.silence)
  {
    var size := |Decoded(cfg, s.live, k)|;
    assert size >= SamplesIn(cfg.maxSegment) == cfg.maxSegment * 16;
    assert size * 1000 / SAMPLE_RATE == size / 16;
  }

  /** When the segment start moves: on a forced commit, and also on a post-pause skip,
      whether or not that tick then decodes anything. */
  lemma StartMovesExactly(cfg: Config, l: Live, k: Look)
    ensures Ticked(cfg, l, k).start >= l.start
    ensures Ticked(cfg, l, k).start != l.start <==>
              && Proceeds(l, k)
              && (Skips(cfg, l, k) || (Decodes(cfg, l, k) && Forces(cfg, |Decoded(cfg, l, k)|, k.silence)))
  {
    if Decodes(cfg, l, k) {
      var r, size := Resumed(cfg, l, k), |Decoded(cfg, l, k)|;
      assert size > 0;
      AbsorbedStart(cfg, r, Split(k.text.value), size, k.silence);
    }
  }

  lemma AbsorbedStart(cfg: Config, l: Live, words: seq<string>, size: nat, silence: bool)
    requires size > 0
    ensures var n := Absorbed(cfg, l, words, size, silence);
            n.start >= l.start && (n.start != l.start <==> Forces(cfg, size, silence))
  {
  }

  /** In a recording the start moves exactly when samples are left behind, and then a new
      segment begins. */
  lemma StartMovesWithSegment(cfg: Config, s: Story, k: Look)
    ensures var n := Told(cfg, s, k);
            && (n.live.start != s.live.start <==> n.segment != s.segment)
            && (n.live.start != s.live.start <==> n.spans != s.spans)
  {
    StartMovesExactly(cfg, s.live, k);
  }

  /** Nothing before the current segment is unaccounted for: each sample was inside a
      force-committed window or inside an explicit skip. */
  lemma SamplesAreAccounted(cfg: Config, s: Story, looks: seq<Look>, i: nat) returns (p: Span)
    requires Lived(cfg, s, looks) && i < s.live.start
    ensures p in s.spans && p.from <= i < p.to && (p.skipped || WasForced(s.decodes, p))
  {
    LivedGood(cfg, s, looks);
    p := TiledCovers(cfg, s.spans, s.live.start, i);
    SpansRun(cfg, Beginning, looks);
  }

  /** The span is the window of a forced decode. */
  ghost predicate WasForced(decodes: seq<Decode>, p: Span) {
    exists t :: 0 <= t < |decodes| && decodes[t].forced && decodes[t].from == p.from && decodes[t].to == p.to
  }

  lemma {:induction false} TiledCovers(cfg: Config, spans: seq<Span>, start: nat, i: nat) returns (p: Span)
    requires Tiled(cfg, spans, start) && i < start
    ensures p in spans && p.from <= i < p.to
  {
    var last := spans[|spans| - 1];
    if last.from <= i {
      p := last;
    } else {
      p := TiledCovers(cfg, spans[..|spans| - 1], last.from, i);
    }
  }

  ghost predicate SpansMatch(s: Story) {
    forall p :: p in s.spans && !p.skipped ==> WasForced(s.decodes, p)
  }

  lemma WasForcedStays(decodes: seq<Decode>, more: seq<Decode>, p: Span)
    requires WasForced(decodes, p) && decodes <= more
    ensures WasForced(more, p)
  {
    var t :| 0 <= t < |decodes| && decodes[t].forced && decodes[t].from == p.from && decodes[t].to == p.to;
    assert more[t] == decodes[t];
  }

  lemma SpansTold(cfg: Config, s: Story, k: Look)
    requires SpansMatch(s)
    ensures SpansMatch(Told(cfg, s, k))
  {
    var n := Told(cfg, s, k);
    assert s.decodes <= n.decodes;
    forall p | p in n.spans && !p.skipped ensures WasForced(n.decodes, p) {
      if p in s.spans {
        WasForcedStays(s.decodes, n.decodes, p);
      } else {
        assert n.decodes[|s.decodes|].forced;
      }
    }
  }

  lemma {:induction false} SpansRun(cfg: Config, s: Story, looks: seq<Look>)
    requires SpansMatch(s) && CanTell(cfg, s, looks)
    ensures SpansMatch(Tell(cfg, s, looks))
    decreases looks
  {
    if looks != [] {
      SpansTold(cfg, s, looks[0]);
      SpansRun(cfg, Told(cfg, s, looks[0]), looks[1..]);
    }
  }

  /** Within a segment windows share their start and only grow. */
  lemma WindowsGrow(cfg: Config, s: Story, looks: seq<Look>, i: nat, j: nat)
    requires Lived(cfg, s, looks) && i < j < |s.decodes| && s.decodes[i].segment == s.decodes[j].segment
    ensures s.decodes[i].from == s.decodes[j].from && s.decodes[i].to <= s.decodes[j].to <= |s.heard|
  {
    LivedGood(cfg, s, looks);
  }

  // ----- The committed text -----

  /** Splitting the committed text gives back exactly the committed words. */
  lemma CommittedTextIsExact(cfg: Config, s: Story, looks: seq<Look>)
    requires Lived(cfg, s, looks)
    ensures Split(s.live.committed) == WordsOf(s.commits)
  {
    LivedText(cfg, s, looks);
    SplitJoin(WordsOf(s.commits));
  }

  /** Committed text is never revised: every earlier published text is a prefix of
      every later one, and of the current one. */
  lemma CommittedTextIsMonotone(cfg: Config, s: Story, looks: seq<Look>, i: nat, j: nat)
    requires Lived(cfg, s, looks) && i <= j < |s.partials|
    ensures s.partials[i].committed <= s.partials[j].committed <= s.live.committed
  {
    LivedText(cfg, s, looks);
    FollowsChain(s.partials, s.live.committed, s.live.tail, i, j);
  }

  lemma {:induction false} PrefixChain(ps: seq<Partial>, i: nat, j: nat)
    requires i <= j < |ps| && forall m :: 0 <= m < |ps| - 1 ==> ps[m].committed <= ps[m + 1].committed
    ensures ps[i].committed <= ps[j].committed
    decreases j - i
  {
    if i < j {
      PrefixChain(ps, i, j - 1);
      assert ps[j - 1].committed <= ps[j - 1 + 1].committed;
    }
  }

  lemma FollowsChain(ps: seq<Partial>, committed: string, tail: string, i: nat, j: nat)
    requires Follows(ps, committed, tail) && i <= j < |ps|
    ensures ps[i].committed <= ps[j].committed <= committed
  {
    PrefixChain(ps, i, j);
    PrefixChain(ps, j, |ps| - 1);
  }

  /** Nothing recognised is missing: what is committed plus the tail is what was
      committed before plus every word from the committed index onward. */
  lemma NothingRecognisedIsLost(cfg: Config, s: Story, k: Look)
    requires Decodes(cfg, s.live, k)
    ensures var n := Told(cfg, s, k);
            var words := Split(k.text.value);
            var from := Deduplicated(Resumed(cfg, s.live, k), words).done;
            WordsOf(n.commits) + Split(n.live.tail) == WordsOf(s.commits) + Slice(words, from, |words|)
  {
    var words, size := Split(k.text.value), |Decoded(cfg, s.live, k)|;
    var r := Resumed(cfg, s.live, k);
    var d := Deduplicated(r, words);
    var end := CommitEnd(cfg, d, words, size, k.silence);
    CommittedWords(s.commits, |s.decodes|, words, d.done, end);
    TailIsRest(cfg, r, words, size, k.silence);
    Regroup(WordsOf(s.commits), Slice(words, d.done, end), Split(Absorbed(cfg, r, words, size, k.silence).tail));
  }

  lemma SliceSplits(words: seq<string>, a: nat, b: nat)
    requires b <= |words|
    ensures Slice(words, a, b) + Slice(words, if b > a then b else a, |words|) == Slice(words, a, |words|)
  {
  }

  lemma TailIsRest(cfg: Config, l: Live, words: seq<string>, size: nat, silence: bool)
    requires AllWords(words)
    ensures var d := Deduplicated(l, words);
            Slice(words, d.done, CommitEnd(cfg, d, words, size, silence))
            + Split(Absorbed(cfg, l, words, size, silence).tail) == Slice(words, d.done, |words|)
  {
    var d := Deduplicated(l, words);
    if Forces(cfg, size, silence) {
      assert Split("") == [];
    } else {
      var upper := SafeUpper(d.previous, words);
      var from := if upper > d.done then upper else d.done;
      SplitJoin(Slice(words, from, |words|));
      SliceSplits(words, d.done, upper);
    }
  }

  // ----- LocalAgreement-2 -----

  /** Every committed word was agreed on by two consecutive decodes of its segment, or
      belongs to a forced commit. */
  lemma CommitsAreJustified(cfg: Config, s: Story, looks: seq<Look>, i: nat)
    requires Lived(cfg, s, looks) && i < |s.commits|
    ensures Justified(s.decodes, s.commits[i])
  {
    LivedGood(cfg, s, looks);
  }

  /** No index of a segment is committed twice, and commits only move forward. */
  lemma NoIndexTwice(cfg: Config, s: Story, looks: seq<Look>, i: nat, j: nat)
    requires Lived(cfg, s, looks) && i < j < |s.commits|
    ensures Earlier(s.decodes, s.commits[i], s.commits[j])
    ensures s.commits[i].index == s.commits[j].index ==>
              s.decodes[s.commits[i].decode].segment != s.decodes[s.commits[j].decode].segment
  {
    LivedGood(cfg, s, looks);
  }

  /** In a segment that follows a forced commit without a skip, the leading words
      with which its first decode re-recognises the longest tail of the forced words
      are never committed. */
  lemma DuplicatesStayOut(cfg: Config, s: Story, looks: seq<Look>, t: nat, c: Commit)
    requires Lived(cfg, s, looks) && Opens(s.decodes, t)
    requires c in s.commits && c.decode < |s.decodes| && s.decodes[c.decode].segment == s.decodes[t].segment
    ensures c.index >= Overlap(s.decodes[t - 1].words, s.decodes[t].words)
  {
    assert Justified(s.decodes, c) && Deduped(s.decodes, t) && BasesOk(s) by {
      LivedGood(cfg, s, looks);
      var i :| 0 <= i < |s.commits| && s.commits[i] == c;
      assert Justified(s.decodes, s.commits[i]);
    }
    BehindOpening(s, t, c.decode);
  }

  lemma BehindOpening(s: Story, t: nat, u: nat)
    requires BasesOk(s) && Opens(s.decodes, t) && u < |s.decodes| && s.decodes[u].segment == s.decodes[t].segment
    ensures u >= t && s.decodes[u].base >= s.decodes[t].base
  {
  }

  // ----- Events -----

  /** The stored text is always the last published one, and no event repeats the one
      before it. */
  lemma NoStutter(cfg: Config, s: Story, looks: seq<Look>, i: nat)
    requires Lived(cfg, s, looks)
    ensures if s.partials == [] then s.live.committed == "" && s.live.tail == ""
            else var p := s.partials[|s.partials| - 1]; p.committed == s.live.committed && p.tail == s.live.tail
    ensures i + 1 < |s.partials| ==>
              s.partials[i].committed != s.partials[i + 1].committed || s.partials[i].tail != s.partials[i + 1].tail
  {
    LivedText(cfg, s, looks);
  }
}

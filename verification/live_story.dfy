/** One recording as the live preview lives it: the fields together with what was
    decoded, committed, skipped and published so far. */
module LiveStories {
  import opened Core
  import opened Words
  import opened LiveTranscribers

  /** A successful decode of the recording's samples [from, to); it may commit its words
      from `base` up to `end`. */
  datatype Decode =
    Decode(segment: nat, from: nat, to: nat, words: seq<string>, forced: bool, base: nat, end: nat)

  /** Word `index` of decode number `decode` became permanent. */
  datatype Commit = Commit(decode: nat, index: nat, word: string)

  /** Samples [from, to) left behind: committed as text, or skipped after a pause. */
  datatype Span = Span(from: nat, to: nat, skipped: bool)

  datatype Story = Story(
    live: Live,
    heard: seq<Sample>,       // the recording so far
    segment: nat,             // number of the current segment
    first: nat,               // commits made before it
    base: nat,                // its leading words taken for duplicates
    decodes: seq<Decode>,
    commits: seq<Commit>,
    spans: seq<Span>,
    partials: seq<Partial>)

  const Beginning := Story(Fresh, [], 0, 0, 0, [], [], [], [])

  /** The recording only grows. */
  predicate Hears(s: Story, k: Look) {
    s.heard <= k.heard && k.heard <= k.heardAgain
  }

  /** Pause handling: a skip abandons the segment. */
  function Rested(cfg: Config, s: Story, k: Look): Story {
    var r := s.(live := Resumed(cfg, s.live, k), heard := k.heardAgain);
    if Skips(cfg, s.live, k) then
      r.(segment := s.segment + 1, first := |s.commits|, base := 0,
         spans := s.spans + [Span(s.live.start, r.live.start, true)])
    else r
  }

  function NewCommits(decode: nat, words: seq<string>, from: nat, to: nat): (cs: seq<Commit>)
    requires to <= |words|
    ensures |cs| == if from < to then to - from else 0
    ensures forall i :: 0 <= i < |cs| ==> cs[i] == Commit(decode, from + i, words[from + i])
  {
    if from < to then seq(to - from, i requires 0 <= i < to - from => Commit(decode, from + i, words[from + i]))
    else []
  }

  /** Where this decode's commits end. */
  function CommitEnd(cfg: Config, l: Live, words: seq<string>, size: nat, silence: bool): (n: nat)
    ensures n <= |words|
  {
    if Forces(cfg, size, silence) then |words| else SafeUpper(l.previous, words)
  }

  /** The event a decode publishes, if it changed the text. */
  function EventOf(id: SessionId, before: Live, after: Live): (e: seq<Partial>)
    ensures |e| <= 1
  {
    if before.committed == after.committed && before.tail == after.tail then []
    else [Partial(id, after.committed, after.tail)]
  }

  /** A successful decode of `size` samples from the segment start. */
  function Absorbing(cfg: Config, s: Story, id: SessionId, words: seq<string>, size: nat, silence: bool): Story {
    var live := Absorbed(cfg, s.live, words, size, silence);
    var d := Deduplicated(s.live, words);
    var force := Forces(cfg, size, silence);
    var base := if s.live.done == 0 && s.live.previous == [] && s.live.carried != [] then d.done else s.base;
    var end := CommitEnd(cfg, d, words, size, silence);
    var commits := s.commits + NewCommits(|s.decodes|, words, d.done, end);
    Story(live, s.heard,
          if force then s.segment + 1 else s.segment,
          if force then |commits| else s.first,
          if force then 0 else base,
          s.decodes + [Decode(s.segment, s.live.start, s.live.start + size, words, force, d.done, end)],
          commits,
          if force then s.spans + [Span(s.live.start, s.live.start + size, false)] else s.spans,
          s.partials + EventOf(id, s.live, live))
  }

  /** The decode it records. */
  function Recorded(cfg: Config, s: Story, words: seq<string>, size: nat, silence: bool): Decode {
    var d := Deduplicated(s.live, words);
    Decode(s.segment, s.live.start, s.live.start + size, words, Forces(cfg, size, silence), d.done,
           CommitEnd(cfg, d, words, size, silence))
  }

  lemma AbsorbingRecords(cfg: Config, s: Story, id: SessionId, words: seq<string>, size: nat, silence: bool)
    ensures var n, d := Absorbing(cfg, s, id, words, size, silence), Recorded(cfg, s, words, size, silence);
            && d.words == words && d.end <= |words|
            && n.decodes == s.decodes + [d] && n.commits == s.commits + NewCommits(|s.decodes|, words, d.base, d.end)
  {
  }

  /** One tick, with its event. */
  function Told(cfg: Config, s: Story, k: Look): (n: Story)
    ensures n.live == Ticked(cfg, s.live, k)
    ensures n.partials == s.partials + match Published(cfg, s.live, k) case Some(e) => [e] case None => []
  {
    if k.recording && k.busy then s.(live := s.live.(paused := true), heard := k.heardAgain)
    else if !Proceeds(s.live, k) then s.(heard := k.heardAgain)
    else if !Decodes(cfg, s.live, k) then Rested(cfg, s, k)
    else Absorbing(cfg, Rested(cfg, s, k), k.session.value, Split(k.text.value), |Decoded(cfg, s.live, k)|, k.silence)
  }

  /** All the ticks of a recording. */
  predicate CanTell(cfg: Config, s: Story, looks: seq<Look>)
    decreases looks
  {
    looks == [] || (Hears(s, looks[0]) && CanTell(cfg, Told(cfg, s, looks[0]), looks[1..]))
  }

  function Tell(cfg: Config, s: Story, looks: seq<Look>): Story
    requires CanTell(cfg, s, looks)
    decreases looks
  {
    if looks == [] then s else Tell(cfg, Told(cfg, s, looks[0]), looks[1..])
  }

  // ----- Audio: no sample is lost, none is decoded twice except the kept overlap -----

  /** Where the next segment begins after a span. */
  function After(cfg: Config, p: Span): nat {
    if p.skipped then p.to else if p.from <= p.to then p.from + Advance(cfg, p.to - p.from) else p.to
  }

  /** Spans follow each other from 0 to `start`, each beginning exactly where the
      one before sent it. */
  predicate Tiled(cfg: Config, spans: seq<Span>, start: nat) {
    if spans == [] then start == 0
    else
      var last := spans[|spans| - 1];
      last.from < last.to && start == After(cfg, last) && Tiled(cfg, spans[..|spans| - 1], last.from)
  }

  ghost predicate AudioOk(cfg: Config, s: Story) {
    s.live.start <= |s.heard| && Tiled(cfg, s.spans, s.live.start) && DecodesOk(s)
  }

  /** Every decode lies in the recording; those of a segment share its start and grow. */
  ghost predicate DecodesOk(s: Story) {
    && (forall i :: 0 <= i < |s.decodes| ==>
          var d := s.decodes[i];
          && d.from < d.to <= |s.heard| && d.segment <= s.segment
          && (d.segment == s.segment ==> d.from == s.live.start && !d.forced)
          && (d.forced ==> Span(d.from, d.to, false) in s.spans))
    && (forall i, j :: 0 <= i < j < |s.decodes| && s.decodes[i].segment == s.decodes[j].segment ==>
          s.decodes[i].from == s.decodes[j].from && s.decodes[i].to <= s.decodes[j].to && !s.decodes[i].forced)
  }

  lemma TiledMore(cfg: Config, spans: seq<Span>, start: nat, p: Span)
    requires Tiled(cfg, spans, start) && p.from == start && p.from < p.to
    ensures Tiled(cfg, spans + [p], After(cfg, p))
  {
    assert (spans + [p])[..|spans|] == spans;
  }

  lemma AudioRested(cfg: Config, s: Story, k: Look)
    requires AudioOk(cfg, s) && Hears(s, k) && Proceeds(s.live, k)
    ensures AudioOk(cfg, Rested(cfg, s, k))
  {
    var n := Rested(cfg, s, k);
    if Skips(cfg, s.live, k) {
      TiledMore(cfg, s.spans, s.live.start, Span(s.live.start, n.live.start, true));
    }
  }

  /** `size` samples from the segment start, all of them captured; within a segment
      windows only grow. */
  predicate FitsAudio(s: Story, size: nat) {
    && 0 < size && s.live.start + size <= |s.heard|
    && forall i :: 0 <= i < |s.decodes| && s.decodes[i].segment == s.segment ==> s.decodes[i].to <= s.live.start + size
  }

  lemma AudioMore(cfg: Config, s: Story, n: Story, d: Decode)
    requires DecodesOk(s) && n.heard == s.heard && n.decodes == s.decodes + [d] && s.spans <= n.spans
    requires d.segment == s.segment && d.from == s.live.start && d.from < d.to && FitsAudio(s, d.to - d.from)
    requires if d.forced then n.segment == s.segment + 1 && Span(d.from, d.to, false) in n.spans
             else n.segment == s.segment && n.live.start == s.live.start
    ensures DecodesOk(n)
  {
    assert forall i :: 0 <= i < |s.decodes| ==> n.decodes[i] == s.decodes[i];
    assert n.decodes[|s.decodes|] == d;
  }

  lemma AudioAbsorbed(cfg: Config, s: Story, id: SessionId, words: seq<string>, size: nat, silence: bool)
    requires AudioOk(cfg, s) && FitsAudio(s, size)
    ensures AudioOk(cfg, Absorbing(cfg, s, id, words, size, silence))
  {
    var n, d := Absorbing(cfg, s, id, words, size, silence), Recorded(cfg, s, words, size, silence);
    AbsorbingRecords(cfg, s, id, words, size, silence);
    assert DecodesOk(n) by {
      AudioMore(cfg, s, n, d);
    }
    if Forces(cfg, size, silence) {
      var span := Span(s.live.start, s.live.start + size, false);
      assert n.spans == s.spans + [span] && n.live.start == After(cfg, span);
      TiledMore(cfg, s.spans, s.live.start, span);
    } else {
      assert n.spans == s.spans && n.live.start == s.live.start;
    }
  }

  /** The window is cut from the recording at the segment start. */
  lemma WindowFits(cfg: Config, s: Story, k: Look)
    requires AudioOk(cfg, s) && Hears(s, k) && Proceeds(s.live, k) && Decoded(cfg, s.live, k) != []
    ensures FitsAudio(Rested(cfg, s, k), |Decoded(cfg, s.live, k)|)
  {
  }

  lemma AudioTold(cfg: Config, s: Story, k: Look)
    requires AudioOk(cfg, s) && Hears(s, k)
    ensures AudioOk(cfg, Told(cfg, s, k))
  {
    if !k.busy && Proceeds(s.live, k) {
      AudioRested(cfg, s, k);
      if Decodes(cfg, s.live, k) {
        WindowFits(cfg, s, k);
        AudioAbsorbed(cfg, Rested(cfg, s, k), k.session.value, Split(k.text.value), |Decoded(cfg, s.live, k)|,
                      k.silence);
      }
    }
  }

  // ----- Text: the committed text is exactly the committed words -----

  function WordsOf(commits: seq<Commit>): (ws: seq<string>)
    ensures |ws| == |commits| && forall i :: 0 <= i < |ws| ==> ws[i] == commits[i].word
  {
    seq(|commits|, i requires 0 <= i < |commits| => commits[i].word)
  }

  ghost predicate TextOk(s: Story) {
    AllWords(WordsOf(s.commits)) && s.live.committed == Join(WordsOf(s.commits))
  }

  lemma AppendJoined(ws: seq<string>, more: seq<string>)
    requires AllWords(ws) && AllWords(more)
    ensures Appended(Join(ws), Join(more)) == Join(ws + more) && Join(ws) <= Join(ws + more)
  {
    JoinConcat(ws, more);
    SplitJoin(ws);
    SplitJoin(more);
  }

  lemma CommittedWords(commits: seq<Commit>, decode: nat, words: seq<string>, from: nat, to: nat)
    requires to <= |words|
    ensures WordsOf(commits + NewCommits(decode, words, from, to)) == WordsOf(commits) + Slice(words, from, to)
  {
    var more := NewCommits(decode, words, from, to);
    assert WordsOf(more) == Slice(words, from, to);
    assert WordsOf(commits + more) == WordsOf(commits) + WordsOf(more);
  }

  lemma AbsorbedText(cfg: Config, l: Live, words: seq<string>, size: nat, silence: bool)
    ensures var d := Deduplicated(l, words);
            Absorbed(cfg, l, words, size, silence).committed ==
            Appended(l.committed, Join(Slice(words, d.done, CommitEnd(cfg, d, words, size, silence))))
  {
  }

  /** The words a decode commits are appended, as text, in one piece. */
  lemma TextAbsorbed(cfg: Config, s: Story, id: SessionId, words: seq<string>, size: nat, silence: bool)
    requires TextOk(s) && AllWords(words)
    ensures var n := Absorbing(cfg, s, id, words, size, silence);
            TextOk(n) && s.live.committed <= n.live.committed
  {
    var n := Absorbing(cfg, s, id, words, size, silence);
    var d := Deduplicated(s.live, words);
    var end := CommitEnd(cfg, d, words, size, silence);
    var slice := Slice(words, d.done, end);
    CommittedWords(s.commits, |s.decodes|, words, d.done, end);
    assert n.live.committed == Appended(s.live.committed, Join(slice)) by {
      AbsorbedText(cfg, s.live, words, size, silence);
    }
    assert AllWords(slice);
    AppendJoined(WordsOf(s.commits), slice);
  }

  lemma TextTold(cfg: Config, s: Story, k: Look)
    requires TextOk(s)
    ensures TextOk(Told(cfg, s, k)) && s.live.committed <= Told(cfg, s, k).live.committed
  {
    if !k.busy && Decodes(cfg, s.live, k) {
      TextAbsorbed(cfg, Rested(cfg, s, k), k.session.value, Split(k.text.value), |Decoded(cfg, s.live, k)|, k.silence);
    }
  }

  // ----- Agreement: why each word was committed -----

  /** A committed word stands in its decode, after the duplicates; unless the decode
      was forced it is not the last word, and the decode just before, in the same
      segment, had a matching word at the same index. */
  predicate Justified(decodes: seq<Decode>, c: Commit) {
    c.decode < |decodes| &&
    var d := decodes[c.decode];
    && d.base <= c.index < |d.words| && d.words[c.index] == c.word
    && (d.forced || (
          && c.decode > 0 && c.index + 1 < |d.words|
          && var p := decodes[c.decode - 1];
             && p.segment == d.segment && !p.forced
             && c.index < |p.words| && Matches(p.words[c.index], c.word)))
  }

  /** Decode `t` opens the segment that a forced decode left behind. */
  predicate Opens(decodes: seq<Decode>, t: nat) {
    0 < t < |decodes| && decodes[t - 1].forced && decodes[t].segment == decodes[t - 1].segment + 1
  }

  /** Such a decode removes its greatest re-recognition of the forced words. */
  predicate Deduped(decodes: seq<Decode>, t: nat) {
    Opens(decodes, t) ==> decodes[t].base == Overlap(decodes[t - 1].words, decodes[t].words)
  }

  /** The words held for comparison are the last decode's. */
  ghost predicate HeldOk(s: Story) {
    && (s.live.previous != [] ==>
          s.decodes != [] && var d := s.decodes[|s.decodes| - 1];
          d.segment == s.segment && !d.forced && d.words == s.live.previous)
    && (if s.decodes != [] && s.decodes[|s.decodes| - 1].forced && s.decodes[|s.decodes| - 1].segment + 1 == s.segment
        then s.live.carried == s.decodes[|s.decodes| - 1].words && s.live.done == 0 && s.live.previous == []
        else s.live.carried == [])
    && (forall i :: 0 <= i < |s.decodes| ==>
          s.decodes[i].segment <= s.segment && (s.decodes[i].forced ==> s.decodes[i].segment < s.segment))
  }

  ghost predicate AllJustified(s: Story) {
    forall i :: 0 <= i < |s.commits| ==> Justified(s.decodes, s.commits[i])
  }

  ghost predicate AllDeduped(s: Story) {
    forall t :: 0 <= t < |s.decodes| ==> Deduped(s.decodes, t)
  }

  ghost predicate AgreementOk(s: Story) {
    HeldOk(s) && AllJustified(s) && AllDeduped(s)
  }

  lemma AgreementRested(cfg: Config, s: Story, k: Look)
    requires AgreementOk(s)
    ensures AgreementOk(Rested(cfg, s, k))
  {
  }

  /** The words a decode commits are justified by it and by the decode before. */
  lemma NewCommitsJustified(cfg: Config, s: Story, words: seq<string>, size: nat, silence: bool, decode: Decode,
                            c: Commit)
    requires HeldOk(s)
    requires var d := Deduplicated(s.live, words);
             && decode.segment == s.segment && decode.words == words && decode.forced == Forces(cfg, size, silence)
             && decode.base == d.done
             && c in NewCommits(|s.decodes|, words, d.done, CommitEnd(cfg, d, words, size, silence))
    ensures Justified(s.decodes + [decode], c)
  {
    var d := Deduplicated(s.live, words);
    var decodes := s.decodes + [decode];
    assert decodes[c.decode] == decode && d.done <= c.index < |words| && words[c.index] == c.word;
    if !decode.forced {
      assert c.index < SafeUpper(s.live.previous, words);
      assert Matches(s.live.previous[c.index], words[c.index]);
      assert decodes[c.decode - 1] == s.decodes[|s.decodes| - 1];
    }
  }

  lemma JustifiedStays(decodes: seq<Decode>, more: seq<Decode>, c: Commit)
    requires Justified(decodes, c)
    ensures Justified(decodes + more, c)
  {
  }

  lemma JustifiedMore(decodes: seq<Decode>, decode: Decode, commits: seq<Commit>, more: seq<Commit>)
    requires forall i :: 0 <= i < |commits| ==> Justified(decodes, commits[i])
    requires forall c :: c in more ==> Justified(decodes + [decode], c)
    ensures forall i :: 0 <= i < |commits + more| ==> Justified(decodes + [decode], (commits + more)[i])
  {
    forall i | 0 <= i < |commits + more| ensures Justified(decodes + [decode], (commits + more)[i]) {
      if i < |commits| {
        JustifiedStays(decodes, [decode], commits[i]);
      } else {
        assert (commits + more)[i] in more;
      }
    }
  }

  lemma JustifiedAbsorbed(cfg: Config, s: Story, id: SessionId, words: seq<string>, size: nat, silence: bool)
    requires HeldOk(s) && AllJustified(s)
    ensures AllJustified(Absorbing(cfg, s, id, words, size, silence))
  {
    var n := Absorbing(cfg, s, id, words, size, silence);
    var decode := Recorded(cfg, s, words, size, silence);
    var more := NewCommits(|s.decodes|, words, decode.base, decode.end);
    forall c | c in more ensures Justified(s.decodes + [decode], c) {
      NewCommitsJustified(cfg, s, words, size, silence, decode, c);
    }
    JustifiedMore(s.decodes, decode, s.commits, more);
    assert n.decodes == s.decodes + [decode] && n.commits == s.commits + more by {
      AbsorbingRecords(cfg, s, id, words, size, silence);
    }
  }

  lemma DedupedAbsorbed(cfg: Config, s: Story, id: SessionId, words: seq<string>, size: nat, silence: bool)
    requires HeldOk(s) && AllDeduped(s)
    ensures AllDeduped(Absorbing(cfg, s, id, words, size, silence))
  {
    var n := Absorbing(cfg, s, id, words, size, silence);
    assert n.decodes[..|s.decodes|] == s.decodes;
    forall i | 0 <= i < |n.decodes| ensures Deduped(n.decodes, i) {
      assert i < |s.decodes| ==> Deduped(s.decodes, i);
    }
  }

  lemma HeldAbsorbed(cfg: Config, s: Story, id: SessionId, words: seq<string>, size: nat, silence: bool)
    requires HeldOk(s)
    ensures HeldOk(Absorbing(cfg, s, id, words, size, silence))
  {
  }

  lemma AgreementTold(cfg: Config, s: Story, k: Look)
    requires AgreementOk(s)
    ensures AgreementOk(Told(cfg, s, k))
  {
    if !k.busy && Proceeds(s.live, k) {
      AgreementRested(cfg, s, k);
      if Decodes(cfg, s.live, k) {
        var r, id := Rested(cfg, s, k), k.session.value;
        var words, size := Split(k.text.value), |Decoded(cfg, s.live, k)|;
        HeldAbsorbed(cfg, r, id, words, size, k.silence);
        JustifiedAbsorbed(cfg, r, id, words, size, k.silence);
        DedupedAbsorbed(cfg, r, id, words, size, k.silence);
      }
    }
  }

  // ----- Indices: within a segment each index at most once, in order -----

  /** The commits of the current segment are base, base + 1, ..., done - 1. */
  ghost predicate IndicesOk(s: Story) {
    && s.first <= |s.commits| && s.base <= s.live.done
    && |s.commits| - s.first == s.live.done - s.base
    && (forall i :: 0 <= i < |s.commits| ==> s.commits[i].decode < |s.decodes|)
    && (forall i :: 0 <= i < s.first ==> s.decodes[s.commits[i].decode].segment < s.segment)
    && (forall i :: s.first <= i < |s.commits| ==>
          s.decodes[s.commits[i].decode].segment == s.segment && s.commits[i].index == s.base + (i - s.first))
  }

  /** An earlier segment, or an earlier index of the same segment. */
  predicate Earlier(decodes: seq<Decode>, a: Commit, b: Commit) {
    && a.decode < |decodes| && b.decode < |decodes|
    && var x, y := decodes[a.decode].segment, decodes[b.decode].segment;
       x < y || (x == y && a.index < b.index)
  }

  ghost predicate OrderOk(s: Story) {
    forall i, j :: 0 <= i < j < |s.commits| ==> Earlier(s.decodes, s.commits[i], s.commits[j])
  }

  /** Within a segment the number of leading words out of reach never shrinks. */
  ghost predicate BasesOk(s: Story) {
    && (forall i :: 0 <= i < |s.decodes| ==>
          s.decodes[i].segment <= s.segment
          && (s.decodes[i].segment == s.segment ==> s.base <= s.decodes[i].base <= s.live.done))
    && (forall i, j :: 0 <= i < j < |s.decodes| ==>
          && s.decodes[i].segment <= s.decodes[j].segment
          && (s.decodes[i].segment == s.decodes[j].segment ==> s.decodes[i].base <= s.decodes[j].base))
    && (s.live.carried != [] ==> s.base == 0 && forall i :: 0 <= i < |s.decodes| ==> s.decodes[i].segment < s.segment)
  }

  lemma IndicesRested(cfg: Config, s: Story, k: Look)
    requires IndicesOk(s) && OrderOk(s) && BasesOk(s)
    ensures var n := Rested(cfg, s, k); IndicesOk(n) && OrderOk(n) && BasesOk(n)
  {
  }

  /** The new commits are numbered on from where the segment stood. */
  lemma NewCommitsFollow(cfg: Config, s: Story, id: SessionId, words: seq<string>, size: nat, silence: bool)
    requires IndicesOk(s)
    ensures var n, t, m := Absorbing(cfg, s, id, words, size, silence), |s.decodes|, |s.commits|;
            var from := Deduplicated(s.live, words).done;
            && |n.decodes| == t + 1 && n.decodes[t].segment == s.segment && m <= |n.commits|
            && (forall i :: 0 <= i < t ==> n.decodes[i] == s.decodes[i])
            && (forall i :: 0 <= i < m ==> n.commits[i] == s.commits[i])
            && (forall i :: m <= i < |n.commits| ==> n.commits[i].decode == t && n.commits[i].index == from + (i - m))
            && (!Forces(cfg, size, silence) ==> |n.commits| - m == n.live.done - from)
  {
  }

  lemma IndicesAbsorbed(cfg: Config, s: Story, id: SessionId, words: seq<string>, size: nat, silence: bool)
    requires IndicesOk(s) && BasesOk(s)
    ensures IndicesOk(Absorbing(cfg, s, id, words, size, silence))
  {
    NewCommitsFollow(cfg, s, id, words, size, silence);
  }

  lemma OrderAbsorbed(cfg: Config, s: Story, id: SessionId, words: seq<string>, size: nat, silence: bool)
    requires IndicesOk(s) && OrderOk(s) && BasesOk(s)
    ensures OrderOk(Absorbing(cfg, s, id, words, size, silence))
  {
    var n := Absorbing(cfg, s, id, words, size, silence);
    var d := Deduplicated(s.live, words);
    assert n.decodes[..|s.decodes|] == s.decodes && n.commits[..|s.commits|] == s.commits;
    forall i, j | 0 <= i < j < |n.commits| ensures Earlier(n.decodes, n.commits[i], n.commits[j]) {
      if j < |s.commits| {
        assert Earlier(s.decodes, s.commits[i], s.commits[j]);
      } else if i < |s.commits| {
        assert n.commits[j].index >= d.done >= s.live.done;
      }
    }
  }

  lemma BasesMore(s: Story, n: Story, d: Decode)
    requires BasesOk(s) && n.decodes == s.decodes + [d] && d.segment == s.segment && d.base >= s.live.done
    requires if n.segment == s.segment
             then n.base <= d.base <= n.live.done && n.live.carried == [] && (s.live.carried == [] ==> n.base == s.base)
             else n.segment == s.segment + 1 && n.base == 0
    ensures BasesOk(n)
  {
    assert forall i :: 0 <= i < |s.decodes| ==> n.decodes[i] == s.decodes[i];
    assert n.decodes[|s.decodes|] == d;
  }

  lemma BasesAbsorbed(cfg: Config, s: Story, id: SessionId, words: seq<string>, size: nat, silence: bool)
    requires IndicesOk(s) && BasesOk(s) && HeldOk(s)
    ensures BasesOk(Absorbing(cfg, s, id, words, size, silence))
  {
    var n := Absorbing(cfg, s, id, words, size, silence);
    var d := Deduplicated(s.live, words);
    BasesMore(s, n, n.decodes[|s.decodes|]);
  }

  lemma IndicesDecoded(cfg: Config, s: Story, id: SessionId, words: seq<string>, size: nat, silence: bool)
    requires IndicesOk(s) && OrderOk(s) && BasesOk(s) && HeldOk(s)
    ensures var n := Absorbing(cfg, s, id, words, size, silence); IndicesOk(n) && OrderOk(n) && BasesOk(n)
  {
    IndicesAbsorbed(cfg, s, id, words, size, silence);
    OrderAbsorbed(cfg, s, id, words, size, silence);
    BasesAbsorbed(cfg, s, id, words, size, silence);
  }

  lemma HeldRested(cfg: Config, s: Story, k: Look)
    requires HeldOk(s)
    ensures HeldOk(Rested(cfg, s, k))
  {
  }

  lemma IndicesTold(cfg: Config, s: Story, k: Look)
    requires IndicesOk(s) && OrderOk(s) && BasesOk(s) && HeldOk(s)
    ensures var n := Told(cfg, s, k); IndicesOk(n) && OrderOk(n) && BasesOk(n)
  {
    if !k.busy && Proceeds(s.live, k) {
      IndicesRested(cfg, s, k);
      if Decodes(cfg, s.live, k) {
        HeldRested(cfg, s, k);
        IndicesDecoded(cfg, Rested(cfg, s, k), k.session.value, Split(k.text.value), |Decoded(cfg, s.live, k)|,
                       k.silence);
      }
    }
  }

  // ----- Events -----

  /** The last event is the current text; each event extends and differs from the one
      before. */
  ghost predicate Follows(ps: seq<Partial>, committed: string, tail: string) {
    && (ps == [] ==> committed == "" && tail == "")
    && (ps != [] ==> ps[|ps| - 1].committed == committed && ps[|ps| - 1].tail == tail)
    && (forall i :: 0 <= i < |ps| - 1 ==>
          && ps[i].committed <= ps[i + 1].committed
          && (ps[i].committed != ps[i + 1].committed || ps[i].tail != ps[i + 1].tail))
  }

  ghost predicate PartialsOk(s: Story) {
    Follows(s.partials, s.live.committed, s.live.tail)
  }

  lemma FollowsMore(ps: seq<Partial>, committed: string, tail: string, e: Partial)
    requires Follows(ps, committed, tail) && committed <= e.committed
    requires committed != e.committed || tail != e.tail
    ensures Follows(ps + [e], e.committed, e.tail)
  {
    var qs := ps + [e];
    forall i | 0 <= i < |qs| - 1
      ensures qs[i].committed <= qs[i + 1].committed
      ensures qs[i].committed != qs[i + 1].committed || qs[i].tail != qs[i + 1].tail
    {
      assert qs[i] == ps[i];
    }
  }

  lemma UnpublishedKeepsText(cfg: Config, l: Live, k: Look)
    requires Published(cfg, l, k).None?
    ensures Ticked(cfg, l, k).committed == l.committed && Ticked(cfg, l, k).tail == l.tail
  {
  }

  lemma PartialsTold(cfg: Config, s: Story, k: Look)
    requires PartialsOk(s) && s.live.committed <= Ticked(cfg, s.live, k).committed
    ensures PartialsOk(Told(cfg, s, k))
  {
    var event := Published(cfg, s.live, k);
    if event.Some? {
      FollowsMore(s.partials, s.live.committed, s.live.tail, event.value);
    } else {
      UnpublishedKeepsText(cfg, s.live, k);
      assert s.partials + [] == s.partials;
    }
  }
}

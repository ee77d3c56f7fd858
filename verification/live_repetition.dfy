/** Which recognised words are committed, exactly, and when a word of a forced commit is
    committed a second time. */
module LiveRepetition {
  import opened Core
  import opened Words
  import opened LiveTranscribers
  import opened LiveStories
  import opened LiveTheorems

  // ----- Commits as a function of what was recognised -----

  function Max(a: nat, b: nat): nat {
    if a > b then a else b
  }

  /** The decode just before `u` belongs to the same segment. */
  predicate Continues(decodes: seq<Decode>, u: nat) {
    0 < u < |decodes| && decodes[u - 1].segment == decodes[u].segment
  }

  /** How many leading words, the last one aside, match those of the decode before. */
  function Agreement(before: seq<string>, words: seq<string>): nat {
    if before == [] || |words| <= 1 || !Matches(before[0], words[0]) then 0
    else 1 + Agreement(before[1..], words[1..])
  }

  lemma {:induction false} AgreementIs(before: seq<string>, words: seq<string>, n: nat)
    requires n <= |before| && (if words == [] then n == 0 else n < |words|)
    requires forall i :: 0 <= i < n ==> Matches(before[i], words[i])
    requires n < |before| && n + 1 < |words| ==> !Matches(before[n], words[n])
    ensures Agreement(before, words) == n
  {
    if n > 0 {
      AgreementIs(before[1..], words[1..], n - 1);
    }
  }

  /** Where the commits of decode `u` end: all words if forced, otherwise what it agrees
      on with the decode before, never the last word. */
  function EndOf(decodes: seq<Decode>, u: nat): nat
    requires u < |decodes|
  {
    if decodes[u].forced then |decodes[u].words|
    else Agreement(if Continues(decodes, u) then decodes[u - 1].words else [], decodes[u].words)
  }

  /** Where they begin: behind what the segment has committed; in the decode that opens a
      segment after a forced commit, behind the words it re-recognises; at 0 otherwise,
      as after a post-pause skip. */
  function BaseOf(decodes: seq<Decode>, u: nat): nat
    requires u < |decodes|
  {
    if Continues(decodes, u) then Max(BaseOf(decodes, u - 1), EndOf(decodes, u - 1))
    else if Opens(decodes, u) then Overlap(decodes[u - 1].words, decodes[u].words)
    else 0
  }

  /** Word `i` of decode `u` became permanent. */
  ghost predicate Committed(commits: seq<Commit>, u: nat, i: nat) {
    exists j :: 0 <= j < |commits| && commits[j].decode == u && commits[j].index == i
  }

  // ----- The invariant -----

  /** The recorded limits of decode `u` are those its history gives. */
  predicate LimitsExact(decodes: seq<Decode>, u: nat) {
    u < |decodes| && decodes[u].base == BaseOf(decodes, u) && decodes[u].end == EndOf(decodes, u)
  }

  ghost predicate DecodesExact(decodes: seq<Decode>) {
    forall u :: 0 <= u < |decodes| ==> LimitsExact(decodes, u)
  }

  /** Decode `u` commits the indices from `base` up to `end`, and no others. */
  ghost predicate CommitsOf(commits: seq<Commit>, u: nat, base: nat, end: nat) {
    forall i: nat :: Committed(commits, u, i) <==> base <= i < end
  }

  ghost predicate CommitsExact(decodes: seq<Decode>, commits: seq<Commit>) {
    && Numbered(commits, |decodes|)
    && (forall u :: 0 <= u < |decodes| ==> CommitsOf(commits, u, decodes[u].base, decodes[u].end))
  }

  ghost predicate Numbered(commits: seq<Commit>, t: nat) {
    forall j :: 0 <= j < |commits| ==> commits[j].decode < t
  }

  /** What the next decode of the segment will start from. */
  ghost predicate HeldExact(s: Story) {
    var t := |s.decodes|;
    if t > 0 && s.decodes[t - 1].segment == s.segment then
      && s.live.previous == s.decodes[t - 1].words && !s.decodes[t - 1].forced
      && s.live.done == Max(s.decodes[t - 1].base, s.decodes[t - 1].end)
    else s.live.previous == [] && s.live.done == 0
  }

  ghost predicate Exact(s: Story) {
    DecodesExact(s.decodes) && CommitsExact(s.decodes, s.commits) && HeldExact(s)
  }

  lemma {:induction false} EarlierDecodesSettled(decodes: seq<Decode>, d: Decode, u: nat)
    requires u < |decodes|
    ensures EndOf(decodes + [d], u) == EndOf(decodes, u) && BaseOf(decodes + [d], u) == BaseOf(decodes, u)
  {
    if u > 0 {
      EarlierDecodesSettled(decodes, d, u - 1);
    }
  }

  lemma DecodesMoreExact(decodes: seq<Decode>, d: Decode)
    requires DecodesExact(decodes) && LimitsExact(decodes + [d], |decodes|)
    ensures DecodesExact(decodes + [d])
  {
    forall u | 0 <= u < |decodes + [d]| ensures LimitsExact(decodes + [d], u) {
      if u < |decodes| {
        LimitsStay(decodes, d, u);
      }
    }
  }

  lemma LimitsStay(decodes: seq<Decode>, d: Decode, u: nat)
    requires LimitsExact(decodes, u)
    ensures LimitsExact(decodes + [d], u)
  {
    EarlierDecodesSettled(decodes, d, u);
  }

  lemma CommittedMore(commits: seq<Commit>, more: seq<Commit>, u: nat, i: nat)
    ensures Committed(commits + more, u, i) <==> Committed(commits, u, i) || Committed(more, u, i)
  {
    var all := commits + more;
    if Committed(commits, u, i) {
      var j :| 0 <= j < |commits| && commits[j].decode == u && commits[j].index == i;
      assert all[j] == commits[j];
    }
    if Committed(more, u, i) {
      var j :| 0 <= j < |more| && more[j].decode == u && more[j].index == i;
      assert all[|commits| + j] == more[j];
    }
  }

  lemma NewlyCommitted(t: nat, words: seq<string>, from: nat, to: nat, u: nat, i: nat)
    requires to <= |words|
    ensures Committed(NewCommits(t, words, from, to), u, i) <==> u == t && from <= i < to
  {
    var more := NewCommits(t, words, from, to);
    if u == t && from <= i < to {
      assert more[i - from].index == i;
    }
  }

  lemma CommitsStay(commits: seq<Commit>, t: nat, words: seq<string>, from: nat, to: nat, u: nat, base: nat, end: nat)
    requires to <= |words| && u < t && CommitsOf(commits, u, base, end)
    ensures CommitsOf(commits + NewCommits(t, words, from, to), u, base, end)
  {
    forall i: nat ensures Committed(commits + NewCommits(t, words, from, to), u, i) <==> base <= i < end {
      CommittedMore(commits, NewCommits(t, words, from, to), u, i);
      NewlyCommitted(t, words, from, to, u, i);
    }
  }

  lemma CommitsAdded(commits: seq<Commit>, t: nat, words: seq<string>, from: nat, to: nat)
    requires to <= |words| && Numbered(commits, t)
    ensures CommitsOf(commits + NewCommits(t, words, from, to), t, from, to)
  {
    forall i: nat ensures Committed(commits + NewCommits(t, words, from, to), t, i) <==> from <= i < to {
      CommittedMore(commits, NewCommits(t, words, from, to), t, i);
      NewlyCommitted(t, words, from, to, t, i);
    }
  }

  lemma CommitsMoreExact(decodes: seq<Decode>, commits: seq<Commit>, d: Decode)
    requires CommitsExact(decodes, commits) && d.end <= |d.words|
    ensures CommitsExact(decodes + [d], commits + NewCommits(|decodes|, d.words, d.base, d.end))
  {
    var t, all := |decodes|, decodes + [d];
    var more := commits + NewCommits(t, d.words, d.base, d.end);
    CommitsNumbered(commits, t, d.words, d.base, d.end);
    forall u | 0 <= u < |all| ensures CommitsOf(more, u, all[u].base, all[u].end) {
      if u < t {
        CommitsStay(commits, t, d.words, d.base, d.end, u, decodes[u].base, decodes[u].end);
      } else {
        CommitsAdded(commits, t, d.words, d.base, d.end);
      }
    }
  }

  lemma CommitsNumbered(commits: seq<Commit>, t: nat, words: seq<string>, from: nat, to: nat)
    requires to <= |words| && Numbered(commits, t)
    ensures Numbered(commits + NewCommits(t, words, from, to), t + 1)
  {
  }

  /** A decode begins and ends its commits where its history says. */
  lemma DecodeIsExact(cfg: Config, s: Story, words: seq<string>, size: nat, silence: bool)
    requires HeldOk(s) && DecodesExact(s.decodes) && HeldExact(s)
    ensures LimitsExact(s.decodes + [Recorded(cfg, s, words, size, silence)], |s.decodes|)
  {
    var t, decode := |s.decodes|, Recorded(cfg, s, words, size, silence);
    var all := s.decodes + [decode];
    AgreementIs(s.live.previous, words, SafeUpper(s.live.previous, words));
    if t > 0 {
      assert LimitsExact(s.decodes, t - 1);
      assert all[t - 1] == s.decodes[t - 1];
      EarlierDecodesSettled(s.decodes, decode, t - 1);
    }
  }

  lemma AbsorbingHolds(cfg: Config, s: Story, id: SessionId, words: seq<string>, size: nat, silence: bool)
    ensures var n, d := Absorbing(cfg, s, id, words, size, silence), Recorded(cfg, s, words, size, silence);
            && d.segment == s.segment
            && (d.forced ==> n.segment == s.segment + 1 && n.live.previous == [] && n.live.done == 0)
            && (!d.forced ==> n.segment == d.segment && n.live.previous == words && n.live.done == Max(d.base, d.end))
  {
  }

  lemma ExactAbsorbed(cfg: Config, s: Story, id: SessionId, words: seq<string>, size: nat, silence: bool)
    requires HeldOk(s) && Exact(s)
    ensures Exact(Absorbing(cfg, s, id, words, size, silence))
  {
    var n, decode := Absorbing(cfg, s, id, words, size, silence), Recorded(cfg, s, words, size, silence);
    AbsorbingRecords(cfg, s, id, words, size, silence);
    AbsorbingHolds(cfg, s, id, words, size, silence);
    assert DecodesExact(n.decodes) by {
      DecodeIsExact(cfg, s, words, size, silence);
      DecodesMoreExact(s.decodes, decode);
    }
    assert CommitsExact(n.decodes, n.commits) by {
      CommitsMoreExact(s.decodes, s.commits, decode);
    }
    assert n.decodes[|s.decodes|] == decode;
    assert HeldExact(n);
  }

  lemma ExactRested(cfg: Config, s: Story, k: Look)
    requires HeldOk(s) && Exact(s)
    ensures Exact(Rested(cfg, s, k))
  {
  }

  lemma ExactTold(cfg: Config, s: Story, k: Look)
    requires HeldOk(s) && Exact(s)
    ensures Exact(Told(cfg, s, k))
  {
    if !k.busy && Proceeds(s.live, k) {
      ExactRested(cfg, s, k);
      if Decodes(cfg, s.live, k) {
        HeldRested(cfg, s, k);
        ExactAbsorbed(cfg, Rested(cfg, s, k), k.session.value, Split(k.text.value), |Decoded(cfg, s.live, k)|,
                      k.silence);
      }
    }
  }

  lemma {:induction false} ExactRun(cfg: Config, s: Story, looks: seq<Look>)
    requires Good(cfg, s) && Exact(s) && CanTell(cfg, s, looks)
    ensures Exact(Tell(cfg, s, looks))
    decreases looks
  {
    if looks != [] {
      ExactTold(cfg, s, looks[0]);
      GoodTold(cfg, s, looks[0]);
      ExactRun(cfg, Told(cfg, s, looks[0]), looks[1..]);
    }
  }

  lemma ExactBeginning()
    ensures Exact(Beginning)
  {
  }

  lemma LivedExact(cfg: Config, s: Story, looks: seq<Look>)
    requires Lived(cfg, s, looks)
    ensures Exact(s)
  {
    GoodBeginning(cfg);
    ExactBeginning();
    ExactRun(cfg, Beginning, looks);
  }

  // ----- Theorems -----

  /** In every recording, which words are permanent is a function of the decodes alone. */
  lemma CommitsAreExactly(cfg: Config, s: Story, looks: seq<Look>, u: nat, i: nat)
    requires Lived(cfg, s, looks) && u < |s.decodes|
    ensures Committed(s.commits, u, i) <==> BaseOf(s.decodes, u) <= i < EndOf(s.decodes, u)
    ensures s.decodes[u].base == BaseOf(s.decodes, u)
  {
    LivedExact(cfg, s, looks);
    assert LimitsExact(s.decodes, u) && CommitsOf(s.commits, u, s.decodes[u].base, s.decodes[u].end);
  }

  /** LocalAgreement-2 is complete: in a decode that continues a segment unforced, a word
      other than the last, up to which all words match the decode before, is permanent now
      or was so before; and no other word of it becomes permanent. */
  lemma AgreedWordsAreCommitted(cfg: Config, s: Story, looks: seq<Look>, u: nat, i: nat)
    requires Lived(cfg, s, looks) && Continues(s.decodes, u) && !s.decodes[u].forced
    ensures var before, words := s.decodes[u - 1].words, s.decodes[u].words;
            Committed(s.commits, u, i) <==>
              && i + 1 < |words| && i < |before| && (forall j :: 0 <= j <= i ==> Matches(before[j], words[j]))
              && i >= BaseOf(s.decodes, u)
  {
    CommitsAreExactly(cfg, s, looks, u, i);
    AgreementMeans(s.decodes[u - 1].words, s.decodes[u].words, i);
  }

  lemma {:induction false} AgreementMeans(before: seq<string>, words: seq<string>, i: nat)
    ensures i < Agreement(before, words) <==>
              i + 1 < |words| && i < |before| && forall j :: 0 <= j <= i ==> Matches(before[j], words[j])
  {
    if i > 0 && before != [] && |words| > 1 && Matches(before[0], words[0]) {
      AgreementMeans(before[1..], words[1..], i - 1);
      if i < |before| && i + 1 < |words| {
        ShiftedMatches(before, words, i);
      }
    }
  }

  lemma ShiftedMatches(before: seq<string>, words: seq<string>, i: nat)
    requires 0 < i && before != [] && words != [] && Matches(before[0], words[0])
    requires i < |before| && i < |words|
    ensures (forall j :: 0 <= j <= i ==> Matches(before[j], words[j])) <==>
            (forall j :: 0 <= j <= i - 1 ==> Matches(before[1..][j], words[1..][j]))
  {
    if forall j :: 0 <= j <= i - 1 ==> Matches(before[1..][j], words[1..][j]) {
      forall j | 0 <= j <= i ensures Matches(before[j], words[j]) {
        if j > 0 {
          assert Matches(before[1..][j - 1], words[1..][j - 1]);
        }
      }
    }
  }

  /** Decode `u` commits a word with which it re-recognises the end of decode `f`. */
  ghost predicate Repeats(s: Story, f: nat, u: nat)
    requires f < |s.decodes| && u < |s.decodes|
  {
    exists i :: 0 <= i < Overlap(s.decodes[f].words, s.decodes[u].words) && Committed(s.commits, u, i)
  }

  /** A forced decode `f` has made all its words permanent; a later decode `u` makes some
      of them permanent again exactly when its commits begin inside its overlap with them
      and are not empty. */
  lemma RepeatsExactlyWhen(cfg: Config, s: Story, looks: seq<Look>, f: nat, u: nat)
    requires Lived(cfg, s, looks) && f < u < |s.decodes| && s.decodes[f].forced
    ensures forall i :: BaseOf(s.decodes, f) <= i < |s.decodes[f].words| ==> Committed(s.commits, f, i)
    ensures Repeats(s, f, u) <==>
              && BaseOf(s.decodes, u) < Overlap(s.decodes[f].words, s.decodes[u].words)
              && BaseOf(s.decodes, u) < EndOf(s.decodes, u)
  {
    forall i: nat
      ensures Committed(s.commits, f, i) <==> BaseOf(s.decodes, f) <= i < EndOf(s.decodes, f)
      ensures Committed(s.commits, u, i) <==> BaseOf(s.decodes, u) <= i < EndOf(s.decodes, u)
    {
      CommitsAreExactly(cfg, s, looks, f, i);
      CommitsAreExactly(cfg, s, looks, u, i);
    }
    var base, k := BaseOf(s.decodes, u), Overlap(s.decodes[f].words, s.decodes[u].words);
    if base < k && base < EndOf(s.decodes, u) {
      assert Committed(s.commits, u, base);
    }
  }

  /** A segment opened by a forced commit repeats none of the forced words unless one of
      its decodes re-recognises more of them than the first one did. */
  lemma OpenedSegmentRepeatsOnlyIfOverlapGrows(cfg: Config, s: Story, looks: seq<Look>, t: nat, u: nat)
    requires Lived(cfg, s, looks) && Opens(s.decodes, t)
    requires t <= u < |s.decodes| && s.decodes[u].segment == s.decodes[t].segment
    requires Repeats(s, t - 1, u)
    ensures u > t
    ensures Overlap(s.decodes[t - 1].words, s.decodes[u].words) > Overlap(s.decodes[t - 1].words, s.decodes[t].words)
  {
    assert BaseOf(s.decodes, u) < Overlap(s.decodes[t - 1].words, s.decodes[u].words) by {
      RepeatsExactlyWhen(cfg, s, looks, t - 1, u);
    }
    assert BaseOf(s.decodes, t) <= BaseOf(s.decodes, u) by {
      BasesGrow(cfg, s, looks, t, u);
    }
    OpeningBase(s.decodes, t);
  }

  lemma OpeningBase(decodes: seq<Decode>, t: nat)
    requires Opens(decodes, t)
    ensures BaseOf(decodes, t) == Overlap(decodes[t - 1].words, decodes[t].words)
  {
    assert !Continues(decodes, t);
  }

  lemma BasesGrow(cfg: Config, s: Story, looks: seq<Look>, t: nat, u: nat)
    requires Lived(cfg, s, looks) && t <= u < |s.decodes| && s.decodes[u].segment == s.decodes[t].segment
    ensures BaseOf(s.decodes, t) <= BaseOf(s.decodes, u)
  {
    CommitsAreExactly(cfg, s, looks, t, 0);
    CommitsAreExactly(cfg, s, looks, u, 0);
    assert s.decodes[t].base <= s.decodes[u].base by {
      LivedGood(cfg, s, looks);
    }
  }

  // ----- Two ways to repeat a word, for every configuration that keeps audio -----

  /** One more tick of a recording. */
  lemma Hear(cfg: Config, s: Story, looks: seq<Look>, k: Look) returns (n: Story, more: seq<Look>)
    requires Lived(cfg, s, looks) && Hears(s, k)
    ensures Lived(cfg, n, more) && n == Told(cfg, s, k) && n.heard == k.heardAgain
  {
    n, more := Told(cfg, s, k), looks + [k];
    TellMore(cfg, Beginning, looks, k);
  }

  lemma {:induction false} TellMore(cfg: Config, s: Story, looks: seq<Look>, k: Look)
    requires CanTell(cfg, s, looks) && Hears(Tell(cfg, s, looks), k)
    ensures CanTell(cfg, s, looks + [k]) && Tell(cfg, s, looks + [k]) == Told(cfg, Tell(cfg, s, looks), k)
    decreases looks
  {
    if looks == [] {
      assert (looks + [k])[1..] == [];
    } else {
      assert (looks + [k])[1..] == looks[1..] + [k];
      TellMore(cfg, Told(cfg, s, looks[0]), looks[1..], k);
    }
  }

  function Hush(n: nat): (samples: seq<Sample>)
    ensures |samples| == n && forall i :: 0 <= i < n ==> samples[i] == 0.0
  {
    seq(n, _ => 0.0)
  }

  /** A tick of session 1 once `n` samples are captured. */
  function Peek(n: nat, busy: bool, text: Option<string>): Look {
    Look(true, busy, Some(1), true, Hush(n), Hush(n), text, false)
  }

  lemma HushGrows(m: nat, n: nat)
    requires m <= n
    ensures Hush(m) <= Hush(n)
  {
  }

  /** The recording goes on to `n` samples. */
  lemma HearMore(cfg: Config, s: Story, looks: seq<Look>, n: nat, busy: bool, text: Option<string>)
    returns (t: Story, more: seq<Look>)
    requires Lived(cfg, s, looks) && |s.heard| <= n && s.heard == Hush(|s.heard|)
    ensures Lived(cfg, t, more) && t.live == Ticked(cfg, s.live, Peek(n, busy, text)) && t.heard == Hush(n)
  {
    HushGrows(|s.heard|, n);
    t, more := Hear(cfg, s, looks, Peek(n, busy, text));
  }

  lemma PeekTicks(cfg: Config, l: Live, n: nat, text: string)
    requires l.start < n && !l.paused
    ensures Ticked(cfg, l, Peek(n, false, Some(text))) == Absorbed(cfg, l, Split(text), n - l.start, false)
  {
    var k := Peek(n, false, Some(text));
    assert |WindowFrom(k.heard, l.start)| == n - l.start;
    assert Resumed(cfg, l, k) == l && Decoded(cfg, l, k) == WindowFrom(k.heard, l.start);
    assert Decodes(cfg, l, k);
  }

  /** The recording goes on to `n` samples and `text` is recognised. */
  lemma Recognise(cfg: Config, s: Story, looks: seq<Look>, n: nat, text: string)
    returns (t: Story, more: seq<Look>)
    requires Lived(cfg, s, looks) && |s.heard| <= n && s.heard == Hush(|s.heard|)
    requires s.live.start < n && !s.live.paused
    ensures Lived(cfg, t, more) && t.heard == Hush(n)
    ensures t.live == Absorbed(cfg, s.live, Split(text), n - s.live.start, false)
  {
    PeekTicks(cfg, s.live, n, text);
    t, more := HearMore(cfg, s, looks, n, false, Some(text));
  }

  lemma SampleCounts(cfg: Config, n: nat)
    ensures SamplesIn(cfg.maxSegment) == 16 * cfg.maxSegment && SamplesIn(cfg.keep) == 16 * cfg.keep
    ensures Forces(cfg, n, false) <==> n / 16 >= cfg.maxSegment
  {
  }

  /** The fields after a forced commit of the single word `a` as the whole text. */
  function Boundary(cfg: Config, a: string, carried: seq<string>): Live {
    Live(false, 16 * (if cfg.keep < cfg.maxSegment then cfg.maxSegment - cfg.keep else cfg.maxSegment),
         0, a, "", [], carried)
  }

  lemma OneWordText(a: string)
    requires IsWord(a)
    ensures Slice([a], 0, 1) == [a] && Join([a]) == a
  {
    JoinMore([], a);
    assert [] + [a] == [a];
  }

  /** The first window reaches the cap, so `a` is committed. */
  lemma FirstForced(cfg: Config, a: string)
    requires 0 < cfg.maxSegment && IsWord(a)
    ensures Absorbed(cfg, Fresh, [a], 16 * cfg.maxSegment, false) == Boundary(cfg, a, [a])
  {
    OneWordText(a);
    SampleCounts(cfg, 16 * cfg.maxSegment);
  }

  lemma EmptyFirst(cfg: Config, a: string, n: nat)
    requires n / 16 < cfg.maxSegment
    ensures Absorbed(cfg, Boundary(cfg, a, [a]), [], n, false) == Boundary(cfg, a, [])
  {
    SampleCounts(cfg, n);
  }

  lemma HeardAgain(cfg: Config, a: string, b: string, n: nat) returns (l: Live)
    requires n / 16 < cfg.maxSegment && IsWord(a)
    ensures l == Absorbed(cfg, Boundary(cfg, a, []), [a, b], n, false)
    ensures l.committed == a && l.done == 0 && l.previous == [a, b] && l.carried == [] && !l.paused
    ensures l.start == Boundary(cfg, a, []).start
  {
    SampleCounts(cfg, n);
    l := Absorbed(cfg, Boundary(cfg, a, []), [a, b], n, false);
  }

  lemma AgreedAgain(cfg: Config, a: string, b: string, l: Live, n: nat)
    requires n / 16 < cfg.maxSegment && IsWord(a)
    requires l.committed == a && l.done == 0 && l.previous == [a, b] && l.carried == []
    ensures Absorbed(cfg, l, [a, b], n, false).committed == a + " " + a
  {
    SampleCounts(cfg, n);
    CommonPrefixIs([a, b], [a, b], 2);
    assert SafeUpper(l.previous, [a, b]) == 1;
    assert Slice([a, b], 0, 1) == [a];
    OneWordText(a);
  }

  lemma Forced(cfg: Config, a: string) returns (s: Story, looks: seq<Look>)
    requires cfg.keep < cfg.maxSegment && IsWord(a)
    ensures Lived(cfg, s, looks) && s.live == Boundary(cfg, a, [a]) && s.heard == Hush(16 * cfg.maxSegment)
  {
    SplitOneWord(a);
    FirstForced(cfg, a);
    s, looks := Recognise(cfg, Beginning, [], 16 * cfg.maxSegment, a);
  }

  lemma ForcedThenNothing(cfg: Config, a: string) returns (s: Story, looks: seq<Look>)
    requires cfg.keep < cfg.maxSegment && IsWord(a)
    ensures Lived(cfg, s, looks) && s.live == Boundary(cfg, a, []) && s.heard == Hush(16 * cfg.maxSegment + 1)
  {
    s, looks := Forced(cfg, a);
    EmptyFirst(cfg, a, 16 * cfg.keep + 1);
    s, looks := Recognise(cfg, s, looks, 16 * cfg.maxSegment + 1, "");
  }

  /** First way: the first decode of the new segment recognises nothing and so uses up the
      carried words; the next two hear the kept audio and agree on it. */
  lemma BoundaryWordCanRepeat(cfg: Config, a: string, b: string) returns (s: Story, looks: seq<Look>)
    requires cfg.keep < cfg.maxSegment && IsWord(a) && IsWord(b)
    ensures Lived(cfg, s, looks) && s.live.committed == a + " " + a
  {
    var n, ab := 16 * cfg.maxSegment + 1, a + " " + b;
    assert Split(ab) == [a, b] by {
      SplitOneWord(a);
      SplitOneWord(b);
      SplitAtSpace(a, b);
    }
    s, looks := ForcedThenNothing(cfg, a);
    var l := HeardAgain(cfg, a, b, 16 * cfg.keep + 2);
    s, looks := Recognise(cfg, s, looks, n + 1, ab);
    assert s.live == l;
    AgreedAgain(cfg, a, b, l, 16 * cfg.keep + 3);
    s, looks := Recognise(cfg, s, looks, n + 2, ab);
  }

  /** The tick after a pause whose window exceeds the cap by one sample. */
  lemma SkipTicks(cfg: Config, l: Live, n: nat, text: string)
    requires l.paused && n == l.start + 16 * cfg.maxSegment + 1 && 0 < cfg.maxSegment
    ensures Ticked(cfg, l, Peek(n, false, Some(text))) ==
            Absorbed(cfg, l.(paused := false, start := l.start + 1, done := 0, previous := [], carried := []),
                     Split(text), 16 * cfg.maxSegment, false)
  {
    var k := Peek(n, false, Some(text));
    SampleCounts(cfg, n);
    assert |WindowFrom(k.heard, l.start)| == 16 * cfg.maxSegment + 1;
    assert Resumed(cfg, l, k) ==
           l.(paused := false, start := l.start + 1, done := 0, previous := [], carried := []);
    assert |Decoded(cfg, l, k)| == 16 * cfg.maxSegment;
    assert Decodes(cfg, l, k);
  }

  lemma ForcedAgain(cfg: Config, l: Live, a: string)
    requires IsWord(a) && l.committed == a && l.done == 0 && l.carried == []
    ensures Absorbed(cfg, l, [a], 16 * cfg.maxSegment, false).committed == a + " " + a
  {
    SampleCounts(cfg, 16 * cfg.maxSegment);
    OneWordText(a);
  }

  lemma ForcedThenBusy(cfg: Config, a: string) returns (s: Story, looks: seq<Look>)
    requires cfg.keep < cfg.maxSegment && IsWord(a)
    ensures Lived(cfg, s, looks) && s.live == Boundary(cfg, a, [a]).(paused := true)
    ensures s.heard == Hush(16 * cfg.maxSegment)
  {
    s, looks := Forced(cfg, a);
    s, looks := HearMore(cfg, s, looks, 16 * cfg.maxSegment, true, None);
  }

  /** Second way: a post-pause skip of a single sample forgets the carried words while all
      the other kept audio is decoded again, and that tick is a forced commit. */
  lemma SkippedBoundaryCanRepeat(cfg: Config, a: string) returns (s: Story, looks: seq<Look>)
    requires cfg.keep < cfg.maxSegment && IsWord(a)
    ensures Lived(cfg, s, looks) && s.live.committed == a + " " + a
  {
    s, looks := ForcedThenBusy(cfg, a);
    var l, n := s.live, s.live.start + 16 * cfg.maxSegment + 1;
    SkipTicks(cfg, l, n, a);
    SplitOneWord(a);
    ForcedAgain(cfg, l.(paused := false, start := l.start + 1, done := 0, previous := [], carried := []), a);
    s, looks := HearMore(cfg, s, looks, n, false, Some(a));
  }

  /** A skip whose decode then fails moves the segment start with no commit at all. */
  lemma SkipMovesStartWithoutCommit(cfg: Config) returns (s: Story, looks: seq<Look>)
    ensures Lived(cfg, s, looks) && s.live.start > 0 && s.decodes == [] && s.commits == []
  {
    var cap := 16 * cfg.maxSegment;
    SampleCounts(cfg, cap);
    s, looks := Hear(cfg, Beginning, [], Peek(0, true, None));
    s, looks := Hear(cfg, s, looks, Peek(cap + 1, false, None));
  }
}

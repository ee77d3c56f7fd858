/** When a tick of the live preview decodes, when it commits by force and when it skips,
    said in terms of what the tick observes and of the ticks before it. */
module LiveTicks {
  import opened Core
  import opened Words
  import opened LiveTranscribers
  import opened LiveStories
  import opened LiveTheorems
  import opened LiveRepetition

  /** The tick finds a recording, a free backend, its interval elapsed and new samples. */
  predicate Runs(start: nat, k: Look) {
    k.recording && !k.busy && k.session.Some? && k.due && start < |k.heard|
  }

  /** A tick that does not run changes nothing, except that a busy backend is noted. */
  lemma IdleTickChangesNothing(cfg: Config, l: Live, k: Look)
    requires !Runs(l.start, k)
    ensures Ticked(cfg, l, k) == if k.recording && k.busy then l.(paused := true) else l
    ensures Published(cfg, l, k).None?
  {
  }

  /** More than a segment is waiting after a pause. */
  predicate Overdue(cfg: Config, s: Story, k: Look) {
    s.live.paused && |k.heard| > s.live.start + 16 * cfg.maxSegment
  }

  lemma OverdueSkips(cfg: Config, s: Story, k: Look)
    requires s.live.start < |k.heard|
    ensures Skips(cfg, s.live, k) <==> Overdue(cfg, s, k)
    ensures Overdue(cfg, s, k) ==> Resumed(cfg, s.live, k).start == |k.heard| - 16 * cfg.maxSegment
  {
  }

  /** The samples a running tick looks at: [From, To) of the recording. */
  function From(cfg: Config, s: Story, k: Look): int {
    if Overdue(cfg, s, k) then |k.heard| - 16 * cfg.maxSegment else s.live.start
  }

  function To(cfg: Config, s: Story, k: Look): nat {
    if Overdue(cfg, s, k) then |k.heardAgain| else |k.heard|
  }

  lemma DecodesMeans(cfg: Config, s: Story, k: Look)
    requires Hears(s, k)
    ensures Decodes(cfg, s.live, k) <==> Runs(s.live.start, k) && k.text.Some? && From(cfg, s, k) < To(cfg, s, k)
    ensures Decodes(cfg, s.live, k) ==> |Decoded(cfg, s.live, k)| == To(cfg, s, k) - From(cfg, s, k)
  {
    if s.live.start < |k.heard| {
      OverdueSkips(cfg, s, k);
    }
  }

  /** A tick records a decode exactly when it runs, finds samples and the backend answers;
      the decode is of those samples and holds the words of the answer. */
  lemma DecodesExactlyWhen(cfg: Config, s: Story, k: Look)
    requires Hears(s, k)
    ensures var n, t := Told(cfg, s, k), |s.decodes|;
            if Runs(s.live.start, k) && k.text.Some? && From(cfg, s, k) < To(cfg, s, k) then
              && |n.decodes| == t + 1 && n.decodes[t].words == Split(k.text.value)
              && n.decodes[t].from == From(cfg, s, k) && n.decodes[t].to == To(cfg, s, k)
            else n.decodes == s.decodes
  {
    DecodesMeans(cfg, s, k);
    if Decodes(cfg, s.live, k) {
      ToldDecode(cfg, s, k);
      OverdueSkips(cfg, s, k);
    }
  }

  lemma ForcesMeans(cfg: Config, size: nat, silence: bool)
    ensures Forces(cfg, size, silence) <==> size >= 16 * cfg.maxSegment || silence
  {
  }

  /** What a decode leaves in the fields. */
  lemma AbsorbedMeans(cfg: Config, l: Live, words: seq<string>, size: nat, silence: bool)
    requires 0 < size
    ensures var n := Absorbed(cfg, l, words, size, silence);
            if size >= 16 * cfg.maxSegment || silence then
              && n.tail == "" && n.carried == words
              && n.start == if size > 16 * cfg.keep then l.start + size - 16 * cfg.keep else l.start + size
            else n.tail == Join(Slice(words, n.done, |words|)) && n.start == l.start
  {
    ForcesMeans(cfg, size, silence);
  }

  /** A decode is forced exactly when its window lasts a whole segment or the voice detector
      reports silence. Then no tail is left, every word from its base on is permanent, and
      the start moves on to the kept audio. Otherwise the start stays. */
  lemma ForcedExactlyWhen(cfg: Config, s: Story, looks: seq<Look>, k: Look)
    requires Lived(cfg, s, looks) && Hears(s, k)
    requires Runs(s.live.start, k) && k.text.Some? && From(cfg, s, k) < To(cfg, s, k)
    ensures var n, t := Told(cfg, s, k), |s.decodes|;
            && |n.decodes| == t + 1
            && var d := n.decodes[t];
               && (d.forced <==> d.to - d.from >= 16 * cfg.maxSegment || k.silence)
               && (d.forced ==>
                     && n.live.tail == "" && n.live.carried == d.words && n.live.start > d.from
                     && n.live.start == (if d.to - d.from > 16 * cfg.keep then d.to - 16 * cfg.keep else d.to)
                     && forall i :: BaseOf(n.decodes, t) <= i < |d.words| ==> Committed(n.commits, t, i))
               && (!d.forced ==> n.live.start == d.from)
  {
    var n, t := Told(cfg, s, k), |s.decodes|;
    var words, size := Split(k.text.value), |Decoded(cfg, s.live, k)|;
    DecodesMeans(cfg, s, k);
    DecodesExactlyWhen(cfg, s, k);
    ToldForced(cfg, s, k);
    AbsorbedMeans(cfg, Resumed(cfg, s.live, k), words, size, k.silence);
    OverdueSkips(cfg, s, k);
    var n', more := Hear(cfg, s, looks, k);
    forall i: nat
      ensures n.decodes[t].forced && BaseOf(n.decodes, t) <= i < |words| ==> Committed(n.commits, t, i)
    {
      CommitsAreExactly(cfg, n, more, t, i);
    }
  }

  lemma ToldForced(cfg: Config, s: Story, k: Look)
    requires Decodes(cfg, s.live, k)
    ensures var n, size := Told(cfg, s, k), |Decoded(cfg, s.live, k)|;
            && |n.decodes| == |s.decodes| + 1
            && (n.decodes[|s.decodes|].forced <==> size >= 16 * cfg.maxSegment || k.silence)
            && n.live == Absorbed(cfg, Resumed(cfg, s.live, k), Split(k.text.value), size, k.silence)
  {
    ForcesMeans(cfg, |Decoded(cfg, s.live, k)|, k.silence);
  }

  // ----- Pauses -----

  /** The flag is set by a busy tick and cleared by one that runs. */
  lemma PauseFlag(cfg: Config, l: Live, k: Look)
    ensures Ticked(cfg, l, k).paused <==> (k.recording && k.busy) || (l.paused && !Runs(l.start, k))
  {
  }

  /** Tick `j` of the recording runs. */
  predicate RunsAt(cfg: Config, looks: seq<Look>, j: nat) {
    && j < |looks| && CanTell(cfg, Beginning, looks[..j])
    && Runs(Tell(cfg, Beginning, looks[..j]).live.start, looks[j])
  }

  /** Some tick found the backend busy and none has run since. */
  ghost predicate BusySince(cfg: Config, looks: seq<Look>) {
    exists i :: 0 <= i < |looks| && BusyFrom(cfg, looks, i)
  }

  ghost predicate BusyFrom(cfg: Config, looks: seq<Look>, i: nat) {
    && i < |looks| && looks[i].recording && looks[i].busy
    && forall j :: i < j < |looks| ==> !RunsAt(cfg, looks, j)
  }

  lemma {:induction false} TellFront(cfg: Config, s: Story, looks: seq<Look>)
    requires looks != [] && CanTell(cfg, s, looks)
    ensures var front, k := looks[..|looks| - 1], looks[|looks| - 1];
            && CanTell(cfg, s, front) && Hears(Tell(cfg, s, front), k)
            && Tell(cfg, s, looks) == Told(cfg, Tell(cfg, s, front), k)
    decreases looks
  {
    var front := looks[..|looks| - 1];
    if front == [] {
      assert looks[1..] == [];
    } else {
      TellFront(cfg, Told(cfg, s, looks[0]), looks[1..]);
      assert looks[1..][..|looks[1..]| - 1] == front[1..] && front[0] == looks[0];
    }
  }

  lemma RunsAtFront(cfg: Config, looks: seq<Look>, j: nat)
    requires j + 1 < |looks|
    ensures RunsAt(cfg, looks, j) <==> RunsAt(cfg, looks[..|looks| - 1], j)
  {
    assert looks[..|looks| - 1][..j] == looks[..j];
  }

  lemma BusyFromFront(cfg: Config, looks: seq<Look>, i: nat)
    requires i + 1 < |looks|
    ensures BusyFrom(cfg, looks, i) <==>
              BusyFrom(cfg, looks[..|looks| - 1], i) && !RunsAt(cfg, looks, |looks| - 1)
  {
    var front := looks[..|looks| - 1];
    forall j: nat | j + 1 < |looks| ensures RunsAt(cfg, looks, j) <==> RunsAt(cfg, front, j) {
      RunsAtFront(cfg, looks, j);
    }
  }

  lemma BusySinceFront(cfg: Config, looks: seq<Look>)
    requires looks != []
    ensures var last := looks[|looks| - 1];
            BusySince(cfg, looks) <==>
              || (last.recording && last.busy)
              || (BusySince(cfg, looks[..|looks| - 1]) && !RunsAt(cfg, looks, |looks| - 1))
  {
    var front := looks[..|looks| - 1];
    forall i: nat | i + 1 < |looks|
      ensures BusyFrom(cfg, looks, i) <==> BusyFrom(cfg, front, i) && !RunsAt(cfg, looks, |looks| - 1)
    {
      BusyFromFront(cfg, looks, i);
    }
    if looks[|looks| - 1].recording && looks[|looks| - 1].busy {
      assert BusyFrom(cfg, looks, |looks| - 1);
    }
    if BusySince(cfg, front) && !RunsAt(cfg, looks, |looks| - 1) {
      var i :| 0 <= i < |front| && BusyFrom(cfg, front, i);
      assert BusyFrom(cfg, looks, i);
    }
  }

  /** The preview counts as paused exactly while no tick has run since the backend was last
      found busy. */
  lemma {:induction false} PausedExactly(cfg: Config, s: Story, looks: seq<Look>)
    requires Lived(cfg, s, looks)
    ensures s.live.paused <==> BusySince(cfg, looks)
    decreases |looks|
  {
    if looks != [] {
      var front, k := looks[..|looks| - 1], looks[|looks| - 1];
      TellFront(cfg, Beginning, looks);
      var f := Tell(cfg, Beginning, front);
      PausedExactly(cfg, f, front);
      PauseFlag(cfg, f.live, k);
      BusySinceFront(cfg, looks);
    }
  }

  /** Audio is skipped exactly by the first tick that runs after a pause and finds more
      than a segment waiting; what it leaves is exactly one segment. */
  lemma SkipsExactlyWhen(cfg: Config, s: Story, looks: seq<Look>, k: Look)
    requires Lived(cfg, s, looks) && Hears(s, k)
    ensures var skips := BusySince(cfg, looks) && Runs(s.live.start, k)
                         && |k.heard| > s.live.start + 16 * cfg.maxSegment;
            var span := Span(s.live.start, if skips then |k.heard| - 16 * cfg.maxSegment else 0, true);
            var n := Told(cfg, s, k);
            && (skips ==> |n.spans| > |s.spans| && n.spans[|s.spans|] == span)
            && (!skips ==> forall i :: |s.spans| <= i < |n.spans| ==> !n.spans[i].skipped)
  {
    PausedExactly(cfg, s, looks);
    if s.live.start < |k.heard| {
      OverdueSkips(cfg, s, k);
    }
  }

  // ----- Events -----

  predicate Name(partials: seq<Partial>, id: SessionId) {
    forall i :: 0 <= i < |partials| ==> partials[i].id == id
  }

  lemma TickNamesSession(cfg: Config, s: Story, k: Look, id: SessionId)
    requires Name(s.partials, id) && k.session in {None, Some(id)}
    ensures Name(Told(cfg, s, k).partials, id)
  {
    var event := Published(cfg, s.live, k);
    assert event.Some? ==> Some(event.value.id) == k.session;
  }

  lemma {:induction false} SessionIsNamed(cfg: Config, s: Story, looks: seq<Look>, id: SessionId)
    requires CanTell(cfg, s, looks) && Name(s.partials, id)
    requires forall i :: 0 <= i < |looks| ==> looks[i].session in {None, Some(id)}
    ensures Name(Tell(cfg, s, looks).partials, id)
    decreases looks
  {
    if looks != [] {
      var n, rest := Told(cfg, s, looks[0]), looks[1..];
      TickNamesSession(cfg, s, looks[0], id);
      SessionIsNamed(cfg, n, rest, id);
    }
  }

  /** Every preview event names the session being recorded. */
  lemma PartialsNameTheirSession(cfg: Config, s: Story, looks: seq<Look>, id: SessionId, i: nat)
    requires Lived(cfg, s, looks) && i < |s.partials|
    requires forall j :: 0 <= j < |looks| ==> looks[j].session in {None, Some(id)}
    ensures s.partials[i].id == id
  {
    SessionIsNamed(cfg, Beginning, looks, id);
  }
}

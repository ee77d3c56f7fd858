/** The live preview (src/domains/session/live_transcriber.cpp): LocalAgreement-2
    with forced commits, kept-audio overlap and post-pause skipping. */
module LiveTranscribers {
  import opened Core
  import opened Words

  const SAMPLE_RATE: nat := 16000

  /** max_segment_duration and keep_duration, in milliseconds. */
  datatype Config = Config(maxSegment: nat, keep: nat)

  function SamplesIn(ms: nat): nat {
    ms * SAMPLE_RATE / 1000
  }

  /** The transcriber's fields. */
  datatype Live = Live(
    paused: bool,             // paused_for_worker_
    start: nat,               // committed_sample_count_: where the segment begins
    done: nat,                // committed_word_count_
    committed: string,
    tail: string,
    previous: seq<string>,
    carried: seq<string>)

  datatype Partial = Partial(id: SessionId, committed: string, tail: string)

  /** What one tick() observes: the service, the clock, the samples captured so far
      (read once, and once more after a skip), the backend's answer and the voice
      detector's verdict on the window. */
  datatype Look = Look(
    recording: bool,
    busy: bool,
    session: Option<SessionId>,
    due: bool,
    heard: seq<Sample>,
    heardAgain: seq<Sample>,
    text: Option<string>,
    silence: bool)

  const Fresh := Live(false, 0, 0, "", "", [], [])

  /** samples_snapshot(). */
  function WindowFrom(heard: seq<Sample>, start: nat): seq<Sample> {
    if start >= |heard| then [] else heard[start..]
  }

  /** The tick gets as far as reading a non-empty window. */
  predicate Proceeds(l: Live, k: Look) {
    k.recording && !k.busy && k.session.Some? && k.due && WindowFrom(k.heard, l.start) != []
  }

  /** The window is longer than the cap after a pause. */
  predicate Skips(cfg: Config, l: Live, k: Look) {
    l.paused && |WindowFrom(k.heard, l.start)| > SamplesIn(cfg.maxSegment)
  }

  /** The state after pause handling, before decoding. */
  function Resumed(cfg: Config, l: Live, k: Look): Live {
    if Skips(cfg, l, k) then
      l.(paused := false, start := l.start + (|WindowFrom(k.heard, l.start)| - SamplesIn(cfg.maxSegment)),
         done := 0, previous := [], carried := [])
    else l.(paused := false)
  }

  /** The samples the window is cut from. */
  function Source(cfg: Config, l: Live, k: Look): seq<Sample> {
    if Skips(cfg, l, k) then k.heardAgain else k.heard
  }

  /** The window handed to the backend. */
  function Decoded(cfg: Config, l: Live, k: Look): seq<Sample> {
    WindowFrom(Source(cfg, l, k), Resumed(cfg, l, k).start)
  }

  /** The tick decodes successfully. */
  predicate Decodes(cfg: Config, l: Live, k: Look) {
    Proceeds(l, k) && Decoded(cfg, l, k) != [] && k.text.Some?
  }

  /** commit(): text appended after a space. */
  function Appended(text: string, more: string): string {
    if more == "" then text else Joined(text, more)
  }

  /** First tick of a segment after a forced commit: skip re-recognised words. */
  function Deduplicated(l: Live, words: seq<string>): Live {
    if l.done == 0 && l.previous == [] && l.carried != []
    then l.(done := Overlap(l.carried, words), carried := [])
    else l
  }

  predicate Forces(cfg: Config, size: nat, silence: bool) {
    size * 1000 / SAMPLE_RATE >= cfg.maxSegment || silence
  }

  /** How far a forced commit moves the segment start. */
  function Advance(cfg: Config, size: nat): nat {
    if size > SamplesIn(cfg.keep) then size - SamplesIn(cfg.keep) else size
  }

  function Forced(cfg: Config, l: Live, words: seq<string>, size: nat): Live {
    l.(committed := Appended(l.committed, Join(Slice(words, l.done, |words|))), tail := "", carried := words,
       start := l.start + Advance(cfg, size), done := 0, previous := [])
  }

  /** The end of the agreed prefix, never the last word. */
  function SafeUpper(previous: seq<string>, words: seq<string>): (n: nat)
    ensures n <= |previous| && (words != [] ==> n < |words|) && (words == [] ==> n == 0)
    ensures forall i :: 0 <= i < n ==> Matches(previous[i], words[i])
    ensures n < |previous| && n + 1 < |words| ==> !Matches(previous[n], words[n])
  {
    if words == [] then 0
    else
      var agreed := CommonPrefix(previous, words);
      if agreed < |words| - 1 then agreed else |words| - 1
  }

  function Agreed(l: Live, words: seq<string>): Live {
    var upper := SafeUpper(l.previous, words);
    var n := if upper > l.done
             then l.(committed := Appended(l.committed, Join(Slice(words, l.done, upper))), done := upper)
             else l;
    n.(tail := Join(Slice(words, n.done, |words|)), previous := words)
  }

  /** The state after a successful decode. */
  function Absorbed(cfg: Config, l: Live, words: seq<string>, size: nat, silence: bool): Live {
    var d := Deduplicated(l, words);
    if Forces(cfg, size, silence) then Forced(cfg, d, words, size) else Agreed(d, words)
  }

  /** tick() as a whole. */
  function Ticked(cfg: Config, l: Live, k: Look): Live {
    if k.recording && k.busy then l.(paused := true)
    else if !Proceeds(l, k) then l
    else if !Decodes(cfg, l, k) then Resumed(cfg, l, k)
    else Absorbed(cfg, Resumed(cfg, l, k), Split(k.text.value), |Decoded(cfg, l, k)|, k.silence)
  }

  /** The event of this tick: published exactly when a decode changed the text. */
  function Published(cfg: Config, l: Live, k: Look): Option<Partial> {
    var n := Ticked(cfg, l, k);
    if Decodes(cfg, l, k) && (n.committed != l.committed || n.tail != l.tail)
    then Some(Partial(k.session.value, n.committed, n.tail)) else None
  }

  class LiveTranscriber {
    const cfg: Config
    var paused: bool
    var start: nat
    var done: nat
    var committed: string
    var tail: string
    var previous: seq<string>
    var carried: seq<string>

    ghost function State(): Live
      reads this
    {
      Live(paused, start, done, committed, tail, previous, carried)
    }

    constructor (cfg: Config)
      ensures this.cfg == cfg && State() == Fresh
    {
      this.cfg := cfg;
      paused, start, done := false, 0, 0;
      committed, tail, previous, carried := "", "", [], [];
    }

    /** reset(), on every RecordingStarted. */
    method Reset()
      modifies this
      ensures State() == Fresh
    {
      paused, start, done := false, 0, 0;
      committed, tail, previous, carried := "", "", [], [];
    }

    method Commit(words: seq<string>, from: nat, to: nat)
      modifies this`committed
      ensures committed == Appended(old(committed), Join(Slice(words, from, to)))
    {
      var text := JoinWords(words, from, to);
      if text == "" {
        return;
      }
      if committed != "" {
        committed := committed + " ";
      }
      committed := committed + text;
    }

    method ForceCommit(words: seq<string>, size: nat)
      modifies this
      ensures State() == Forced(cfg, old(State()), words, size)
    {
      Commit(words, done, |words|);
      tail := "";
      carried := words;
      var keep := SamplesIn(cfg.keep);
      start := start + if size > keep then size - keep else size;
      done := 0;
      previous := [];
    }

    method CommitUpTo(words: seq<string>, upper: nat)
      modifies this`committed, this`done
      ensures committed == if upper > old(done) then Appended(old(committed), Join(Slice(words, old(done), upper)))
                           else old(committed)
      ensures done == if upper > old(done) then upper else old(done)
    {
      if upper > done {
        Commit(words, done, upper);
        done := upper;
      }
    }

    method CommitAgreed(words: seq<string>)
      modifies this
      ensures State() == Agreed(old(State()), words)
    {
      var agreement := CommonPrefixLength(previous, words);
      var upper := if words == [] then 0 else if agreement < |words| - 1 then agreement else |words| - 1;
      assert upper == SafeUpper(previous, words);
      CommitUpTo(words, upper);
      tail := JoinWords(words, done, |words|);
      previous := words;
    }

    /** Everything after a successful transcribe_partial(). */
    method Absorb(words: seq<string>, size: nat, silence: bool)
      modifies this
      ensures State() == Absorbed(cfg, old(State()), words, size, silence)
    {
      if done == 0 && previous == [] && carried != [] {
        done := OverlapPrefixLength(carried, words);
        carried := [];
      }
      assert State() == Deduplicated(old(State()), words);
      if size * 1000 / SAMPLE_RATE >= cfg.maxSegment || silence {
        ForceCommit(words, size);
      } else {
        CommitAgreed(words);
      }
    }

    /** The end of a pause: a window beyond the cap is cut down to it. */
    method Resume(k: Look, heard: seq<Sample>) returns (window: seq<Sample>)
      requires heard == WindowFrom(k.heard, start)
      modifies this
      ensures State() == Resumed(cfg, old(State()), k) && window == Decoded(cfg, old(State()), k)
    {
      window := heard;
      if paused {
        paused := false;
        var cap := SamplesIn(cfg.maxSegment);
        if |window| > cap {
          start := start + (|window| - cap);
          done, previous, carried := 0, [], [];
          window := WindowFrom(k.heardAgain, start);
        }
      }
    }

    method Tick(k: Look) returns (event: Option<Partial>)
      modifies this
      ensures State() == Ticked(cfg, old(State()), k)
      ensures event == Published(cfg, old(State()), k)
    {
      if !k.recording {
        return None;
      }
      if k.busy {
        paused := true;
        return None;
      }
      if k.session.None? || !k.due {
        return None;
      }
      var window := WindowFrom(k.heard, start);
      if window == [] {
        return None;
      }
      window := Resume(k, window);
      if window == [] || k.text.None? {
        return None;
      }
      var words := SplitWords(k.text.value);
      var oldCommitted, oldTail := committed, tail;
      Absorb(words, |window|, k.silence);
      if committed == oldCommitted && tail == oldTail {
        return None;
      }
      return Some(Partial(k.session.value, committed, tail));
    }
  }
}

/** Newline framing of a byte stream (the inner loop of IpcServer::poll_once in
    src/domains/ipc/ipc_server.cpp). */
module Framing {

  /** Position of the first newline, or the length if there is none. */
  function Newline(s: string): (n: nat)
    ensures n <= |s| && '\n' !in s[..n] && (n < |s| ==> s[n] == '\n')
  {
    if s == "" || s[0] == '\n' then 0
    else
      var n := 1 + Newline(s[1..]);
      assert s[..n] == [s[0]] + s[1..][..n - 1];
      n
  }

  lemma {:induction false} NewlineIs(s: string, n: nat)
    requires n <= |s| && '\n' !in s[..n] && (n < |s| ==> s[n] == '\n')
    ensures Newline(s) == n
  {
    if n > 0 {
      assert s[0] in s[..n] && s[1..][..n - 1] == s[..n][1..];
      NewlineIs(s[1..], n - 1);
    }
  }

  /** The newline-terminated pieces of a stream. */
  function Lines(s: string): seq<string>
    decreases |s|
  {
    if Newline(s) == |s| then [] else [s[..Newline(s)]] + Lines(s[Newline(s) + 1..])
  }

  /** What follows the last newline. */
  function Rest(s: string): string
    decreases |s|
  {
    if Newline(s) == |s| then s else Rest(s[Newline(s) + 1..])
  }

  /** One turn of the framing loop. */
  lemma {:induction false} CutOne(s: string)
    requires Newline(s) < |s|
    ensures Lines(s) == [s[..Newline(s)]] + Lines(s[Newline(s) + 1..])
    ensures Rest(s) == Rest(s[Newline(s) + 1..])
  {
  }

  /** Lines written back to back, each with its newline. */
  function Unlines(lines: seq<string>): string {
    if lines == [] then "" else lines[0] + "\n" + Unlines(lines[1..])
  }

  lemma UnlinesCons(line: string, lines: seq<string>, rest: string)
    ensures Unlines([line] + lines) + rest == line + "\n" + (Unlines(lines) + rest)
  {
    assert ([line] + lines)[1..] == lines;
  }

  lemma Recomposed(s: string, n: nat)
    requires n < |s| && s[n] == '\n'
    ensures s[..n] + "\n" + s[n + 1..] == s
  {
    assert s == s[..n] + [s[n]] + s[n + 1..];
  }

  /** Framing loses nothing and invents nothing: the stream is its lines, each with
      a newline, followed by the newline-free rest. */
  lemma {:induction false} StreamIsLinesAndRest(s: string)
    ensures Unlines(Lines(s)) + Rest(s) == s
    decreases |s|
  {
    var n := Newline(s);
    if n < |s| {
      var t := s[n + 1..];
      assert Lines(s) == [s[..n]] + Lines(t) && Rest(s) == Rest(t) by {
        CutOne(s);
      }
      StreamIsLinesAndRest(t);
      UnlinesCons(s[..n], Lines(t), Rest(t));
      Recomposed(s, n);
    }
  }

  /** Lines and rest hold no newline, and are shorter than the stream. */
  lemma {:induction false} PiecesAreClean(s: string)
    ensures '\n' !in Rest(s) && |Rest(s)| <= |s|
    ensures forall i :: 0 <= i < |Lines(s)| ==> '\n' !in Lines(s)[i] && |Lines(s)[i]| < |s|
    decreases |s|
  {
    var n := Newline(s);
    if n < |s| {
      PiecesAreClean(s[n + 1..]);
    } else {
      assert s[..n] == s;
    }
  }

  /** And it is the only such division. */
  lemma {:induction false} DivisionIsUnique(lines: seq<string>, rest: string)
    requires '\n' !in rest && forall i :: 0 <= i < |lines| ==> '\n' !in lines[i]
    ensures Lines(Unlines(lines) + rest) == lines && Rest(Unlines(lines) + rest) == rest
  {
    var s := Unlines(lines) + rest;
    if lines == [] {
      assert s == rest && s[..|s|] == s;
      NewlineIs(s, |s|);
    } else {
      var n := |lines[0]|;
      var tail := Unlines(lines[1..]) + rest;
      assert s == lines[0] + "\n" + tail;
      assert s[..n] == lines[0] && s[n] == '\n' && s[n + 1..] == tail;
      NewlineIs(s, n);
      DivisionIsUnique(lines[1..], rest);
    }
  }

  /** Reading in two steps: the second starts from what the first left over. */
  lemma {:induction false} FramingResumes(a: string, b: string)
    ensures Lines(a + b) == Lines(a) + Lines(Rest(a) + b)
    ensures Rest(a + b) == Rest(Rest(a) + b)
    decreases |a|
  {
    var n := Newline(a);
    if n < |a| {
      var s := a + b;
      assert s[..n] == a[..n] && s[n] == '\n' && s[n + 1..] == a[n + 1..] + b;
      NewlineIs(s, n);
      FramingResumes(a[n + 1..], b);
    }
  }

  /** Feeding chunks one at a time: the lines delivered and the buffer kept. */
  function Fed(chunks: seq<string>): (seq<string>, string) {
    if chunks == [] then ([], "")
    else
      var (lines, buffer) := Fed(chunks[..|chunks| - 1]);
      var s := buffer + chunks[|chunks| - 1];
      (lines + Lines(s), Rest(s))
  }

  function Concatenated(chunks: seq<string>): string {
    if chunks == [] then "" else Concatenated(chunks[..|chunks| - 1]) + chunks[|chunks| - 1]
  }

  /** Framing does not depend on how the stream was cut into reads. */
  lemma {:induction false} ChunkingIsIrrelevant(chunks: seq<string>)
    ensures Fed(chunks) == (Lines(Concatenated(chunks)), Rest(Concatenated(chunks)))
  {
    if chunks != [] {
      var front, last := chunks[..|chunks| - 1], chunks[|chunks| - 1];
      ChunkingIsIrrelevant(front);
      FramingResumes(Concatenated(front), last);
    } else {
      assert Newline("") == 0;
    }
  }
}

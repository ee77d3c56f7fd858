/** Words and texts of the live preview (the helpers at the top of
    src/domains/session/live_transcriber.cpp). Characters stand for bytes; white
    space and punctuation are those of the "C" locale. */
module Words {

  predicate IsSpace(c: char) {
    c == ' ' || '\U{09}' <= c <= '\U{0D}'
  }

  predicate IsPunct(c: char) {
    '!' <= c <= '/' || ':' <= c <= '@' || '[' <= c <= '`' || '{' <= c <= '~'
  }

  /** A recognised word: not empty, no white space. */
  predicate IsWord(w: string) {
    w != "" && forall i :: 0 <= i < |w| ==> !IsSpace(w[i])
  }

  predicate AllWords(ws: seq<string>) {
    forall i :: 0 <= i < |ws| ==> IsWord(ws[i])
  }

  // ----- Splitting -----

  /** Length of the longest prefix without white space. */
  function WordEnd(t: string): (n: nat)
    ensures n <= |t| && (forall i :: 0 <= i < n ==> !IsSpace(t[i])) && (n < |t| ==> IsSpace(t[n]))
  {
    if t == "" || IsSpace(t[0]) then 0 else 1 + WordEnd(t[1..])
  }

  lemma {:induction false} WordEndIs(t: string, n: nat)
    requires n <= |t| && (forall i :: 0 <= i < n ==> !IsSpace(t[i])) && (n < |t| ==> IsSpace(t[n]))
    ensures WordEnd(t) == n
  {
    if n > 0 {
      WordEndIs(t[1..], n - 1);
    }
  }

  /** The maximal white-space-free pieces of `t`. */
  function Split(t: string): (ws: seq<string>)
    ensures AllWords(ws)
    decreases |t|
  {
    if t == "" then []
    else if IsSpace(t[0]) then Split(t[1..])
    else [t[..WordEnd(t)]] + Split(t[WordEnd(t)..])
  }

  lemma SplitHead(t: string, n: nat)
    requires 0 < n <= |t| && (forall i :: 0 <= i < n ==> !IsSpace(t[i])) && (n < |t| ==> IsSpace(t[n]))
    ensures Split(t) == [t[..n]] + Split(t[n..])
  {
    WordEndIs(t, n);
  }

  lemma SplitTakesWord(text: string, i: nat, j: nat)
    requires i < j <= |text| && (forall k :: i <= k < j ==> !IsSpace(text[k])) && (j < |text| ==> IsSpace(text[j]))
    ensures Split(text[i..]) == [text[i..j]] + Split(text[j..])
  {
    var t := text[i..];
    SplitHead(t, j - i);
    assert t[..j - i] == text[i..j] && t[j - i..] == text[j..];
  }

  /** Extracts the word that starts at `i`, up to white space or the end. */
  method NextWord(text: string, i: nat) returns (j: nat)
    requires i < |text| && !IsSpace(text[i])
    ensures i < j <= |text| && Split(text[i..]) == [text[i..j]] + Split(text[j..])
  {
    j := i + 1;
    while j < |text| && !IsSpace(text[j])
      invariant i < j <= |text|
      invariant forall k :: i <= k < j ==> !IsSpace(text[k])
    {
      j := j + 1;
    }
    SplitTakesWord(text, i, j);
  }

  /** split_words(): stream extraction, one word at a time. */
  method SplitWords(text: string) returns (words: seq<string>)
    ensures words == Split(text)
  {
    words := [];
    var i := 0;
    while i < |text|
      invariant i <= |text| && Split(text) == words + Split(text[i..])
    {
      if IsSpace(text[i]) {
        assert text[i..][1..] == text[i + 1..];
        i := i + 1;
      } else {
        var j := NextWord(text, i);
        words := words + [text[i..j]];
        i := j;
      }
    }
  }

  // ----- Joining -----

  function Joined(text: string, w: string): string {
    (if text != "" then text + " " else "") + w
  }

  function Join(ws: seq<string>): string {
    if ws == [] then "" else Joined(Join(ws[..|ws| - 1]), ws[|ws| - 1])
  }

  /** words[from, to), cut off at the end of `words`. */
  function Slice(words: seq<string>, from: nat, to: nat): seq<string> {
    var end := if to < |words| then to else |words|;
    if from < end then words[from..end] else []
  }

  method JoinWords(words: seq<string>, from: nat, to: nat) returns (text: string)
    ensures text == Join(Slice(words, from, to))
  {
    text := "";
    var i := from;
    while i < to && i < |words|
      invariant from <= i && (i <= to || i == from) && (i <= |words| || i == from)
      invariant text == Join(Slice(words, from, i))
    {
      assert Slice(words, from, i + 1) == Slice(words, from, i) + [words[i]];
      if text != "" {
        text := text + " ";
      }
      text := text + words[i];
      i := i + 1;
    }
    assert Slice(words, from, i) == Slice(words, from, to);
  }

  lemma SplitBothHeads(a: string, c: char, b: string, n: nat)
    requires IsSpace(c)
    requires 0 < n <= |a| && (forall i :: 0 <= i < n ==> !IsSpace(a[i])) && (n < |a| ==> IsSpace(a[n]))
    ensures Split(a) == [a[..n]] + Split(a[n..])
    ensures Split(a + [c] + b) == [a[..n]] + Split(a[n..] + [c] + b)
  {
    SplitHead(a, n);
    var t := a + [c] + b;
    assert forall i :: 0 <= i < |a| ==> t[i] == a[i];
    assert t[|a|] == c;
    SplitHead(t, n);
    assert t[n..] == a[n..] + [c] + b && t[..n] == a[..n];
  }

  lemma {:induction false} SplitAtWhite(a: string, c: char, b: string)
    requires IsSpace(c)
    ensures Split(a + [c] + b) == Split(a) + Split(b)
    decreases |a|
  {
    var t := a + [c] + b;
    if a == "" {
      assert t[0] == c && t[1..] == b;
    } else if IsSpace(a[0]) {
      assert t[1..] == a[1..] + [c] + b;
      SplitAtWhite(a[1..], c, b);
    } else {
      var n := WordEnd(a);
      SplitBothHeads(a, c, b, n);
      SplitAtWhite(a[n..], c, b);
    }
  }

  /** Each of the six white-space characters of the "C" locale separates words. */
  lemma WhiteSpaceSeparates(a: string, c: char, b: string)
    requires c in {' ', '\t', '\n', '\U{0B}', '\U{0C}', '\r'}
    ensures Split(a + [c] + b) == Split(a) + Split(b)
  {
    SplitAtWhite(a, c, b);
  }

  /** Splitting at a space. */
  lemma SplitAtSpace(a: string, b: string)
    ensures Split(a + " " + b) == Split(a) + Split(b)
  {
    SplitAtWhite(a, ' ', b);
  }

  lemma SplitOneWord(w: string)
    requires IsWord(w)
    ensures Split(w) == [w]
  {
    WordEndIs(w, |w|);
    assert w[..|w|] == w && w[|w|..] == "";
  }

  /** Joining words and splitting again gives the words back. */
  lemma {:induction false} SplitJoin(ws: seq<string>)
    requires AllWords(ws)
    ensures Split(Join(ws)) == ws
    ensures Join(ws) == "" <==> ws == []
  {
    if ws != [] {
      var front, last := ws[..|ws| - 1], ws[|ws| - 1];
      assert ws == front + [last];
      SplitJoin(front);
      SplitOneWord(last);
      if front == [] {
        assert Join(ws) == "" + last == last;
      } else {
        SplitAtSpace(Join(front), last);
        assert Join(ws) == Join(front) + " " + last;
      }
    }
  }

  lemma JoinMore(ws: seq<string>, w: string)
    requires AllWords(ws)
    ensures Join(ws + [w]) == if ws == [] then w else Join(ws) + " " + w
  {
    assert (ws + [w])[..|ws|] == ws;
    SplitJoin(ws);
  }

  /** Appending a joined slice to a joined text. */
  lemma {:induction false} JoinConcat(a: seq<string>, b: seq<string>)
    requires AllWords(a) && AllWords(b)
    ensures Join(a + b) == if b == [] then Join(a) else if a == [] then Join(b) else Join(a) + " " + Join(b)
    decreases |b|
  {
    if b == [] {
      assert a + b == a;
    } else if a == [] {
      assert a + b == b;
    } else {
      var front, last := b[..|b| - 1], b[|b| - 1];
      assert b == front + [last] && a + b == (a + front) + [last];
      JoinConcat(a, front);
      JoinMore(a + front, last);
      JoinMore(front, last);
      if front == [] {
        assert a + front == a;
      } else {
        assert Join(a) + " " + Join(front) + " " + last == Join(a) + " " + (Join(front) + " " + last);
      }
    }
  }

  // ----- Matching -----

  /** The word without its trailing punctuation. */
  function Stripped(w: string): (core: string)
    ensures core <= w && (core != "" ==> !IsPunct(core[|core| - 1]))
    ensures forall i :: |core| <= i < |w| ==> IsPunct(w[i])
  {
    if w != "" && IsPunct(w[|w| - 1]) then Stripped(w[..|w| - 1]) else w
  }

  method StripTrailingPunctuation(word: string) returns (core: string)
    ensures core == Stripped(word)
  {
    var end := |word|;
    assert word[..end] == word;
    while end > 0 && IsPunct(word[end - 1])
      invariant 0 <= end <= |word| && Stripped(word[..end]) == Stripped(word)
    {
      assert word[..end][..end - 1] == word[..end - 1];
      end := end - 1;
    }
    core := word[..end];
  }

  predicate Matches(a: string, b: string) {
    Stripped(a) == Stripped(b)
  }

  lemma {:induction false} StrippedMore(w: string, p: string)
    requires forall i :: 0 <= i < |p| ==> IsPunct(p[i])
    ensures Stripped(w + p) == Stripped(w)
    decreases |p|
  {
    if p == "" {
      assert w + p == w;
    } else {
      var t, front := w + p, p[..|p| - 1];
      assert t[..|t| - 1] == w + front && t[|t| - 1] == p[|p| - 1];
      StrippedMore(w, front);
    }
  }

  /** Words that differ only in trailing punctuation, "de" and "de...", match. */
  lemma PunctuationIsIgnored(w: string, p: string)
    requires forall i :: 0 <= i < |p| ==>
               || 33 <= p[i] as int <= 47 || 58 <= p[i] as int <= 64
               || 91 <= p[i] as int <= 96 || 123 <= p[i] as int <= 126
    ensures Matches(w, w + p)
  {
    StrippedMore(w, p);
  }

  /** Words that match differ in nothing else. */
  lemma MatchingWordsShareCore(a: string, b: string) returns (core: string)
    requires Matches(a, b)
    ensures core <= a && core <= b
    ensures forall i :: |core| <= i < |a| ==> IsPunct(a[i])
    ensures forall i :: |core| <= i < |b| ==> IsPunct(b[i])
  {
    core := Stripped(a);
  }

  /** How many leading words agree. */
  function CommonPrefix(a: seq<string>, b: seq<string>): (n: nat)
    ensures n <= |a| && n <= |b|
    ensures forall i :: 0 <= i < n ==> Matches(a[i], b[i])
    ensures n < |a| && n < |b| ==> !Matches(a[n], b[n])
  {
    if a == [] || b == [] || !Matches(a[0], b[0]) then 0 else 1 + CommonPrefix(a[1..], b[1..])
  }

  lemma {:induction false} CommonPrefixIs(a: seq<string>, b: seq<string>, n: nat)
    requires n <= |a| && n <= |b| && (forall i :: 0 <= i < n ==> Matches(a[i], b[i]))
    requires n < |a| && n < |b| ==> !Matches(a[n], b[n])
    ensures CommonPrefix(a, b) == n
  {
    if n > 0 {
      CommonPrefixIs(a[1..], b[1..], n - 1);
    }
  }

  method CommonPrefixLength(a: seq<string>, b: seq<string>) returns (i: nat)
    ensures i == CommonPrefix(a, b)
  {
    i := 0;
    while i < |a| && i < |b| && Matches(a[i], b[i])
      invariant i <= |a| && i <= |b|
      invariant forall k :: 0 <= k < i ==> Matches(a[k], b[k])
    {
      i := i + 1;
    }
    CommonPrefixIs(a, b, i);
  }

  /** The last k words of `before` reappear as the first k words of `after`. */
  predicate OverlapAt(before: seq<string>, after: seq<string>, k: nat) {
    && k <= |before| && k <= |after|
    && forall i :: 0 <= i < k ==> Matches(before[|before| - k + i], after[i])
  }

  /** The greatest overlap not longer than `k`. */
  function OverlapUpTo(before: seq<string>, after: seq<string>, k: nat): (n: nat)
    ensures n <= k && OverlapAt(before, after, n)
    ensures forall j :: n < j <= k ==> !OverlapAt(before, after, j)
  {
    if OverlapAt(before, after, k) then k
    else assert k > 0; OverlapUpTo(before, after, k - 1)
  }

  function Overlap(before: seq<string>, after: seq<string>): (n: nat)
    ensures OverlapAt(before, after, n)
    ensures forall j :: n < j ==> !OverlapAt(before, after, j)
  {
    OverlapUpTo(before, after, if |before| < |after| then |before| else |after|)
  }

  method OverlapPrefixLength(before: seq<string>, after: seq<string>) returns (k: nat)
    ensures k == Overlap(before, after)
  {
    k := if |before| < |after| then |before| else |after|;
    while k > 0
      invariant k <= |before| && k <= |after|
      invariant forall j :: k < j ==> !OverlapAt(before, after, j)
    {
      var matches := true;
      var i := 0;
      while i < k && matches
        invariant i <= k
        invariant matches ==> forall m :: 0 <= m < i ==> Matches(before[|before| - k + m], after[m])
        invariant !matches ==> !OverlapAt(before, after, k)
      {
        if !Matches(before[|before| - k + i], after[i]) {
          matches := false;
        }
        i := i + 1;
      }
      if matches {
        assert OverlapAt(before, after, k);
        return;
      }
      k := k - 1;
    }
    assert OverlapAt(before, after, 0);
  }
}

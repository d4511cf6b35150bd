/** Splitting source text into whitespace-separated words, as Rust's
    `str::split_whitespace` does, and the way the lexer rebuilds a block body
    as text (each word followed by one space) before lexing it again. */
module Words {

  /** The characters with the Unicode White_Space property. */
  predicate IsWhitespace(c: char)
  {
    var n := c as int;
    (0x09 <= n <= 0x0D) || n == 0x20 || n == 0x85 || n == 0xA0 || n == 0x1680 ||
    (0x2000 <= n <= 0x200A) || n == 0x2028 || n == 0x2029 || n == 0x202F ||
    n == 0x205F || n == 0x3000
  }

  /** A string without whitespace. */
  predicate Solid(w: string)
  {
    forall i :: 0 <= i < |w| ==> !IsWhitespace(w[i])
  }

  /** What `split_whitespace` can produce: non-empty, without whitespace. */
  predicate IsWord(w: string)
  {
    |w| > 0 && Solid(w)
  }

  predicate AllWords(ws: seq<string>)
  {
    forall i :: 0 <= i < |ws| ==> IsWord(ws[i])
  }

  /** Length of the longest whitespace-free prefix of s. */
  function WordLength(s: string): (n: nat)
    ensures n <= |s| && Solid(s[..n])
    ensures n < |s| ==> IsWhitespace(s[n])
  {
    if s == [] || IsWhitespace(s[0]) then 0
    else
      var n := 1 + WordLength(s[1..]);
      assert s[..n] == [s[0]] + s[1..][..n - 1];
      n
  }

  /** `split_whitespace`: the maximal runs of non-whitespace characters, in
      order. */
  function SplitWhitespace(s: string): (ws: seq<string>)
    ensures AllWords(ws)
    decreases |s|
  {
    if s == [] then []
    else if IsWhitespace(s[0]) then SplitWhitespace(s[1..])
    else
      var n := WordLength(s);
      [s[..n]] + SplitWhitespace(s[n..])
  }

  /** A body as the lexer rebuilds it: every word followed by one space. */
  function JoinSpaced(ws: seq<string>): string
  {
    if ws == [] then "" else ws[0] + " " + JoinSpaced(ws[1..])
  }

  /** The longest whitespace-free prefix of a solid word followed by
      whitespace (or nothing) is that word. */
  lemma {:induction false} WordLengthOfSolid(w: string, rest: string)
    requires Solid(w)
    requires rest == [] || IsWhitespace(rest[0])
    ensures WordLength(w + rest) == |w|
    decreases |w|
  {
    if w != [] {
      assert (w + rest)[1..] == w[1..] + rest;
      WordLengthOfSolid(w[1..], rest);
    } else {
      assert w + rest == rest;
    }
  }

  /** Splitting a single word gives that word back. */
  lemma SplitWord(w: string)
    requires IsWord(w)
    ensures SplitWhitespace(w) == [w]
  {
    WordLengthOfSolid(w, "");
    assert w + "" == w;
    assert w[|w|..] == "";
  }

  /** Joining words with spaces and splitting the text again gives the same
      words, so a body rebuilt as text lexes like the words it came from. */
  lemma {:induction false} SplitJoined(ws: seq<string>)
    requires AllWords(ws)
    ensures SplitWhitespace(JoinSpaced(ws)) == ws
    decreases |ws|
  {
    if ws != [] {
      var w, tail := ws[0], JoinSpaced(ws[1..]);
      var s := JoinSpaced(ws);
      assert s == w + (" " + tail);
      WordLengthOfSolid(w, " " + tail);
      assert s[..|w|] == w;
      assert s[|w|..] == " " + tail;
      assert (" " + tail)[1..] == tail;
      assert IsWhitespace(' ');
      SplitJoined(ws[1..]);
    }
  }

  /** Appending one word to the joined text. */
  lemma {:induction false} JoinSpacedSnoc(ws: seq<string>, w: string)
    ensures JoinSpaced(ws + [w]) == JoinSpaced(ws) + w + " "
    decreases |ws|
  {
    if ws == [] {
      assert ws + [w] == [w];
    } else {
      assert (ws + [w])[1..] == ws[1..] + [w];
      JoinSpacedSnoc(ws[1..], w);
    }
  }
}

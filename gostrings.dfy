/**
 * The parts of Go's `strings`, `unicode` and `bufio` packages that the
 * watcher relies on: `unicode.IsSpace`, `strings.Fields`, `strings.Join`, `strings.HasPrefix`,
 * `strings.TrimSpace` and the line splitting of a `bufio.Scanner`
 * (`bufio.ScanLines`). Strings are sequences of code points.
 */
module GoStrings {

  /** `unicode.IsSpace`: the Latin-1 spaces and the Unicode White_Space set. */
  predicate IsSpace(c: char) {
    var n := c as int;
    n == 0x20 || 0x09 <= n <= 0x0D || n == 0x85 || n == 0xA0 || n == 0x1680
    || 0x2000 <= n <= 0x200A || n == 0x2028 || n == 0x2029 || n == 0x202F
    || n == 0x205F || n == 0x3000
  }

  predicate AllSpace(s: string) {
    forall i :: 0 <= i < |s| ==> IsSpace(s[i])
  }

  /** A field as `strings.Fields` returns it: non-empty and free of spaces. */
  predicate IsWord(w: string) {
    |w| > 0 && forall i :: 0 <= i < |w| ==> !IsSpace(w[i])
  }

  predicate AllWords(fs: seq<string>) {
    forall i :: 0 <= i < |fs| ==> IsWord(fs[i])
  }

  /** Length of the longest space-free prefix of `s`. */
  function TokenLen(s: string): (n: nat)
    ensures n <= |s|
    ensures forall i :: 0 <= i < n ==> !IsSpace(s[i])
    ensures n < |s| ==> IsSpace(s[n])
  {
    if s == [] || IsSpace(s[0]) then 0 else 1 + TokenLen(s[1..])
  }

  /** `strings.Fields`: the maximal runs of non-space characters, in order. */
  function Fields(s: string): (fs: seq<string>)
    ensures AllWords(fs)
    decreases |s|
  {
    if s == [] then []
    else if IsSpace(s[0]) then Fields(s[1..])
    else
      var n := TokenLen(s);
      [s[..n]] + Fields(s[n..])
  }

  /** `strings.Join`: the parts in order, `sep` between each two; it starts with the first part. */
  function Join(fs: seq<string>, sep: string): (r: string)
    ensures fs == [] ==> r == ""
    ensures fs != [] ==> |fs[0]| <= |r| && r[..|fs[0]|] == fs[0]
  {
    if |fs| == 0 then ""
    else if |fs| == 1 then fs[0]
    else fs[0] + sep + Join(fs[1..], sep)
  }

  /** `strings.HasPrefix`: `s` is `prefix` followed by something. */
  predicate HasPrefix(s: string, prefix: string)
    ensures HasPrefix(s, prefix) <==> exists t :: s == prefix + t
  {
    if |prefix| <= |s| && s[..|prefix|] == prefix then
      assert s == prefix + s[|prefix|..];
      true
    else
      false
  }

  /** How many white-space characters `s` starts with. */
  function LeadingSpaces(s: string): (n: nat)
    ensures n <= |s|
    ensures forall i :: 0 <= i < n ==> IsSpace(s[i])
    ensures n < |s| ==> !IsSpace(s[n])
  {
    if s == [] || !IsSpace(s[0]) then 0 else 1 + LeadingSpaces(s[1..])
  }

  /** How many white-space characters `s` ends with. */
  function TrailingSpaces(s: string): (n: nat)
    ensures n <= |s|
    ensures forall i :: |s| - n <= i < |s| ==> IsSpace(s[i])
    ensures n < |s| ==> !IsSpace(s[|s| - n - 1])
  {
    if s == [] || !IsSpace(s[|s| - 1]) then 0 else 1 + TrailingSpaces(s[..|s| - 1])
  }

  /** `strings.TrimSpace`, first half: drop the leading spaces. */
  function TrimLeft(s: string): (r: string)
    ensures |r| <= |s| && r == s[|s| - |r|..] && AllSpace(s[..|s| - |r|])
    ensures r == [] || !IsSpace(r[0])
  {
    s[LeadingSpaces(s)..]
  }

  /** `strings.TrimSpace`, second half: drop the trailing spaces. */
  function TrimRight(s: string): (r: string)
    ensures |r| <= |s| && r == s[..|r|] && AllSpace(s[|r|..])
    ensures r == [] || !IsSpace(r[|r| - 1])
  {
    s[..|s| - TrailingSpaces(s)]
  }

  /** `strings.TrimSpace`: a substring of `s` that neither starts nor ends with a space. */
  function TrimSpace(s: string): (t: string)
    ensures t == [] || (!IsSpace(t[0]) && !IsSpace(t[|t| - 1]))
  {
    TrimRight(TrimLeft(s))
  }

  // ---------------------------------------------------------------------------
  // Fields and Join

  lemma {:induction false} TokenLenOfWord(w: string, u: string)
    requires IsWord(w) && (u == [] || IsSpace(u[0]))
    ensures TokenLen(w + u) == |w|
    decreases |w|
  {
    if |w| > 1 {
      assert (w + u)[1..] == w[1..] + u;
      TokenLenOfWord(w[1..], u);
    } else {
      assert (w + u)[1..] == u;
    }
  }

  /** A word followed by a space (or by nothing) is split off as one field. */
  lemma FieldsOfWordThen(w: string, u: string)
    requires IsWord(w) && (u == [] || IsSpace(u[0]))
    ensures Fields(w + u) == [w] + Fields(u)
  {
    TokenLenOfWord(w, u);
    assert (w + u)[..|w|] == w;
    assert (w + u)[|w|..] == u;
  }

  /** Leading spaces never produce fields. */
  lemma {:induction false} FieldsAfterSpaces(w: string, s: string)
    requires AllSpace(w)
    ensures Fields(w + s) == Fields(s)
    decreases |w|
  {
    if w != [] {
      assert (w + s)[0] == w[0];
      assert (w + s)[1..] == w[1..] + s;
      FieldsAfterSpaces(w[1..], s);
    } else {
      assert w + s == s;
    }
  }

  /**
   * Joining words with single spaces and splitting them again gives the
   * words back: `strings.Fields` inverts `strings.Join(_, " ")`.
   */
  lemma {:induction false} FieldsOfJoin(fs: seq<string>)
    requires AllWords(fs)
    ensures Fields(Join(fs, " ")) == fs
  {
    if |fs| == 0 {
    } else if |fs| == 1 {
      FieldsOfWordThen(fs[0], "");
      assert fs[0] + "" == fs[0];
    } else {
      var rest := Join(fs[1..], " ");
      FieldsOfJoin(fs[1..]);
      assert Join(fs, " ") == fs[0] + (" " + rest);
      FieldsOfWordSpace(fs[0], rest);
      assert fs == [fs[0]] + fs[1..];
    }
  }

  /** A word, one space, then anything: the word is the first field. */
  lemma FieldsOfWordSpace(w: string, rest: string)
    requires IsWord(w)
    ensures Fields(w + (" " + rest)) == [w] + Fields(rest)
  {
    FieldsOfWordThen(w, " " + rest);
    FieldsAfterSpaces(" ", rest);
  }

  /** Re-joining the fields of any string is a normal form: it collapses every run of spaces. */
  lemma NormalizeIdempotent(s: string)
    ensures Fields(Join(Fields(s), " ")) == Fields(s)
  {
    FieldsOfJoin(Fields(s));
  }

  /** A string of spaces only has no fields; in particular the empty string. */
  lemma {:induction false} FieldsOfSpaces(w: string)
    requires AllSpace(w)
    ensures Fields(w) == []
  {
    FieldsAfterSpaces(w, "");
    assert w + "" == w;
  }

  /** The words survive in a joined string: a join of non-empty words is never blank. */
  lemma JoinOfWordsNotBlank(fs: seq<string>)
    requires AllWords(fs) && |fs| > 0
    ensures Join(fs, " ") != ""
  {
    FieldsOfJoin(fs);
  }

  // ---------------------------------------------------------------------------
  // TrimSpace

  lemma TrimLeftSpaces(w: string, t: string)
    requires AllSpace(w) && (t == [] || !IsSpace(t[0]))
    ensures TrimLeft(w + t) == t
  {
    var s := w + t;
    assert LeadingSpaces(s) == |w|;
    assert s[|w|..] == t;
  }

  lemma TrimRightSpaces(t: string, w: string)
    requires AllSpace(w) && (t == [] || !IsSpace(t[|t| - 1]))
    ensures TrimRight(t + w) == t
  {
    var s := t + w;
    assert TrailingSpaces(s) == |w|;
    assert s[..|t|] == t;
  }

  /** `strings.TrimSpace` removes exactly the surrounding padding. */
  lemma TrimSpacePadded(w1: string, t: string, w2: string)
    requires AllSpace(w1) && AllSpace(w2)
    requires t == [] || (!IsSpace(t[0]) && !IsSpace(t[|t| - 1]))
    ensures TrimSpace(w1 + t + w2) == t
  {
    if t == [] {
      assert w1 + t + w2 == (w1 + w2) + "";
      TrimLeftSpaces(w1 + w2, "");
    } else {
      assert w1 + t + w2 == w1 + (t + w2);
      TrimLeftSpaces(w1, t + w2);
      TrimRightSpaces(t, w2);
    }
  }

  // ---------------------------------------------------------------------------
  // bufio.ScanLines

  /** Index of the first '\n' in `s`, or |s| if there is none. */
  function NewlineAt(s: string): (i: nat)
    ensures i <= |s|
    ensures forall k :: 0 <= k < i ==> s[k] != '\n'
    ensures i < |s| ==> s[i] == '\n'
  {
    if s == [] || s[0] == '\n' then 0 else 1 + NewlineAt(s[1..])
  }

  /** Drops one trailing carriage return, as `bufio.ScanLines` does. */
  function DropCR(line: string): string {
    if |line| > 0 && line[|line| - 1] == '\r' then line[..|line| - 1] else line
  }

  /**
   * The lines a `bufio.Scanner` with the default `ScanLines` split function
   * yields: text up to each '\n' (without it, and without one trailing
   * '\r'); a last line that has no '\n' is yielded when it is non-empty.
   */
  function SplitLines(s: string): (ls: seq<string>)
    ensures ls == [] <==> s == []
    ensures forall i, k :: 0 <= i < |ls| && 0 <= k < |ls[i]| ==> ls[i][k] != '\n'
    decreases |s|
  {
    if s == [] then []
    else
      var i := NewlineAt(s);
      if i == |s| then [DropCR(s)] else [DropCR(s[..i])] + SplitLines(s[i + 1..])
  }

  /** A line that `bufio.ScanLines` can return unchanged. */
  predicate IsLine(l: string) {
    (forall k :: 0 <= k < |l| ==> l[k] != '\n') && (|l| == 0 || l[|l| - 1] != '\r')
  }

  /** The text a producer writes for the given lines: each one terminated by '\n'. */
  function Terminated(ls: seq<string>): string {
    if ls == [] then "" else ls[0] + "\n" + Terminated(ls[1..])
  }

  /** Scanning newline-terminated output gives back exactly the lines written, in order. */
  lemma {:induction false} SplitLinesOfTerminated(ls: seq<string>)
    requires forall i :: 0 <= i < |ls| ==> IsLine(ls[i])
    ensures SplitLines(Terminated(ls)) == ls
  {
    if ls != [] {
      var s := Terminated(ls);
      var rest := Terminated(ls[1..]);
      assert s == ls[0] + ("\n" + rest);
      NewlineAfter(ls[0], rest);
      assert s[..|ls[0]|] == ls[0];
      assert s[|ls[0]| + 1..] == rest;
      SplitLinesOfTerminated(ls[1..]);
    }
  }

  lemma {:induction false} NewlineAfter(l: string, rest: string)
    requires IsLine(l)
    ensures NewlineAt(l + ("\n" + rest)) == |l|
    decreases |l|
  {
    if l != [] {
      assert (l + ("\n" + rest))[1..] == l[1..] + ("\n" + rest);
      NewlineAfter(l[1..], rest);
    }
  }
}

/**
 * How a POSIX shell splits a simple command into words: runs of blanks
 * (space, tab) separate words and never belong to one. This is the whole
 * story only for text made of characters the shell gives no meaning to
 * (`SafeText`): newlines, control operators, redirections, comments,
 * quoting, globbing and expansion are not part of this model.
 */
module ShellWords {

  predicate IsBlank(c: char) {
    c == ' ' || c == '\t'
  }

  predicate NoBlank(s: string) {
    forall i :: 0 <= i < |s| ==> !IsBlank(s[i])
  }

  predicate EndsBlank(s: string) {
    s != [] && IsBlank(s[|s| - 1])
  }

  /**
   * A character the shell treats as ordinary in every position of a word:
   * letters, digits and `/ . _ - + , : @ %`.
   */
  predicate IsSafeChar(c: char) {
    ('a' <= c <= 'z') || ('A' <= c <= 'Z') || ('0' <= c <= '9') || c in "/._-+,:@%"
  }

  /** Text the shell reads literally, character for character. */
  predicate SafeText(s: string) {
    forall i :: 0 <= i < |s| ==> IsSafeChar(s[i])
  }

  /** Safe text contains no blank, so blank-splitting keeps it whole. */
  lemma SafeTextHasNoBlank(s: string)
    requires SafeText(s)
    ensures NoBlank(s)
  {
  }

  /** A string the shell passes through as exactly one word. */
  predicate IsWord(s: string) {
    s != [] && NoBlank(s)
  }

  /** The pieces of `s` between single blanks, empty pieces included. */
  function Fields(s: string): (r: seq<string>)
    ensures |r| >= 1
    decreases |s|
  {
    if s == [] then [""]
    else if IsBlank(s[0]) then [""] + Fields(s[1..])
    else
      var t := Fields(s[1..]);
      [[s[0]] + t[0]] + t[1..]
  }

  /** `ws` without its empty strings. */
  function NonEmpty(ws: seq<string>): seq<string>
  {
    if ws == [] then []
    else if ws[0] == [] then NonEmpty(ws[1..])
    else [ws[0]] + NonEmpty(ws[1..])
  }

  /** The argument vector the shell builds from command line `s`. */
  function Words(s: string): seq<string>
  {
    NonEmpty(Fields(s))
  }

  /** The words joined by single spaces. */
  function Unwords(ws: seq<string>): string
  {
    if |ws| == 0 then ""
    else if |ws| == 1 then ws[0]
    else ws[0] + " " + Unwords(ws[1..])
  }

  lemma {:induction false} FieldsSplit(a: string, c: char, b: string)
    requires IsBlank(c)
    ensures Fields(a + [c] + b) == Fields(a) + Fields(b)
    decreases |a|
  {
    if a == [] {
      assert a + [c] + b == [c] + b;
      assert ([c] + b)[1..] == b;
    } else {
      assert (a + [c] + b)[0] == a[0];
      assert (a + [c] + b)[1..] == a[1..] + [c] + b;
      FieldsSplit(a[1..], c, b);
    }
  }

  lemma {:induction false} FieldsOfBlankFree(w: string)
    requires NoBlank(w)
    ensures Fields(w) == [w]
    decreases |w|
  {
    if w != [] {
      FieldsOfBlankFree(w[1..]);
      assert [w[0]] + w[1..] == w;
    }
  }

  lemma {:induction false} NonEmptyAppend(x: seq<string>, y: seq<string>)
    ensures NonEmpty(x + y) == NonEmpty(x) + NonEmpty(y)
  {
    if x != [] {
      assert (x + y)[0] == x[0];
      assert (x + y)[1..] == x[1..] + y;
      NonEmptyAppend(x[1..], y);
    } else {
      assert x + y == y;
    }
  }

  /** A blank between two strings separates their words. */
  lemma WordsSplit(a: string, c: char, b: string)
    requires IsBlank(c)
    ensures Words(a + [c] + b) == Words(a) + Words(b)
  {
    FieldsSplit(a, c, b);
    NonEmptyAppend(Fields(a), Fields(b));
  }

  /**
   * Concatenating two strings concatenates their word lists whenever the
   * seam is a blank: the left part ends in one or the right part starts with one.
   */
  lemma WordsConcat(a: string, b: string)
    requires a == [] || b == [] || IsBlank(a[|a| - 1]) || IsBlank(b[0])
    ensures Words(a + b) == Words(a) + Words(b)
  {
    if a == [] {
      assert a + b == b;
    } else if b == [] {
      assert a + b == a;
    } else if IsBlank(a[|a| - 1]) {
      var a' := a[..|a| - 1];
      assert a == a' + [a[|a| - 1]] + [];
      assert a + b == a' + [a[|a| - 1]] + b;
      WordsSplit(a', a[|a| - 1], []);
      WordsSplit(a', a[|a| - 1], b);
    } else {
      assert b == [] + [b[0]] + b[1..];
      assert a + b == a + [b[0]] + b[1..];
      WordsSplit([], b[0], b[1..]);
      WordsSplit(a, b[0], b[1..]);
    }
  }

  lemma WordsOfWord(w: string)
    requires IsWord(w)
    ensures Words(w) == [w]
  {
    FieldsOfBlankFree(w);
    assert [w][0] == w && [w][1..] == [];
    assert NonEmpty([w]) == [w] + NonEmpty([]);
  }

  lemma WordsOfSpace()
    ensures Words(" ") == []
  {
    WordsSplit([], ' ', []);
  }

  lemma WordThenSpace(w: string)
    requires IsWord(w)
    ensures Words(w + " ") == [w]
  {
    WordsOfWord(w);
    WordsOfSpace();
    WordsConcat(w, " ");
  }

  /** Appending one word and a space to a line that ends in a blank appends the word. */
  lemma WordsAppendWord(x: string, w: string)
    requires x == [] || EndsBlank(x)
    requires IsWord(w)
    ensures Words(x + w + " ") == Words(x) + [w]
  {
    WordsOfWord(w);
    WordsOfSpace();
    WordsConcat(x, w);
    WordsConcat(x + w, " ");
  }

  /** Joining words by spaces and splitting the line again gives the words back. */
  lemma {:induction false} WordsOfUnwords(ws: seq<string>)
    requires forall k :: 0 <= k < |ws| ==> IsWord(ws[k])
    ensures Words(Unwords(ws)) == ws
    decreases |ws|
  {
    if |ws| == 1 {
      WordsOfWord(ws[0]);
    } else if |ws| > 1 {
      WordsOfUnwords(ws[1..]);
      WordsOfWord(ws[0]);
      WordsSplit(ws[0], ' ', Unwords(ws[1..]));
      assert ws[0] + " " + Unwords(ws[1..]) == ws[0] + [' '] + Unwords(ws[1..]);
      assert ws == [ws[0]] + ws[1..];
    }
  }
}

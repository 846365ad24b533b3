/**
 * The string operations the keyword pipeline relies on: ASCII case mapping,
 * substring search (Python's `t in s`) and whitespace splitting (Python's
 * `str.split()` with no argument).
 */
module Text {

  /** Python's `str.isspace()` for one code point. */
  predicate IsSpace(c: char)
  {
    var n := c as int;
    || (0x09 <= n <= 0x0D) || (0x1C <= n <= 0x20)
    || n == 0x85 || n == 0xA0 || n == 0x1680
    || (0x2000 <= n <= 0x200A) || n == 0x2028 || n == 0x2029
    || n == 0x202F || n == 0x205F || n == 0x3000
  }

  predicate NoSpace(w: string)
  {
    forall i :: 0 <= i < |w| ==> !IsSpace(w[i])
  }

  function LowerChar(c: char): char
  {
    if 'A' <= c <= 'Z' then (c as int + 32) as char else c
  }

  function UpperChar(c: char): char
  {
    if 'a' <= c <= 'z' then (c as int - 32) as char else c
  }

  /** `s.lower()`, restricted to the ASCII letters. */
  function Lower(s: string): string
  {
    seq(|s|, i requires 0 <= i < |s| => LowerChar(s[i]))
  }

  /** `s.upper()`, restricted to the ASCII letters. */
  function Upper(s: string): string
  {
    seq(|s|, i requires 0 <= i < |s| => UpperChar(s[i]))
  }

  predicate IsLower(s: string)
  {
    forall i :: 0 <= i < |s| ==> !('A' <= s[i] <= 'Z')
  }

  /** Lower-casing keeps the length, leaves no upper-case letter and is idempotent. */
  lemma LowerProperties(s: string)
    ensures |Lower(s)| == |s|
    ensures IsLower(Lower(s))
    ensures Lower(Lower(s)) == Lower(s)
    ensures IsLower(s) ==> Lower(s) == s
  {
  }

  /** Upper-casing ignores the case of the input. */
  lemma UpperIgnoresCase(s: string)
    ensures Upper(Lower(s)) == Upper(s)
  {
    assert forall i :: 0 <= i < |s| ==> UpperChar(LowerChar(s[i])) == UpperChar(s[i]);
  }

  /** `t` occurs in `s` starting at offset `i`. */
  predicate OccursAt(s: string, t: string, i: int)
  {
    0 <= i && i + |t| <= |s| && s[i..i + |t|] == t
  }

  /** Python's `t in s`: `t` occurs somewhere in `s`. */
  function Contains(s: string, t: string): (r: bool)
    ensures r <==> exists i :: OccursAt(s, t, i)
    decreases |s|
  {
    if |t| > |s| then false
    else if s[..|t|] == t then assert OccursAt(s, t, 0); true
    else
      OccursShift(s, t);
      Contains(s[1..], t)
  }

  /** Without a match at offset 0, the matches of `t` in `s` are those in `s[1..]`, shifted by one. */
  lemma OccursShift(s: string, t: string)
    requires |t| <= |s| && s[..|t|] != t
    ensures |s| > 0
    ensures (exists i :: OccursAt(s, t, i)) <==> (exists j :: OccursAt(s[1..], t, j))
  {
    if i :| OccursAt(s, t, i) {
      assert i != 0;
      assert s[1..][i - 1..i - 1 + |t|] == s[i..i + |t|];
      assert OccursAt(s[1..], t, i - 1);
    }
    if j :| OccursAt(s[1..], t, j) {
      assert s[1..][j..j + |t|] == s[j + 1..j + 1 + |t|];
      assert OccursAt(s, t, j + 1);
    }
  }

  // Splitting is defined for any separator class `sep`; Python's `str.split()`
  // is the instance `sep == IsSpace`.

  /** No character of `w` is a separator. */
  predicate Avoids(w: string, sep: char -> bool)
  {
    forall i :: 0 <= i < |w| ==> !sep(w[i])
  }

  /** `s` with its leading separators removed. */
  function TrimLeft(s: string, sep: char -> bool): (r: string)
    ensures |r| <= |s|
    ensures r == [] || !sep(r[0])
  {
    if s == [] || !sep(s[0]) then s else TrimLeft(s[1..], sep)
  }

  /** The longest prefix of `s` that holds no separator. */
  function TakeWord(s: string, sep: char -> bool): (w: string)
    ensures |w| <= |s| && Avoids(w, sep)
    ensures |w| < |s| ==> sep(s[|w|])
  {
    if s == [] || sep(s[0]) then [] else [s[0]] + TakeWord(s[1..], sep)
  }

  /** What `TrimLeft` removes is a prefix of separators: the rest is a suffix of `s`. */
  lemma {:induction false} TrimLeftIsSuffix(s: string, sep: char -> bool)
    ensures TrimLeft(s, sep) == s[|s| - |TrimLeft(s, sep)|..]
    ensures forall i :: 0 <= i < |s| - |TrimLeft(s, sep)| ==> sep(s[i])
  {
    if s != [] && sep(s[0]) {
      TrimLeftIsSuffix(s[1..], sep);
      assert forall i :: 1 <= i < |s| ==> s[1..][i - 1] == s[i];
    }
  }

  /** `TakeWord` returns a prefix of `s`. */
  lemma {:induction false} TakeWordIsPrefix(s: string, sep: char -> bool)
    ensures TakeWord(s, sep) == s[..|TakeWord(s, sep)|]
  {
    if s != [] && !sep(s[0]) {
      TakeWordIsPrefix(s[1..], sep);
    }
  }

  /** The maximal runs of non-separators in `s`, in order. */
  function SplitOn(s: string, sep: char -> bool): (words: seq<string>)
    ensures forall k :: 0 <= k < |words| ==> words[k] != [] && Avoids(words[k], sep)
    decreases |s|
  {
    var t := TrimLeft(s, sep);
    if t == [] then []
    else
      var w := TakeWord(t, sep);
      assert w != [] by {
        assert !sep(t[0]);
      }
      var ws := SplitOn(t[|w|..], sep);
      assert forall k :: 1 <= k <= |ws| ==> ([w] + ws)[k] == ws[k - 1];
      [w] + ws
  }

  /** Python's `s.split()`: the maximal runs of non-whitespace, in order. */
  function Split(s: string): (words: seq<string>)
    ensures forall k :: 0 <= k < |words| ==> words[k] != [] && NoSpace(words[k])
  {
    SplitOn(s, IsSpace)
  }

  /** `len(s.split())`, the keyword's word count. */
  function WordCount(s: string): nat
  {
    |Split(s)|
  }

  /** Words joined with single spaces. */
  function JoinWords(ws: seq<string>): string
  {
    if ws == [] then []
    else if |ws| == 1 then ws[0]
    else ws[0] + " " + JoinWords(ws[1..])
  }

  lemma {:induction false} TakeWordOfJoin(w: string, rest: string, sep: char -> bool)
    requires Avoids(w, sep)
    requires rest == [] || sep(rest[0])
    ensures TakeWord(w + rest, sep) == w
    decreases |w|
  {
    if w == [] {
      assert w + rest == rest;
    } else {
      assert (w + rest)[1..] == w[1..] + rest;
      TakeWordOfJoin(w[1..], rest, sep);
    }
  }

  /** A leading separator does not change the split. */
  lemma SplitLeadingSep(x: string, sep: char -> bool)
    requires sep(' ')
    ensures SplitOn(" " + x, sep) == SplitOn(x, sep)
  {
    assert (" " + x)[1..] == x;
    assert TrimLeft(" " + x, sep) == TrimLeft(x, sep);
  }

  /** A phrase that starts with a whole word splits into that word and the split of the rest. */
  lemma SplitFirstWord(w: string, rest: string, sep: char -> bool)
    requires w != [] && Avoids(w, sep)
    requires rest == [] || sep(rest[0])
    ensures SplitOn(w + rest, sep) == [w] + SplitOn(rest, sep)
  {
    var s := w + rest;
    assert TrimLeft(s, sep) == s;
    TakeWordOfJoin(w, rest, sep);
    assert s[|w|..] == rest;
  }

  lemma {:induction false} SplitOnJoin(ws: seq<string>, sep: char -> bool)
    requires sep(' ')
    requires forall k :: 0 <= k < |ws| ==> ws[k] != [] && Avoids(ws[k], sep)
    ensures SplitOn(JoinWords(ws), sep) == ws
  {
    if ws == [] {
    } else if |ws| == 1 {
      SplitFirstWord(ws[0], [], sep);
      assert ws[0] + [] == ws[0];
    } else {
      var w, rest := ws[0], JoinWords(ws[1..]);
      assert JoinWords(ws) == w + (" " + rest);
      SplitFirstWord(w, " " + rest, sep);
      SplitLeadingSep(rest, sep);
      SplitOnJoin(ws[1..], sep);
    }
  }

  /**
   * Splitting words that hold no whitespace, after joining them with single
   * spaces, gives the words back; so the word count of such a phrase is the
   * number of its words.
   */
  lemma SplitJoin(ws: seq<string>)
    requires forall k :: 0 <= k < |ws| ==> ws[k] != [] && NoSpace(ws[k])
    ensures Split(JoinWords(ws)) == ws
    ensures WordCount(JoinWords(ws)) == |ws|
  {
    assert IsSpace(' ');
    assert forall k :: 0 <= k < |ws| ==> Avoids(ws[k], IsSpace);
    SplitOnJoin(ws, IsSpace);
  }
}

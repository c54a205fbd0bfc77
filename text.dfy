/** The JavaScript string operations the render scripts use, on ASCII text:
    `startsWith`, `endsWith`, `replace(/x/g, y)`, `split`, `join` and the
    first-letter `toUpperCase`. */
module Text {

  import opened Common

  predicate StartsWith(s: string, prefix: string)
  {
    |prefix| <= |s| && s[..|prefix|] == prefix
  }

  predicate EndsWith(s: string, suffix: string)
  {
    |suffix| <= |s| && s[|s| - |suffix|..] == suffix
  }

  /** `s.replace(/from/g, to)` for a single character `from`. */
  function ReplaceAll(s: string, from: char, to: char): (r: string)
    ensures |r| == |s|
    ensures forall i :: 0 <= i < |s| ==> r[i] == (if s[i] == from then to else s[i])
  {
    if s == [] then []
    else [if s[0] == from then to else s[0]] + ReplaceAll(s[1..], from, to)
  }

  /** `s.replace(/[...]/g, '')`: every character in `drop` removed. */
  function RemoveAll(s: string, drop: set<char>): (r: string)
    ensures |r| <= |s|
    ensures forall i :: 0 <= i < |r| ==> r[i] !in drop
    ensures (forall i :: 0 <= i < |s| ==> s[i] !in drop) ==> r == s
  {
    if s == [] then []
    else (if s[0] in drop then [] else [s[0]]) + RemoveAll(s[1..], drop)
  }

  /** Removal works character by character: the removal over a
      concatenation is the concatenation of the removals, so the characters
      kept stay in order. */
  lemma {:induction false} RemoveAllConcat(a: string, b: string, drop: set<char>)
    ensures RemoveAll(a + b, drop) == RemoveAll(a, drop) + RemoveAll(b, drop)
    decreases |a|
  {
    if a != [] {
      assert (a + b)[1..] == a[1..] + b;
      RemoveAllConcat(a[1..], b, drop);
    } else {
      assert a + b == b;
    }
  }

  /** One character is dropped exactly when it is in `drop`, and kept
      otherwise. */
  lemma RemoveAllSingle(c: char, drop: set<char>)
    ensures RemoveAll([c], drop) == if c in drop then [] else [c]
  {
  }

  /** Removing the same characters twice removes nothing more. */
  lemma RemoveAllIdempotent(s: string, drop: set<char>)
    ensures RemoveAll(RemoveAll(s, drop), drop) == RemoveAll(s, drop)
  {
  }

  /** The index of the first `c` in `s`, if any. */
  function IndexOf(s: string, c: char): (r: Option<nat>)
    ensures r.None? <==> c !in s
    ensures r.Some? ==> r.value < |s| && s[r.value] == c && c !in s[..r.value]
  {
    if s == [] then None
    else if s[0] == c then Some(0)
    else match IndexOf(s[1..], c)
      case None => None
      case Some(k) => Some(k + 1)
  }

  /** The number of occurrences of `c` in `s`. */
  function Occurrences(s: string, c: char): nat
  {
    if s == [] then 0 else (if s[0] == c then 1 else 0) + Occurrences(s[1..], c)
  }

  /** `s.split(c)`: the maximal pieces between occurrences of `c`, empty
      pieces included; the empty string splits into one empty piece. */
  function Split(s: string, c: char): (r: seq<string>)
    ensures |r| == Occurrences(s, c) + 1
    ensures forall k :: 0 <= k < |r| ==> c !in r[k]
    decreases |s|
  {
    match IndexOf(s, c)
    case None =>
      OccurrencesAbsent(s, c);
      [s]
    case Some(k) =>
      OccurrencesSplit(s, c, k);
      [s[..k]] + Split(s[k + 1..], c)
  }

  lemma OccurrencesAbsent(s: string, c: char)
    requires c !in s
    ensures Occurrences(s, c) == 0
  {
    if s != [] {
      assert c !in s[1..];
      OccurrencesAbsent(s[1..], c);
    }
  }

  /** Counting occurrences across the first `c` of `s`. */
  lemma OccurrencesSplit(s: string, c: char, k: nat)
    requires k < |s| && s[k] == c && c !in s[..k]
    ensures Occurrences(s, c) == 1 + Occurrences(s[k + 1..], c)
  {
    if k > 0 {
      assert s[1..][..k - 1] == s[..k][1..];
      assert s[1..][k..] == s[k + 1..];
      OccurrencesSplit(s[1..], c, k - 1);
    }
  }

  /** `words.join(sep)`. */
  function Join(words: seq<string>, sep: string): (r: string)
  {
    if words == [] then ""
    else if |words| == 1 then words[0]
    else words[0] + sep + Join(words[1..], sep)
  }

  /** Joining the pieces of a split with the separator gives back the
      original string. */
  lemma {:induction false} JoinSplit(s: string, c: char)
    ensures Join(Split(s, c), [c]) == s
    decreases |s|
  {
    match IndexOf(s, c)
    case None =>
    case Some(k) =>
      JoinSplit(s[k + 1..], c);
      assert |Split(s[k + 1..], c)| >= 1;
      assert s == s[..k] + [c] + s[k + 1..];
  }

  /** Splitting a join on a separator no word contains gives back the
      words. */
  lemma {:induction false} SplitJoin(words: seq<string>, c: char)
    requires |words| >= 1
    requires forall k :: 0 <= k < |words| ==> c !in words[k]
    ensures Split(Join(words, [c]), c) == words
  {
    if |words| == 1 {
      assert IndexOf(words[0], c).None?;
    } else {
      var w, rest := words[0], Join(words[1..], [c]);
      assert Join(words, [c]) == w + [c] + rest;
      IndexOfAfterPrefix(w, rest, c);
      assert (w + [c] + rest)[..|w|] == w;
      assert (w + [c] + rest)[|w| + 1..] == rest;
      SplitJoin(words[1..], c);
    }
  }

  /** In `w + [c] + rest`, with no `c` in `w`, the first `c` is the one
      after `w`. */
  lemma IndexOfAfterPrefix(w: string, rest: string, c: char)
    requires c !in w
    ensures IndexOf(w + [c] + rest, c) == Some(|w|)
  {
    var s := w + [c] + rest;
    assert s[|w|] == c;
    assert s[..|w|] == w;
  }

  /** The length of a join. */
  lemma {:induction false} JoinLength(words: seq<string>, sep: string)
    requires |words| >= 1
    ensures |Join(words, sep)| == TotalLength(words) + (|words| - 1) * |sep|
  {
    if |words| > 1 {
      JoinLength(words[1..], sep);
    }
  }

  function TotalLength(words: seq<string>): nat
  {
    if words == [] then 0 else |words[0]| + TotalLength(words[1..])
  }

  /** `ch.toUpperCase()` for an ASCII character. */
  function ToUpper(ch: char): (r: char)
    ensures 'a' <= ch <= 'z' ==> 'A' <= r <= 'Z' && r as int - 'A' as int == ch as int - 'a' as int
    ensures !('a' <= ch <= 'z') ==> r == ch
  {
    if 'a' <= ch <= 'z' then (ch as int - 'a' as int + 'A' as int) as char else ch
  }

  /** `word.charAt(0).toUpperCase() + word.slice(1)`. */
  function Capitalize(word: string): (r: string)
    ensures |r| == |word|
    ensures word != [] ==> r[0] == ToUpper(word[0]) && r[1..] == word[1..]
  {
    if word == [] then "" else [ToUpper(word[0])] + word[1..]
  }
}

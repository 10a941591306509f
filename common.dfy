/** Values and string operations shared by the whole model: failure-carrying
    results, and the JavaScript string primitives the source relies on
    (`trim`, `split(/\s+/)`, `join(' ')`, `includes`, `startsWith`,
    `toLowerCase`). A string is a sequence of Dafny `char`s, which are
    Unicode scalar values; lengths agree with the source's UTF-16 lengths on
    text within the Basic Multilingual Plane. */
module Common {

  datatype Option<+T> = None | Some(value: T)

  datatype Result<+T, +E> = Success(value: T) | Failure(error: E)

  function Min(a: int, b: int): int { if a <= b then a else b }

  function Max(a: int, b: int): int { if a >= b then a else b }

  /** The characters matched by `\s` in a JavaScript regular expression, which
      are also the characters `String.prototype.trim` removes. */
  predicate IsSpace(c: char)
  {
    c == ' ' || c == '\t' || c == '\n' || c == '\r' || c == '\U{B}' || c == '\U{C}'
    || c == '\U{A0}' || c == '\U{1680}' || ('\U{2000}' <= c <= '\U{200A}')
    || c == '\U{2028}' || c == '\U{2029}' || c == '\U{202F}' || c == '\U{205F}'
    || c == '\U{3000}' || c == '\U{FEFF}'
  }

  /** The characters before which `$` matches in a multiline regular expression. */
  predicate IsLineTerminator(c: char)
  {
    c == '\n' || c == '\r' || c == '\U{2028}' || c == '\U{2029}'
  }

  predicate IsUpper(c: char) { 'A' <= c <= 'Z' }

  ghost predicate NoSpace(w: string)
  {
    forall k :: 0 <= k < |w| ==> !IsSpace(w[k])
  }

  /** No whitespace at either end: what `trim` produces. */
  predicate Trimmed(s: string)
  {
    |s| == 0 || (!IsSpace(s[0]) && !IsSpace(s[|s| - 1]))
  }

  /** A word as `split(/\s+/)` yields it from a trimmed, non-empty string. */
  ghost predicate CleanWord(w: string)
  {
    |w| > 0 && NoSpace(w)
  }

  /** A non-empty list of clean words. */
  ghost predicate CleanWords(words: seq<string>)
  {
    |words| > 0 && forall i :: 0 <= i < |words| ==> |words[i]| > 0 && NoSpace(words[i])
  }

  /** Index of the first whitespace character at or after `j`, or `|s|`. */
  function FirstSpace(s: string, j: nat): (k: nat)
    requires j <= |s|
    ensures j <= k <= |s|
    ensures k < |s| ==> IsSpace(s[k])
    ensures forall m :: j <= m < k ==> !IsSpace(s[m])
    decreases |s| - j
  {
    if j == |s| || IsSpace(s[j]) then j else FirstSpace(s, j + 1)
  }

  /** Index just past the run of whitespace that starts at `j`. */
  function SpaceRunEnd(s: string, j: nat): (k: nat)
    requires j <= |s|
    ensures j <= k <= |s|
    ensures k < |s| ==> !IsSpace(s[k])
    ensures forall m :: j <= m < k ==> IsSpace(s[m])
    decreases |s| - j
  {
    if j == |s| || !IsSpace(s[j]) then j else SpaceRunEnd(s, j + 1)
  }

  /** Index just past the last non-whitespace character of `s[..hi]`, or 0. */
  function TrimEndIndex(s: string, hi: nat): (h: nat)
    requires hi <= |s|
    ensures h <= hi
    ensures h == 0 || !IsSpace(s[h - 1])
    ensures forall k :: h <= k < hi ==> IsSpace(s[k])
  {
    if hi > 0 && IsSpace(s[hi - 1]) then TrimEndIndex(s, hi - 1) else hi
  }

  /** `s.trim()`: the text between the leading and the trailing whitespace. */
  function Trim(s: string): (r: string)
  {
    var lo := SpaceRunEnd(s, 0);
    if lo == |s| then [] else s[lo..TrimEndIndex(s, |s|)]
  }

  /** `trim` strips exactly the leading and trailing whitespace: its result has
      none at either end, and a string without any is left as it is. */
  lemma TrimTrims(s: string)
    ensures Trimmed(Trim(s))
    ensures |Trim(s)| <= |s|
    ensures Trimmed(s) ==> Trim(s) == s
    ensures Trim(s) == [] <==> forall k :: 0 <= k < |s| ==> IsSpace(s[k])
  {
    var lo := SpaceRunEnd(s, 0);
    if lo < |s| {
      var hi := TrimEndIndex(s, |s|);
      assert lo < hi;
      assert Trim(s)[0] == s[lo];
      assert Trim(s)[|Trim(s)| - 1] == s[hi - 1];
      if Trimmed(s) {
        assert lo == 0;
        assert hi == |s|;
      }
    }
  }

  /** The pieces of `s[j..]` between maximal runs of whitespace. */
  function SplitFrom(s: string, j: nat): (r: seq<string>)
    requires j <= |s|
    ensures |r| >= 1
    decreases |s| - j
  {
    var k := FirstSpace(s, j);
    if k == |s| then [s[j..]] else [s[j..k]] + SplitFrom(s, SpaceRunEnd(s, k))
  }

  /** `s.split(/\s+/)`: the pieces between maximal runs of whitespace. A
      leading or trailing run yields an empty first or last piece, and the
      empty string yields one empty piece. */
  function Split(s: string): (r: seq<string>)
    ensures |r| >= 1
  {
    SplitFrom(s, 0)
  }

  /** `s.split(/\s+/).length`, the source's word count. */
  function WordCount(s: string): nat
  {
    |Split(s)|
  }

  /** `words.join(' ')`. */
  function Join(words: seq<string>): string
  {
    if |words| == 0 then ""
    else if |words| == 1 then words[0]
    else words[0] + " " + Join(words[1..])
  }

  /** `s.startsWith(p)`. */
  predicate StartsWith(s: string, p: string)
  {
    |p| <= |s| && s[..|p|] == p
  }

  /** `s.includes(sub)`: `sub` occurs in `s` at some offset. */
  predicate Contains(s: string, sub: string)
    decreases |s|
  {
    StartsWith(s, sub) || (|s| > 0 && Contains(s[1..], sub))
  }

  function LowerChar(c: char): char
  {
    if 'A' <= c <= 'Z' then (c as int + 32) as char else c
  }

  /** `s.toLowerCase()` restricted to ASCII letters. */
  function ToLower(s: string): (r: string)
    ensures |r| == |s|
  {
    if |s| == 0 then "" else [LowerChar(s[0])] + ToLower(s[1..])
  }

  // ---------------------------------------------------------------------
  // Split and Join

  lemma FirstSpaceIs(s: string, j: nat, k: nat)
    requires j <= k <= |s|
    requires k < |s| ==> IsSpace(s[k])
    requires forall m :: j <= m < k ==> !IsSpace(s[m])
    ensures FirstSpace(s, j) == k
  {
  }

  lemma SpaceRunEndIs(s: string, j: nat, k: nat)
    requires j <= k <= |s|
    requires k < |s| ==> !IsSpace(s[k])
    requires forall m :: j <= m < k ==> IsSpace(s[m])
    ensures SpaceRunEnd(s, j) == k
  {
  }

  /** `t` holds `s` from offset `d` on, up to its end. */
  ghost predicate ShiftedBy(t: string, s: string, d: nat)
  {
    |t| == d + |s| && forall m :: 0 <= m < |s| ==> t[d + m] == s[m]
  }

  lemma ConcatShifted(p: string, s: string)
    ensures ShiftedBy(p + s, s, |p|)
  {
  }

  /** Splitting depends only on the text from the start position on: a prefix
      in front shifts every position by its length. */
  lemma SplitFromShift(p: string, s: string, j: nat)
    requires j <= |s|
    ensures SplitFrom(p + s, |p| + j) == SplitFrom(s, j)
  {
    ConcatShifted(p, s);
    SplitFromShifted(p + s, s, |p|, j);
  }

  lemma {:induction false} SplitFromShifted(t: string, s: string, d: nat, j: nat)
    requires ShiftedBy(t, s, d) && j <= |s|
    ensures SplitFrom(t, d + j) == SplitFrom(s, j)
    decreases |s| - j
  {
    var k := FirstSpace(s, j);
    ShiftedFirstSpace(t, s, d, j);
    if k == |s| {
      ShiftedLastWord(t, s, d, j);
    } else {
      var r := SpaceRunEnd(s, k);
      SplitFromShifted(t, s, d, r);
      ShiftedWord(t, s, d, j, k, r);
    }
  }

  lemma ShiftedSlice(t: string, s: string, d: nat, j: nat, k: nat)
    requires ShiftedBy(t, s, d) && j <= k <= |s|
    ensures t[d + j..d + k] == s[j..k]
  {
    forall m | 0 <= m < k - j ensures t[d + j..d + k][m] == s[j..k][m] {
      assert t[d + (j + m)] == s[j + m];
    }
  }

  lemma ShiftedLastWord(t: string, s: string, d: nat, j: nat)
    requires ShiftedBy(t, s, d) && j <= |s|
    requires FirstSpace(s, j) == |s| && FirstSpace(t, d + j) == d + |s|
    ensures SplitFrom(t, d + j) == SplitFrom(s, j)
  {
    SplitFromLast(t, d + j);
    SplitFromLast(s, j);
    ShiftedSlice(t, s, d, j, |s|);
    assert t[d + j..] == t[d + j..d + |s|];
    assert s[j..] == s[j..|s|];
  }

  lemma ShiftedWord(t: string, s: string, d: nat, j: nat, k: nat, r: nat)
    requires ShiftedBy(t, s, d) && j <= k < |s|
    requires FirstSpace(s, j) == k && FirstSpace(t, d + j) == d + k && SpaceRunEnd(s, k) == r
    requires SplitFrom(t, d + r) == SplitFrom(s, r)
    ensures SplitFrom(t, d + j) == SplitFrom(s, j)
  {
    ShiftedRunEnd(t, s, d, k);
    SplitFromNext(t, d + j, d + k, d + r);
    SplitFromNext(s, j, k, r);
    ShiftedSlice(t, s, d, j, k);
  }

  /** The last word of a split: no whitespace after position `j`. */
  lemma SplitFromLast(t: string, j: nat)
    requires j <= |t| && FirstSpace(t, j) == |t|
    ensures SplitFrom(t, j) == [t[j..]]
  {
  }

  /** A word ending at the whitespace run `t[k..r]`. */
  lemma SplitFromNext(t: string, j: nat, k: nat, r: nat)
    requires j <= k < |t| && FirstSpace(t, j) == k && SpaceRunEnd(t, k) == r
    ensures SplitFrom(t, j) == [t[j..k]] + SplitFrom(t, r)
  {
  }

  lemma ShiftedFirstSpace(t: string, s: string, d: nat, j: nat)
    requires ShiftedBy(t, s, d) && j <= |s|
    ensures FirstSpace(t, d + j) == d + FirstSpace(s, j)
  {
    var k := FirstSpace(s, j);
    assert forall m :: d + j <= m < d + k ==> t[m] == s[m - d];
    assert k < |s| ==> t[d + k] == s[k];
    FirstSpaceIs(t, d + j, d + k);
  }

  lemma ShiftedRunEnd(t: string, s: string, d: nat, j: nat)
    requires ShiftedBy(t, s, d) && j <= |s|
    ensures SpaceRunEnd(t, d + j) == d + SpaceRunEnd(s, j)
  {
    var k := SpaceRunEnd(s, j);
    assert forall m :: d + j <= m < d + k ==> t[m] == s[m - d];
    assert k < |s| ==> t[d + k] == s[k];
    SpaceRunEndIs(t, d + j, d + k);
  }

  /** The seam of `a + " " + b` as the splitter sees it from a word start `j`
      of `a`: the first whitespace at or after `j` is `a`'s own, or the joining
      space when `a` has none left. */
  lemma SeamFirstSpace(a: string, b: string, j: nat)
    requires j <= |a|
    ensures FirstSpace(a + " " + b, j) == FirstSpace(a, j)
  {
    var s := a + " " + b;
    var k := FirstSpace(a, j);
    assert forall m :: j <= m < k ==> s[m] == a[m];
    assert s[k] == if k < |a| then a[k] else ' ';
    FirstSpaceIs(s, j, k);
  }

  lemma SeamRunEnd(a: string, b: string, k: nat)
    requires k < |a| && IsSpace(a[k])
    requires !IsSpace(a[|a| - 1])
    ensures SpaceRunEnd(a + " " + b, k) == SpaceRunEnd(a, k)
  {
    var s := a + " " + b;
    var r := SpaceRunEnd(a, k);
    assert r < |a|;
    assert forall m :: k <= m <= r ==> s[m] == a[m];
    SpaceRunEndIs(s, k, r);
  }

  lemma SeamLastWord(a: string, b: string, j: nat)
    requires j <= |a| && FirstSpace(a, j) == |a|
    requires |b| == 0 || !IsSpace(b[0])
    ensures SplitFrom(a + " " + b, j) == [a[j..]] + Split(b)
  {
    SeamHead(a, b, j);
    SeamTail(a, b);
  }

  lemma SeamHead(a: string, b: string, j: nat)
    requires j <= |a| && FirstSpace(a, j) == |a|
    requires |b| == 0 || !IsSpace(b[0])
    ensures SplitFrom(a + " " + b, j) == [a[j..]] + SplitFrom(a + " " + b, |a| + 1)
  {
    var s := a + " " + b;
    SeamFirstSpace(a, b, j);
    assert |b| > 0 ==> s[|a| + 1] == b[0];
    SpaceRunEndIs(s, |a|, |a| + 1);
    SplitFromNext(s, j, |a|, |a| + 1);
    assert s[j..|a|] == a[j..];
  }

  lemma SeamTail(a: string, b: string)
    ensures SplitFrom(a + " " + b, |a| + 1) == Split(b)
  {
    SplitFromShift(a + " ", b, 0);
  }

  lemma {:induction false} SplitFromAppend(a: string, b: string, j: nat)
    requires j <= |a|
    requires |a| == 0 || !IsSpace(a[|a| - 1])
    requires |b| == 0 || !IsSpace(b[0])
    ensures SplitFrom(a + " " + b, j) == SplitFrom(a, j) + Split(b)
    decreases |a| - j
  {
    var k := FirstSpace(a, j);
    if k == |a| {
      SeamLastWord(a, b, j);
    } else {
      var s := a + " " + b;
      var r := SpaceRunEnd(a, k);
      SeamFirstSpace(a, b, j);
      SeamRunEnd(a, b, k);
      assert s[j..k] == a[j..k];
      SplitFromAppend(a, b, r);
    }
  }

  /** Joining two texts with one space adds their word counts: the split of
      `a + " " + b` is the split of `a` followed by the split of `b`, provided
      the space is the only whitespace at the seam. */
  lemma SplitAppend(a: string, b: string)
    requires |a| == 0 || !IsSpace(a[|a| - 1])
    requires |b| == 0 || !IsSpace(b[0])
    ensures Split(a + " " + b) == Split(a) + Split(b)
  {
    SplitFromAppend(a, b, 0);
  }

  lemma SplitOneWord(w: string)
    requires NoSpace(w)
    ensures Split(w) == [w]
  {
    FirstSpaceIs(w, 0, |w|);
    assert w[0..] == w;
  }

  lemma {:induction false} JoinEnds(words: seq<string>)
    requires CleanWords(words)
    ensures |Join(words)| > 0
    ensures Join(words)[0] == words[0][0]
    ensures Join(words)[|Join(words)| - 1] == words[|words| - 1][|words[|words| - 1]| - 1]
  {
    if |words| > 1 {
      var rest := words[1..];
      assert forall i :: 0 <= i < |rest| ==> rest[i] == words[i + 1];
      JoinEnds(rest);
      var j := Join(rest);
      var s := words[0] + " " + j;
      assert Join(words) == s;
      assert s[0] == words[0][0];
      assert s[|s| - 1] == j[|j| - 1];
      assert words[|words| - 1] == rest[|rest| - 1];
    }
  }

  /** Joined clean words form a trimmed, non-empty text. */
  lemma JoinTrimmed(words: seq<string>)
    requires CleanWords(words)
    ensures Trimmed(Join(words)) && |Join(words)| > 0
  {
    JoinEnds(words);
  }

  /** Round trip: splitting the space-joined words gives the words back, so a
      chunk made of a word window reports its own word count. */
  lemma {:induction false} SplitJoin(words: seq<string>)
    requires CleanWords(words)
    ensures Split(Join(words)) == words
  {
    if |words| == 1 {
      SplitOneWord(words[0]);
    } else {
      JoinEnds(words[1..]);
      SplitOneWord(words[0]);
      SplitAppend(words[0], Join(words[1..]));
      SplitJoin(words[1..]);
    }
  }

  lemma {:induction false} SplitFromWords(s: string, j: nat)
    requires j <= |s|
    ensures forall i :: 0 <= i < |SplitFrom(s, j)| ==> NoSpace(SplitFrom(s, j)[i])
    ensures (j < |s| && !IsSpace(s[j]) && !IsSpace(s[|s| - 1])) ==>
      forall i :: 0 <= i < |SplitFrom(s, j)| ==> CleanWord(SplitFrom(s, j)[i])
    decreases |s| - j
  {
    var k := FirstSpace(s, j);
    if k < |s| {
      var r := SpaceRunEnd(s, k);
      SplitFromWords(s, r);
      var rest := SplitFrom(s, r);
      var all := SplitFrom(s, j);
      assert all == [s[j..k]] + rest;
      forall i | 0 < i < |all| ensures all[i] == rest[i - 1] { }
      if j < |s| && !IsSpace(s[j]) && !IsSpace(s[|s| - 1]) {
        assert r < |s|;
        assert k > j;
      }
    }
  }

  /** Every word that `split(/\s+/)` yields is free of whitespace, and from a
      trimmed non-empty text every word is non-empty as well. */
  lemma SplitWords(s: string)
    ensures forall i :: 0 <= i < |Split(s)| ==> NoSpace(Split(s)[i])
    ensures Trimmed(s) && |s| > 0 ==> forall i :: 0 <= i < |Split(s)| ==> CleanWord(Split(s)[i])
  {
    SplitFromWords(s, 0);
  }

  /** A text that `trim` leaves alone and that has words joins back from them. */
  lemma WordCountOfJoin(words: seq<string>)
    requires CleanWords(words)
    ensures WordCount(Join(words)) == |words|
  {
    SplitJoin(words);
  }

  lemma StartsWithPrefix(p: string, s: string)
    ensures StartsWith(p + s, p)
  {
    assert (p + s)[..|p|] == p;
  }

  /** One loop round in terms of the output so far: appending the round's
      piece and then the rest is appending the whole remainder. */
  lemma Regroup<T>(before: seq<T>, after: seq<T>, piece: seq<T>, rest: seq<T>, whole: seq<T>)
    requires after == before + piece && whole == piece + rest
    ensures after + rest == before + whole
  {
  }

  /** Extending a prefix by one element. */
  lemma TakeSnoc<T>(s: seq<T>, j: nat)
    requires j < |s|
    ensures s[..j] + [s[j]] == s[..j + 1]
    ensures s[..j + 1][..j] == s[..j]
  {
  }
}

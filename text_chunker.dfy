/** The text chunker (nodes/text-chunker.js): turns a page's content and title
    into an ordered list of chunks, each tagged with the strategy that made it.

    Each strategy is given twice: as a specification function (`GroupFrom`,
    `MixedFrom`, `FallbackSpec`, ...) about which the lemmas are proved, and as
    a method with the source's loops (`GroupSentencesIntoChunks`, ...) proved
    to compute that function. */
module TextChunker {
  import opened Common

  // ---------------------------------------------------------------------
  // Configuration and data

  datatype Config = Config(
    maxWordsPerChunk: nat,
    overlapSentences: nat,
    minChunkLength: nat,
    includeTitle: bool)

  /** What the constructor guarantees of every chunker it builds. */
  predicate ValidConfig(cfg: Config)
  {
    cfg.maxWordsPerChunk > 0 && cfg.overlapSentences > 0 && cfg.minChunkLength > 0
  }

  /** The constructor. A numeric option given as 0 (or not given, which the
      model writes as 0) falls back to its default, as `options.x || d` does;
      `includeTitle` is on unless it is given as `false`. */
  function NewConfig(maxWords: nat, overlap: nat, minLength: nat, includeTitle: Option<bool>): (cfg: Config)
    ensures ValidConfig(cfg)
    ensures cfg.maxWordsPerChunk == (if maxWords == 0 then 80 else maxWords)
    ensures cfg.overlapSentences == (if overlap == 0 then 1 else overlap)
    ensures cfg.minChunkLength == (if minLength == 0 then 20 else minLength)
    ensures cfg.includeTitle <==> includeTitle != Some(false)
  {
    Config(
      if maxWords == 0 then 80 else maxWords,
      if overlap == 0 then 1 else overlap,
      if minLength == 0 then 20 else minLength,
      match includeTitle case Some(b) => b case None => true)
  }

  /** The `source` tag of a chunk. */
  datatype Source =
    | Title
    | ContentChunk(n: nat)
    | SentenceChunk(n: nat)
    | LongSentenceChunk(n: nat, part: nat)
    | ParagraphChunk(paragraph: nat, part: nat)

  function DigitString(n: nat): string
  {
    if n < 10 then ["0123456789"[n]] else DigitString(n / 10) + ["0123456789"[n % 10]]
  }

  /** The tag as the source spells it, e.g. `long_sentence_chunk_3_part_1`. */
  function SourceTag(s: Source): string
  {
    match s
    case Title => "title"
    case ContentChunk(n) => "content_chunk_" + DigitString(n)
    case SentenceChunk(n) => "sentence_chunk_" + DigitString(n)
    case LongSentenceChunk(n, j) => "long_sentence_chunk_" + DigitString(n) + "_part_" + DigitString(j)
    case ParagraphChunk(p, k) => "paragraph_" + DigitString(p) + "_chunk_" + DigitString(k)
  }

  datatype Chunk = Chunk(text: string, source: Source, index: nat, wordCount: nat)

  // ---------------------------------------------------------------------
  // Title chunk

  predicate HasTitleChunk(cfg: Config, title: string)
  {
    cfg.includeTitle && |Trim(title)| > 5
  }

  function TitleChunks(cfg: Config, title: string): seq<Chunk>
  {
    var t := Trim(title);
    if HasTitleChunk(cfg, title) then [Chunk(t, Title, 0, WordCount(t))] else []
  }

  // ---------------------------------------------------------------------
  // Sentence splitting

  predicate IsCjkTerminal(c: char) { c == '。' || c == '！' || c == '？' }

  predicate IsLatinTerminal(c: char) { c == '.' || c == '!' || c == '?' }

  /** The ideographs `[一-龥]`. */
  predicate IsCjkIdeograph(c: char) { '\U{4E00}' <= c <= '\U{9FA5}' }

  /** `\s+(?=[A-Z])` matches at `j`: a non-empty run of whitespace, then an
      upper-case Latin letter. */
  predicate UpperAfterSpaces(s: string, j: nat)
    requires j <= |s|
  {
    var r := SpaceRunEnd(s, j);
    r > j && r < |s| && IsUpper(s[r])
  }

  /** `\s*$` matches at `j` in multiline mode: whitespace up to a line
      terminator or up to the end of the text. */
  predicate LineEndAfter(s: string, j: nat)
    requires j <= |s|
    decreases |s| - j
  {
    j == |s| || IsLineTerminator(s[j]) || (IsSpace(s[j]) && LineEndAfter(s, j + 1))
  }

  /** Whether the replacement chain puts a line break right after `s[p]`.
      Ordinary pass: after `。！？`; after `.!?` followed by whitespace and an
      upper-case letter, or by whitespace up to the end of the line; after
      `.!?` and a quote followed by whitespace and an upper-case letter.
      Aggressive pass: after any of `.!?。！？;；:：`, and after `)` or `）`
      followed by optional whitespace and an ideograph or upper-case letter. */
  predicate BreakAfter(s: string, p: nat, aggressive: bool)
    requires p < |s|
  {
    var c := s[p];
    if aggressive then
      IsLatinTerminal(c) || IsCjkTerminal(c) || c == ';' || c == '；' || c == ':' || c == '：'
      || ((c == ')' || c == '）') &&
          var r := SpaceRunEnd(s, p + 1);
          r < |s| && (IsCjkIdeograph(s[r]) || IsUpper(s[r])))
    else
      IsCjkTerminal(c)
      || (IsLatinTerminal(c) && (UpperAfterSpaces(s, p + 1) || LineEndAfter(s, p + 1)))
      || ((c == '"' || c == '\'') && p > 0 && IsLatinTerminal(s[p - 1]) && UpperAfterSpaces(s, p + 1))
  }

  /** The pieces `split('\n')` yields after the replacement chain: the text is
      cut at every line feed (which is dropped) and after every character
      `BreakAfter` marks (which stays with its piece). `s[start..q]` is the
      piece being scanned. */
  function Segments(s: string, aggressive: bool, start: nat, q: nat): seq<string>
    requires start <= q <= |s|
    decreases |s| - q
  {
    if q == |s| then [s[start..]]
    else if s[q] == '\n' then [s[start..q]] + Segments(s, aggressive, q + 1, q + 1)
    else if BreakAfter(s, q, aggressive) then [s[start..q + 1]] + Segments(s, aggressive, q + 1, q + 1)
    else Segments(s, aggressive, start, q + 1)
  }

  /** `.map(s => s.trim()).filter(s => s.length > 15)`. */
  function CleanPieces(pieces: seq<string>): seq<string>
  {
    if |pieces| == 0 then []
    else (if |Trim(pieces[0])| > 15 then [Trim(pieces[0])] else []) + CleanPieces(pieces[1..])
  }

  /** Sentences as the ordinary pass of `splitIntoSentences` finds them. */
  function BasicSentences(content: string): seq<string>
  {
    CleanPieces(Segments(content, false, 0, 0))
  }

  /** Sentences as the first stage of `aggressiveSentenceSplitting` finds them. */
  function AggressivePieces(content: string): seq<string>
  {
    CleanPieces(Segments(content, true, 0, 0))
  }

  // ---------------------------------------------------------------------
  // Word windows

  /** The windows `words.slice(i, i + size)` for `i` = `start`, `start + step`,
      ... while `i < words.length`. */
  function Windows(words: seq<string>, size: nat, step: nat, i: nat): seq<seq<string>>
    requires step > 0
    decreases if i < |words| then |words| - i else 0
  {
    if i >= |words| then []
    else [words[i..Min(i + size, |words|)]] + Windows(words, size, step, i + step)
  }

  /** The concatenation of the lists in `ws`, in order. */
  function Flatten<T>(ws: seq<seq<T>>): seq<T>
  {
    if |ws| == 0 then [] else ws[0] + Flatten(ws[1..])
  }

  /** The advance of the aggressive pass, `maxWordsPerChunk - 5`, clamped to at
      least one word as the grouping cursor is (see `AsWrittenCursorStalls`). */
  function AggressiveStep(cfg: Config): nat
  {
    Max(1, cfg.maxWordsPerChunk - 5)
  }

  /** The joined windows longer than 15 characters. */
  function LongTexts(ws: seq<seq<string>>): seq<string>
  {
    if |ws| == 0 then []
    else (if |Join(ws[0])| > 15 then [Join(ws[0])] else []) + LongTexts(ws[1..])
  }

  /** A sentence of the aggressive pass, kept whole or cut into windows of
      `maxWordsPerChunk` words that overlap by five. */
  function ExpandSentence(cfg: Config, s: string): seq<string>
  {
    var words := Split(s);
    if |words| <= cfg.maxWordsPerChunk then [s]
    else LongTexts(Windows(words, cfg.maxWordsPerChunk, AggressiveStep(cfg), 0))
  }

  function ExpandFrom(cfg: Config, sentences: seq<string>, k: nat): seq<string>
    decreases if k < |sentences| then |sentences| - k else 0
  {
    if k >= |sentences| then []
    else ExpandSentence(cfg, sentences[k]) + ExpandFrom(cfg, sentences, k + 1)
  }

  /** `aggressiveSentenceSplitting(content)`. */
  function AggressiveSplit(cfg: Config, content: string): seq<string>
  {
    ExpandFrom(cfg, AggressivePieces(content), 0)
  }

  /** `splitIntoSentences(content)`: the ordinary pass, unless it finds fewer
      than three sentences in a text longer than 500 characters. */
  function Sentences(cfg: Config, content: string): seq<string>
  {
    var basic := BasicSentences(content);
    if |basic| < 3 && |content| > 500 then AggressiveSplit(cfg, content) else basic
  }

  // ---------------------------------------------------------------------
  // Chunks from word windows

  /** Which loop a window belongs to: the windows of an oversized sentence in
      mixed chunking, of a paragraph, or of the whole content in the
      fallback. */
  datatype WindowKind = LongSentence(sentence: nat) | Paragraph(paragraph: nat) | WholeContent

  function WindowSource(kind: WindowKind, part: nat): Source
  {
    match kind
    case LongSentence(n) => LongSentenceChunk(n, part)
    case Paragraph(p) => ParagraphChunk(p, part)
    case WholeContent => ContentChunk(part)
  }

  /** A source produced by a window loop of the given kind. */
  predicate OfKind(s: Source, kind: WindowKind)
  {
    match kind
    case LongSentence(n) => s.LongSentenceChunk? && s.n == n
    case Paragraph(p) => s.ParagraphChunk? && s.paragraph == p
    case WholeContent => s.ContentChunk?
  }

  /** The index after a kept window: the windows of an oversized sentence all
      carry the sentence's index, any other kept window takes the next one. */
  function NextIndex(kind: WindowKind, idx: nat): nat
  {
    if kind.LongSentence? then idx else idx + 1
  }

  /** The chunks made from the windows `ws`, the first of which is part `j`,
      keeping those whose text is longer than `minLength` characters. */
  function KeepWindows(ws: seq<seq<string>>, minLength: nat, kind: WindowKind, j: nat, idx: nat): seq<Chunk>
  {
    if |ws| == 0 then []
    else
      var text := Join(ws[0]);
      if |text| > minLength then
        [Chunk(text, WindowSource(kind, j), idx, |ws[0]|)] + KeepWindows(ws[1..], minLength, kind, j + 1, NextIndex(kind, idx))
      else KeepWindows(ws[1..], minLength, kind, j + 1, idx)
  }

  /** The part numbers of the windows in `ws` whose joined text is longer
      than `minLength` characters, the first window being part `j`: the
      windows a window loop turns into chunks. */
  function KeptParts(ws: seq<seq<string>>, minLength: nat, j: nat): seq<nat>
  {
    if |ws| == 0 then []
    else (if |Join(ws[0])| > minLength then [j] else []) + KeptParts(ws[1..], minLength, j + 1)
  }

  /** The chunks of the non-overlapping windows of `size` words. */
  function WindowChunks(words: seq<string>, size: nat, minLength: nat, kind: WindowKind, idx: nat): seq<Chunk>
    requires size > 0
  {
    KeepWindows(Windows(words, size, size, 0), minLength, kind, 0, idx)
  }

  // ---------------------------------------------------------------------
  // Grouping sentences

  /** Appends a sentence to the chunk text, with a space unless the text is
      still empty. */
  function Append(text: string, s: string): string
  {
    if text == "" then s else text + " " + s
  }

  /** The text of the group of sentences `i` to `e - 1`, appended one by one. */
  function GroupText(sentences: seq<string>, i: nat, e: nat): string
    requires i <= e <= |sentences|
    decreases e - i
  {
    if e == i then "" else Append(GroupText(sentences, i, e - 1), sentences[e - 1])
  }

  /** The word count of the group of sentences `i` to `e - 1`. */
  function GroupWords(sentences: seq<string>, i: nat, e: nat): nat
    requires i <= e <= |sentences|
    decreases e - i
  {
    if e == i then 0 else GroupWords(sentences, i, e - 1) + WordCount(sentences[e - 1])
  }

  /** The inner loop of `groupSentencesIntoChunks`: from sentence `j` on, with
      `wc` words gathered so far, take whole sentences while the word limit is
      not reached and the next sentence fits (the first one always goes in).
      Returns the index after the last sentence taken. */
  function GatherEnd(max: nat, sentences: seq<string>, j: nat, wc: nat): (e: nat)
    requires j <= |sentences|
    ensures j <= e <= |sentences|
    decreases |sentences| - j
  {
    if j < |sentences| && wc < max then
      var sw := WordCount(sentences[j]);
      if wc + sw > max && wc > 0 then j
      else GatherEnd(max, sentences, j + 1, wc + sw)
    else j
  }

  /** The index after the last sentence of the group starting at `i`. */
  function GroupEnd(cfg: Config, sentences: seq<string>, i: nat): (e: nat)
    requires i <= |sentences|
    ensures i <= e <= |sentences|
  {
    GatherEnd(cfg.maxWordsPerChunk, sentences, i, 0)
  }

  /** The cursor's next position: `i + max(1, sentencesUsed - overlapSentences)`. */
  function NextStart(cfg: Config, i: nat, used: nat): nat
  {
    i + Max(1, used - cfg.overlapSentences)
  }

  /** The chunk a group starting at sentence `i` emits, if its trimmed text is
      longer than `minChunkLength`, with index `idx`. */
  function GroupEmitted(cfg: Config, sentences: seq<string>, i: nat, idx: nat): seq<Chunk>
    requires i <= |sentences|
  {
    var e := GroupEnd(cfg, sentences, i);
    ChunkOfGroup(cfg, GroupText(sentences, i, e), GroupWords(sentences, i, e), idx)
  }

  /** The chunk of a gathered group: its trimmed text, if that is longer than
      `minChunkLength`. */
  function ChunkOfGroup(cfg: Config, text: string, wc: nat, idx: nat): seq<Chunk>
  {
    if |Trim(text)| > cfg.minChunkLength then [Chunk(Trim(text), ContentChunk(idx), idx, wc)] else []
  }

  /** Where the cursor goes after the group starting at sentence `i`. */
  function GroupNext(cfg: Config, sentences: seq<string>, i: nat): (next: nat)
    requires i < |sentences|
    ensures i < next <= |sentences|
  {
    NextStart(cfg, i, GroupEnd(cfg, sentences, i) - i)
  }

  /** The chunks `groupSentencesIntoChunks` emits from cursor `i` on, the next
      one taking index `idx`. */
  function GroupFrom(cfg: Config, sentences: seq<string>, i: nat, idx: nat): seq<Chunk>
    requires i <= |sentences|
    decreases |sentences| - i
  {
    if i >= |sentences| then []
    else
      GroupEmitted(cfg, sentences, i, idx)
      + GroupFrom(cfg, sentences, GroupNext(cfg, sentences, i), idx + |GroupEmitted(cfg, sentences, i, idx)|)
  }

  // ---------------------------------------------------------------------
  // Mixed chunking

  /** The chunks of one sentence in mixed chunking, at index `idx`. */
  function SentenceChunks(cfg: Config, s: string, idx: nat): seq<Chunk>
    requires ValidConfig(cfg)
  {
    var wc := WordCount(s);
    if wc <= cfg.maxWordsPerChunk then [Chunk(Trim(s), SentenceChunk(idx), idx, wc)]
    else WindowChunks(Split(s), cfg.maxWordsPerChunk, cfg.minChunkLength, LongSentence(idx), idx)
  }

  /** The chunks `mixedChunking` emits from sentence `k` on; sentence `k` has
      index `idx`, whatever the earlier sentences emitted. */
  function MixedFrom(cfg: Config, sentences: seq<string>, k: nat, idx: nat): seq<Chunk>
    requires ValidConfig(cfg)
    decreases if k < |sentences| then |sentences| - k else 0
  {
    if k >= |sentences| then []
    else SentenceChunks(cfg, sentences[k], idx) + MixedFrom(cfg, sentences, k + 1, idx + 1)
  }

  /** The chunk lists mixed chunking emits per sentence, from sentence `k`
      on; sentence `k` has index `idx`. */
  function MixedParts(cfg: Config, sentences: seq<string>, k: nat, idx: nat): seq<seq<Chunk>>
    requires ValidConfig(cfg)
    decreases if k < |sentences| then |sentences| - k else 0
  {
    if k >= |sentences| then []
    else [SentenceChunks(cfg, sentences[k], idx)] + MixedParts(cfg, sentences, k + 1, idx + 1)
  }


  // ---------------------------------------------------------------------
  // Fallback chunking

  /** Index of the last line feed in `s[lo..hi]`, or -1. */
  function LastNewline(s: string, lo: nat, hi: nat): (m: int)
    requires lo <= hi <= |s|
    ensures m == -1 || (lo <= m < hi && s[m] == '\n')
    ensures forall k :: m < k < hi && lo <= k ==> s[k] != '\n'
    decreases hi - lo
  {
    if hi == lo then -1 else if s[hi - 1] == '\n' then hi - 1 else LastNewline(s, lo, hi - 1)
  }

  /** End of the separator `/\n\s*\n/` that starts at `s[q]`, or -1 when none
      starts there: the greedy `\s*` gives back characters of the whitespace
      run after `s[q]` until it stops in front of a line feed, so the separator
      ends just after the last line feed of that run. */
  function SeparatorEnd(s: string, q: nat): (e: int)
    requires q < |s|
    ensures e == -1 || q + 2 <= e <= |s|
  {
    if s[q] != '\n' then -1
    else
      var m := LastNewline(s, q + 1, SpaceRunEnd(s, q + 1));
      if m == -1 then -1 else m + 1
  }

  /** `s.split(/\n\s*\n/)`, scanning for separators from `q`, with the current
      piece starting at `start`. */
  function Paragraphs(s: string, start: nat, q: nat): seq<string>
    requires start <= q <= |s|
    decreases |s| - q
  {
    if q == |s| then [s[start..]]
    else
      var e := SeparatorEnd(s, q);
      if e == -1 then Paragraphs(s, start, q + 1)
      else [s[start..q]] + Paragraphs(s, e, e)
  }

  /** `.filter(p => p.trim().length > minChunkLength)`. */
  function LongParagraphs(ps: seq<string>, minLength: nat): seq<string>
  {
    if |ps| == 0 then []
    else (if |Trim(ps[0])| > minLength then [ps[0]] else []) + LongParagraphs(ps[1..], minLength)
  }

  /** The words of a paragraph, `paragraph.trim().split(/\s+/)`, or none
      when the trimmed paragraph is empty. */
  function ParagraphWords(paragraph: string): seq<string>
  {
    var clean := Trim(paragraph);
    if |clean| > 0 then Split(clean) else []
  }

  function AllParagraphWords(paragraphs: seq<string>): (r: seq<seq<string>>)
    ensures |r| == |paragraphs|
  {
    seq(|paragraphs|, q requires 0 <= q < |paragraphs| => ParagraphWords(paragraphs[q]))
  }

  /** The chunks of paragraph `p` (a member of the filtered list) with the
      words `words`, the next one taking index `idx`. */
  function ParagraphChunks(cfg: Config, words: seq<string>, p: nat, idx: nat): seq<Chunk>
  {
    WindowChunks(words, 150, cfg.minChunkLength, Paragraph(p), idx)
  }

  /** The chunks of the paragraphs with the word lists `wordLists[p..]`. */
  function ParagraphsFrom(cfg: Config, wordLists: seq<seq<string>>, p: nat, idx: nat): seq<Chunk>
    decreases if p < |wordLists| then |wordLists| - p else 0
  {
    if p >= |wordLists| then []
    else
      var c := ParagraphChunks(cfg, wordLists[p], p, idx);
      c + ParagraphsFrom(cfg, wordLists, p + 1, idx + |c|)
  }

  /** `fallbackChunking(content, existing)`: 150-word windows of each paragraph
      when the content has more than one long paragraph, otherwise of the
      whole content. */
  function FallbackSpec(cfg: Config, content: string, existing: seq<Chunk>): seq<Chunk>
  {
    var paragraphs := LongParagraphs(Paragraphs(content, 0, 0), cfg.minChunkLength);
    if |paragraphs| > 1 then existing + ParagraphsFrom(cfg, AllParagraphWords(paragraphs), 0, |existing|)
    else existing + WindowChunks(Split(Trim(content)), 150, cfg.minChunkLength, WholeContent, |existing|)
  }

  // ---------------------------------------------------------------------
  // Dispatch

  predicate AnyLong(max: nat, sentences: seq<string>)
  {
    exists k | 0 <= k < |sentences| :: WordCount(sentences[k]) > max
  }

  /** `chunkText(content, title)`. */
  function ChunkSpec(cfg: Config, content: string, title: string): seq<Chunk>
    requires ValidConfig(cfg)
  {
    var titles := TitleChunks(cfg, title);
    var clean := Trim(content);
    if clean == [] then titles
    else
      var sentences := Sentences(cfg, clean);
      if |sentences| == 0 then FallbackSpec(cfg, clean, titles)
      else if AnyLong(cfg.maxWordsPerChunk, sentences) then titles + MixedFrom(cfg, sentences, 0, |titles|)
      else titles + GroupFrom(cfg, sentences, 0, |titles|)
  }

  // ---------------------------------------------------------------------
  // Facts about words and windows

  ghost predicate AllCleanWords(words: seq<string>)
  {
    forall k :: 0 <= k < |words| ==> CleanWord(words[k])
  }

  /** A trimmed sentence longer than 15 characters. */
  ghost predicate GoodSentences(sentences: seq<string>)
  {
    forall k :: 0 <= k < |sentences| ==> Trimmed(sentences[k]) && |sentences[k]| > 15
  }

  /** A chunk whose text is trimmed and non-empty, whose `wordCount` is the
      word count of its text and at most `bound`, and that is not the title. */
  ghost predicate GoodChunk(c: Chunk, bound: nat)
  {
    Trimmed(c.text) && |c.text| > 0 && c.wordCount == WordCount(c.text)
    && c.wordCount <= bound && !c.source.Title?
  }

  lemma SplitClean(s: string)
    requires Trimmed(s) && |s| > 0
    ensures AllCleanWords(Split(s))
  {
    SplitWords(s);
  }

  /** Window `k` is the slice of `size` words (fewer at the end) starting
      `k * step` words after `i`. */
  lemma {:induction false} WindowAt(words: seq<string>, size: nat, step: nat, i: nat)
    requires step > 0
    ensures forall k :: 0 <= k < |Windows(words, size, step, i)| ==>
      i + k * step < |words|
      && Windows(words, size, step, i)[k] == words[i + k * step..Min(i + k * step + size, |words|)]
    decreases if i < |words| then |words| - i else 0
  {
    if i < |words| {
      WindowAt(words, size, step, i + step);
      var ws := Windows(words, size, step, i);
      var rest := Windows(words, size, step, i + step);
      assert ws == [words[i..Min(i + size, |words|)]] + rest;
      forall k | 0 <= k < |ws|
        ensures i + k * step < |words| && ws[k] == words[i + k * step..Min(i + k * step + size, |words|)]
      {
        if k > 0 {
          assert ws[k] == rest[k - 1];
          assert i + k * step == (i + step) + (k - 1) * step;
        }
      }
    }
  }

  /** Windows of clean words are non-empty lists of at most `size` clean
      words. */
  lemma WindowsClean(words: seq<string>, size: nat, step: nat, i: nat)
    requires size > 0 && step > 0
    requires AllCleanWords(words)
    ensures forall k :: 0 <= k < |Windows(words, size, step, i)| ==>
      CleanWords(Windows(words, size, step, i)[k]) && |Windows(words, size, step, i)[k]| <= size
  {
    var ws := Windows(words, size, step, i);
    WindowAt(words, size, step, i);
    forall k | 0 <= k < |ws| ensures CleanWords(ws[k]) && |ws[k]| <= size {
      var a := i + k * step;
      SliceClean(words, a, Min(a + size, |words|));
    }
  }

  lemma SliceClean(words: seq<string>, a: nat, b: nat)
    requires AllCleanWords(words) && a < b <= |words|
    ensures CleanWords(words[a..b]) && |words[a..b]| == b - a
  {
    forall m | 0 <= m < b - a ensures |words[a..b][m]| > 0 && NoSpace(words[a..b][m]) {
      assert words[a..b][m] == words[a + m];
    }
  }

  /** Windows whose step is their size cover the words exactly once, in
      order. */
  lemma {:induction false} WindowsCover(words: seq<string>, size: nat, i: nat)
    requires 0 < size && i <= |words|
    ensures Flatten(Windows(words, size, size, i)) == words[i..]
    decreases |words| - i
  {
    if i < |words| {
      var e := Min(i + size, |words|);
      var ws := Windows(words, size, size, i);
      assert ws == [words[i..e]] + Windows(words, size, size, i + size);
      assert ws[1..] == Windows(words, size, size, i + size);
      if i + size <= |words| {
        WindowsCover(words, size, i + size);
        assert words[i..] == words[i..e] + words[i + size..];
      } else {
        assert words[i..] == words[i..e];
      }
    }
  }

  /** Windows advancing by `step <= size` overlap: the words of window `k`
      from position `step` on are a prefix of window `k + 1`. With the aggressive
      pass's step `maxWordsPerChunk - 5` a full window shares five words with
      the next. */
  lemma WindowsOverlap(words: seq<string>, size: nat, step: nat)
    requires 0 < step <= size
    ensures forall k :: 0 <= k < |Windows(words, size, step, 0)| - 1 ==>
      step <= |Windows(words, size, step, 0)[k]|
      && Windows(words, size, step, 0)[k][step..] <= Windows(words, size, step, 0)[k + 1]
  {
    var ws := Windows(words, size, step, 0);
    WindowAt(words, size, step, 0);
    forall k | 0 <= k < |ws| - 1
      ensures step <= |ws[k]| && ws[k][step..] <= ws[k + 1]
    {
      var a := k * step;
      assert (k + 1) * step == a + step;
      assert ws[k] == words[a..Min(a + size, |words|)];
      assert ws[k + 1] == words[a + step..Min(a + step + size, |words|)];
      assert ws[k][step..] == words[a + step..Min(a + size, |words|)];
    }
  }

  /** The aggressive pass's windows: a full window of an oversized sentence
      ends with the five words the next window starts with. */
  lemma AggressiveOverlap(cfg: Config, words: seq<string>)
    requires cfg.maxWordsPerChunk > 5
    ensures var ws := Windows(words, cfg.maxWordsPerChunk, AggressiveStep(cfg), 0);
      forall k :: 0 <= k < |ws| - 1 && |ws[k]| == cfg.maxWordsPerChunk ==>
        5 <= |ws[k + 1]| && ws[k][cfg.maxWordsPerChunk - 5..] == ws[k + 1][..5]
  {
    var ws := Windows(words, cfg.maxWordsPerChunk, AggressiveStep(cfg), 0);
    WindowsOverlap(words, cfg.maxWordsPerChunk, AggressiveStep(cfg));
    forall k | 0 <= k < |ws| - 1 && |ws[k]| == cfg.maxWordsPerChunk
      ensures 5 <= |ws[k + 1]| && ws[k][cfg.maxWordsPerChunk - 5..] == ws[k + 1][..5]
    {
      assert ws[k][AggressiveStep(cfg)..] <= ws[k + 1];
    }
  }

  /** The cursor of the aggressive pass's window loop after `n` rounds, as
      written: it advances by `maxWordsPerChunk - 5`, which is not positive
      when `maxWordsPerChunk` is at most 5. */
  function AsWrittenCursor(cfg: Config, n: nat): int
  {
    if n == 0 then 0 else AsWrittenCursor(cfg, n - 1) + (cfg.maxWordsPerChunk - 5)
  }

  /** With `maxWordsPerChunk <= 5` the loop over an oversized sentence never
      ends: after any number of rounds the cursor is still inside the list of
      words. */
  lemma {:induction false} AsWrittenCursorStalls(cfg: Config, words: seq<string>, n: nat)
    requires cfg.maxWordsPerChunk <= 5 && |words| > cfg.maxWordsPerChunk
    ensures AsWrittenCursor(cfg, n) < |words|
    ensures AsWrittenCursor(cfg, n) <= 0
  {
    if n > 0 {
      AsWrittenCursorStalls(cfg, words, n - 1);
    }
  }

  /** Every chunk kept from windows is longer than `minLength` characters and
      carries the window kind's source; the windows of an oversized sentence
      share the index `idx`, other windows number the kept chunks from `idx`. */
  lemma {:induction false} KeepWindowsIndices(ws: seq<seq<string>>, minLength: nat, kind: WindowKind, j: nat, idx: nat)
    ensures |KeepWindows(ws, minLength, kind, j, idx)| <= |ws|
    ensures forall m :: 0 <= m < |KeepWindows(ws, minLength, kind, j, idx)| ==>
      |KeepWindows(ws, minLength, kind, j, idx)[m].text| > minLength
      && KeepWindows(ws, minLength, kind, j, idx)[m].index == (if kind.LongSentence? then idx else idx + m)
      && OfKind(KeepWindows(ws, minLength, kind, j, idx)[m].source, kind)
  {
    if |ws| > 0 {
      var r := KeepWindows(ws, minLength, kind, j, idx);
      if |Join(ws[0])| > minLength {
        KeepWindowsIndices(ws[1..], minLength, kind, j + 1, NextIndex(kind, idx));
        var rest := KeepWindows(ws[1..], minLength, kind, j + 1, NextIndex(kind, idx));
        assert r == [r[0]] + rest;
        forall m | 0 < m < |r|
          ensures |r[m].text| > minLength && OfKind(r[m].source, kind)
          ensures r[m].index == (if kind.LongSentence? then idx else idx + m)
        {
          assert r[m] == rest[m - 1];
        }
      } else {
        KeepWindowsIndices(ws[1..], minLength, kind, j + 1, idx);
      }
    }
  }

  /** Chunks kept from windows of clean words are good chunks: the word count
      they report is that of their text, and at most the window size. */
  lemma {:induction false} KeepWindowsWords(ws: seq<seq<string>>, size: nat, minLength: nat, kind: WindowKind, j: nat, idx: nat)
    requires forall k :: 0 <= k < |ws| ==> CleanWords(ws[k]) && |ws[k]| <= size
    ensures forall c :: c in KeepWindows(ws, minLength, kind, j, idx) ==> GoodChunk(c, size)
  {
    if |ws| > 0 {
      KeepWindowsWords(ws[1..], size, minLength, kind, j + 1, NextIndex(kind, idx));
      KeepWindowsWords(ws[1..], size, minLength, kind, j + 1, idx);
      JoinTrimmed(ws[0]);
      WordCountOfJoin(ws[0]);
    }
  }

  /** The kept part numbers lie within the parts of `ws` and increase. */
  lemma {:induction false} KeptPartsIncrease(ws: seq<seq<string>>, minLength: nat, j: nat)
    ensures forall m :: 0 <= m < |KeptParts(ws, minLength, j)| ==>
      j <= KeptParts(ws, minLength, j)[m] < j + |ws|
    ensures forall m, m' :: 0 <= m < m' < |KeptParts(ws, minLength, j)| ==>
      KeptParts(ws, minLength, j)[m] < KeptParts(ws, minLength, j)[m']
  {
    if |ws| > 0 {
      KeptPartsIncrease(ws[1..], minLength, j + 1);
      var p := KeptParts(ws, minLength, j);
      var q := KeptParts(ws[1..], minLength, j + 1);
      if |Join(ws[0])| > minLength {
        assert p == [j] + q;
        forall m | 0 < m < |p| ensures p[m] == q[m - 1] { }
      } else {
        assert p == q;
      }
    }
  }

  /** A part is kept exactly when its window's text is longer than
      `minLength`. */
  lemma {:induction false} KeptPartsExact(ws: seq<seq<string>>, minLength: nat, j: nat)
    ensures forall k :: 0 <= k < |ws| ==> (j + k in KeptParts(ws, minLength, j) <==> |Join(ws[k])| > minLength)
  {
    if |ws| > 0 {
      KeptPartsExact(ws[1..], minLength, j + 1);
      KeptPartsIncrease(ws[1..], minLength, j + 1);
      var p := KeptParts(ws, minLength, j);
      var q := KeptParts(ws[1..], minLength, j + 1);
      assert p == (if |Join(ws[0])| > minLength then [j] else []) + q;
      assert j !in q;
      forall k | 0 < k < |ws| ensures (j + k in p <==> |Join(ws[k])| > minLength) {
        assert ws[1..][k - 1] == ws[k];
        assert j + k == (j + 1) + (k - 1);
      }
    }
  }

  /** Chunk `m` of `r` is made from the window of `ws` with part number
      `p[m]`, the first window being part `j`: it has that window's text and
      word count, and a source naming that part. */
  ghost predicate PickedFrom(r: seq<Chunk>, p: seq<nat>, ws: seq<seq<string>>, kind: WindowKind, j: nat)
  {
    |r| == |p|
    && forall m :: 0 <= m < |p| ==>
      j <= p[m] < j + |ws|
      && r[m].text == Join(ws[p[m] - j]) && r[m].source == WindowSource(kind, p[m]) && r[m].wordCount == |ws[p[m] - j]|
  }

  lemma PickedCons(c: Chunk, rest: seq<Chunk>, q: seq<nat>, ws: seq<seq<string>>, kind: WindowKind, j: nat)
    requires |ws| > 0 && PickedFrom(rest, q, ws[1..], kind, j + 1)
    requires c.text == Join(ws[0]) && c.source == WindowSource(kind, j) && c.wordCount == |ws[0]|
    ensures PickedFrom([c] + rest, [j] + q, ws, kind, j)
  {
    var r := [c] + rest;
    var p := [j] + q;
    forall m | 0 < m < |p|
      ensures j <= p[m] < j + |ws|
      ensures r[m].text == Join(ws[p[m] - j]) && r[m].source == WindowSource(kind, p[m]) && r[m].wordCount == |ws[p[m] - j]|
    {
      assert r[m] == rest[m - 1] && p[m] == q[m - 1];
      assert ws[1..][q[m - 1] - (j + 1)] == ws[p[m] - j];
    }
  }

  lemma PickedSkip(rest: seq<Chunk>, q: seq<nat>, ws: seq<seq<string>>, kind: WindowKind, j: nat)
    requires |ws| > 0 && PickedFrom(rest, q, ws[1..], kind, j + 1)
    ensures PickedFrom(rest, q, ws, kind, j)
  {
    forall m | 0 <= m < |q|
      ensures j <= q[m] < j + |ws|
      ensures rest[m].text == Join(ws[q[m] - j]) && rest[m].wordCount == |ws[q[m] - j]|
    {
      assert ws[1..][q[m] - (j + 1)] == ws[q[m] - j];
    }
  }

  /** The filter of a window loop: kept chunk `m` is made from the window
      with part number `p[m]`, with that window's text and word count, where
      `p` is `KeptParts`. Part numbers count every window, kept or not. */
  lemma {:induction false} KeepWindowsPick(ws: seq<seq<string>>, minLength: nat, kind: WindowKind, j: nat, idx: nat)
    ensures PickedFrom(KeepWindows(ws, minLength, kind, j, idx), KeptParts(ws, minLength, j), ws, kind, j)
  {
    if |ws| > 0 {
      if |Join(ws[0])| > minLength {
        var c := Chunk(Join(ws[0]), WindowSource(kind, j), idx, |ws[0]|);
        var rest := KeepWindows(ws[1..], minLength, kind, j + 1, NextIndex(kind, idx));
        var q := KeptParts(ws[1..], minLength, j + 1);
        KeepWindowsPick(ws[1..], minLength, kind, j + 1, NextIndex(kind, idx));
        PickedCons(c, rest, q, ws, kind, j);
        assert KeepWindows(ws, minLength, kind, j, idx) == [c] + rest;
        assert KeptParts(ws, minLength, j) == [j] + q;
      } else {
        var rest := KeepWindows(ws[1..], minLength, kind, j + 1, idx);
        var q := KeptParts(ws[1..], minLength, j + 1);
        KeepWindowsPick(ws[1..], minLength, kind, j + 1, idx);
        PickedSkip(rest, q, ws, kind, j);
        assert KeepWindows(ws, minLength, kind, j, idx) == rest;
        assert KeptParts(ws, minLength, j) == q;
      }
    }
  }

  /** The chunks of an oversized sentence, of a paragraph or of the whole
      content: good chunks of at most `size` words, longer than `minLength`
      characters, with the window kind's source and index rule. */
  lemma WindowChunksGood(words: seq<string>, size: nat, minLength: nat, kind: WindowKind, idx: nat)
    requires size > 0 && AllCleanWords(words)
    ensures forall m :: 0 <= m < |WindowChunks(words, size, minLength, kind, idx)| ==>
      GoodChunk(WindowChunks(words, size, minLength, kind, idx)[m], size)
      && |WindowChunks(words, size, minLength, kind, idx)[m].text| > minLength
      && WindowChunks(words, size, minLength, kind, idx)[m].index == (if kind.LongSentence? then idx else idx + m)
      && OfKind(WindowChunks(words, size, minLength, kind, idx)[m].source, kind)
  {
    var ws := Windows(words, size, size, 0);
    WindowsClean(words, size, size, 0);
    KeepWindowsWords(ws, size, minLength, kind, 0, idx);
    KeepWindowsIndices(ws, minLength, kind, 0, idx);
    var r := WindowChunks(words, size, minLength, kind, idx);
    forall m | 0 <= m < |r| ensures GoodChunk(r[m], size) {
      assert r[m] in r;
    }
  }

  /** The chunks of a window loop in full: the facts of `WindowChunksGood`,
      and moreover window `k` is `words.slice(k * size, k * size + size)`,
      and kept chunk `m` is made from window `p[m]` with part number `p[m]`,
      where `p` lists in increasing order exactly the windows whose text is
      longer than `minLength`. */
  lemma WindowChunksFacts(words: seq<string>, size: nat, minLength: nat, kind: WindowKind, idx: nat)
    requires size > 0 && AllCleanWords(words)
    ensures forall m :: 0 <= m < |WindowChunks(words, size, minLength, kind, idx)| ==>
      GoodChunk(WindowChunks(words, size, minLength, kind, idx)[m], size)
      && |WindowChunks(words, size, minLength, kind, idx)[m].text| > minLength
      && WindowChunks(words, size, minLength, kind, idx)[m].index == (if kind.LongSentence? then idx else idx + m)
      && OfKind(WindowChunks(words, size, minLength, kind, idx)[m].source, kind)
    ensures var ws := Windows(words, size, size, 0);
      forall k :: 0 <= k < |ws| ==> k * size < |words| && ws[k] == words[k * size..Min(k * size + size, |words|)]
    ensures var ws := Windows(words, size, size, 0);
      var p := KeptParts(ws, minLength, 0);
      PickedFrom(WindowChunks(words, size, minLength, kind, idx), p, ws, kind, 0)
      && (forall m, m' :: 0 <= m < m' < |p| ==> p[m] < p[m'])
      && (forall k :: 0 <= k < |ws| ==> (k in p <==> |Join(ws[k])| > minLength))
  {
    var ws := Windows(words, size, size, 0);
    WindowChunksGood(words, size, minLength, kind, idx);
    WindowAt(words, size, size, 0);
    KeepWindowsPick(ws, minLength, kind, 0, idx);
    KeptPartsIncrease(ws, minLength, 0);
    KeptPartsExact(ws, minLength, 0);
  }

  // ---------------------------------------------------------------------
  // Sentence splitting

  lemma {:induction false} CleanPiecesClean(pieces: seq<string>)
    ensures GoodSentences(CleanPieces(pieces))
  {
    if |pieces| > 0 {
      CleanPiecesClean(pieces[1..]);
      TrimTrims(pieces[0]);
      var r := CleanPieces(pieces);
      var rest := CleanPieces(pieces[1..]);
      if |Trim(pieces[0])| > 15 {
        assert r == [Trim(pieces[0])] + rest;
        forall k | 0 < k < |r| ensures Trimmed(r[k]) && |r[k]| > 15 {
          assert r[k] == rest[k - 1];
        }
      }
    }
  }

  lemma {:induction false} LongTextsClean(ws: seq<seq<string>>)
    requires forall k :: 0 <= k < |ws| ==> CleanWords(ws[k])
    ensures GoodSentences(LongTexts(ws))
  {
    if |ws| > 0 {
      LongTextsClean(ws[1..]);
      JoinTrimmed(ws[0]);
      var r := LongTexts(ws);
      var rest := LongTexts(ws[1..]);
      if |Join(ws[0])| > 15 {
        assert r == [Join(ws[0])] + rest;
        forall k | 0 < k < |r| ensures Trimmed(r[k]) && |r[k]| > 15 {
          assert r[k] == rest[k - 1];
        }
      }
    }
  }

  lemma {:induction false} ExpandFromClean(cfg: Config, sentences: seq<string>, k: nat)
    requires ValidConfig(cfg) && GoodSentences(sentences)
    ensures GoodSentences(ExpandFrom(cfg, sentences, k))
    decreases if k < |sentences| then |sentences| - k else 0
  {
    if k < |sentences| {
      ExpandFromClean(cfg, sentences, k + 1);
      var s := sentences[k];
      var e := ExpandSentence(cfg, s);
      var words := Split(s);
      if |words| > cfg.maxWordsPerChunk {
        SplitClean(s);
        WindowsClean(words, cfg.maxWordsPerChunk, AggressiveStep(cfg), 0);
        LongTextsClean(Windows(words, cfg.maxWordsPerChunk, AggressiveStep(cfg), 0));
      }
      var rest := ExpandFrom(cfg, sentences, k + 1);
      var r := ExpandFrom(cfg, sentences, k);
      assert r == e + rest;
      forall m | 0 <= m < |r| ensures Trimmed(r[m]) && |r[m]| > 15 {
        if m >= |e| {
          assert r[m] == rest[m - |e|];
        } else {
          assert r[m] == e[m];
        }
      }
    }
  }

  /** Every sentence `splitIntoSentences` returns, from either pass, is
      trimmed and longer than 15 characters. */
  lemma SentencesClean(cfg: Config, content: string)
    requires ValidConfig(cfg)
    ensures GoodSentences(Sentences(cfg, content))
  {
    CleanPiecesClean(Segments(content, false, 0, 0));
    CleanPiecesClean(Segments(content, true, 0, 0));
    ExpandFromClean(cfg, AggressivePieces(content), 0);
  }

  // ---------------------------------------------------------------------
  // Grouping

  /** The text of a group of trimmed sentences is trimmed, empty only for no
      sentences, and has as many words as the sentences together. */
  lemma {:induction false} GroupTextFacts(sentences: seq<string>, i: nat, e: nat)
    requires i <= e <= |sentences| && GoodSentences(sentences)
    ensures e == i ==> GroupText(sentences, i, e) == ""
    ensures e > i ==> (Trimmed(GroupText(sentences, i, e)) && |GroupText(sentences, i, e)| > 0
      && WordCount(GroupText(sentences, i, e)) == GroupWords(sentences, i, e))
    decreases e - i
  {
    if e > i {
      var t := GroupText(sentences, i, e - 1);
      var s := sentences[e - 1];
      GroupTextFacts(sentences, i, e - 1);
      if e - 1 > i {
        SplitAppend(t, s);
        var u := t + " " + s;
        assert u[0] == t[0];
        assert u[|u| - 1] == s[|s| - 1];
      }
    }
  }

  /** The group ends no earlier than where the search stands and holds no more
      than `max` words when no sentence has more. */
  lemma {:induction false} GatherEndBound(max: nat, sentences: seq<string>, i: nat, j: nat, wc: nat)
    requires i <= j <= |sentences|
    requires forall k :: 0 <= k < |sentences| ==> WordCount(sentences[k]) <= max
    requires wc == GroupWords(sentences, i, j) && wc <= max
    ensures GroupWords(sentences, i, GatherEnd(max, sentences, j, wc)) <= max
    decreases |sentences| - j
  {
    var e := GatherEnd(max, sentences, j, wc);
    if j < |sentences| && wc < max {
      var sw := WordCount(sentences[j]);
      if wc + sw > max && wc > 0 {
        assert e == j;
      } else {
        assert sw <= max;
        var e' := GatherEnd(max, sentences, j + 1, wc + sw);
        assert e == e';
        GroupWordsNext(sentences, i, j, wc);
        GatherEndBound(max, sentences, i, j + 1, wc + sw);
      }
    } else {
      assert e == j;
    }
  }

  lemma GroupWordsNext(sentences: seq<string>, i: nat, j: nat, wc: nat)
    requires i <= j < |sentences| && wc == GroupWords(sentences, i, j)
    ensures GroupWords(sentences, i, j + 1) == wc + WordCount(sentences[j])
  {
  }

  /** The cursor: each group takes at least one sentence, and the next group
      starts after the current one's start and no later than its end,
      `overlapSentences` sentences before the end when the group is longer
      than that. So the grouping loop always advances. */
  lemma GroupCursor(cfg: Config, sentences: seq<string>, i: nat)
    requires ValidConfig(cfg) && i < |sentences|
    ensures var e := GroupEnd(cfg, sentences, i);
      var next := NextStart(cfg, i, e - i);
      i < e && i < next <= e
      && (e - i > cfg.overlapSentences ==> next == e - cfg.overlapSentences)
  {
    assert GroupEnd(cfg, sentences, i) == GatherEnd(cfg.maxWordsPerChunk, sentences, i + 1, WordCount(sentences[i]));
  }

  /** A chunk of the grouping path. */
  ghost predicate GroupChunk(cfg: Config, c: Chunk)
  {
    GoodChunk(c, cfg.maxWordsPerChunk) && |c.text| > cfg.minChunkLength && c.source == ContentChunk(c.index)
  }

  lemma GroupEmittedFacts(cfg: Config, sentences: seq<string>, i: nat, idx: nat)
    requires ValidConfig(cfg) && i <= |sentences| && GoodSentences(sentences)
    requires forall k :: 0 <= k < |sentences| ==> WordCount(sentences[k]) <= cfg.maxWordsPerChunk
    ensures |GroupEmitted(cfg, sentences, i, idx)| <= 1
    ensures GroupChunksAt(cfg, GroupEmitted(cfg, sentences, i, idx), idx)
  {
    var e := GroupEnd(cfg, sentences, i);
    GroupTextFacts(sentences, i, e);
    GatherEndBound(cfg.maxWordsPerChunk, sentences, i, i, 0);
    var text := GroupText(sentences, i, e);
    TrimTrims(text);
    var em := GroupEmitted(cfg, sentences, i, idx);
    assert em == [] || (|em| == 1 && GroupChunk(cfg, em[0]) && em[0].index == idx);
  }

  lemma {:induction false} GroupFromUnfold(cfg: Config, sentences: seq<string>, i: nat, idx: nat)
    requires i < |sentences|
    ensures GroupFrom(cfg, sentences, i, idx)
      == GroupEmitted(cfg, sentences, i, idx)
         + GroupFrom(cfg, sentences, GroupNext(cfg, sentences, i), idx + |GroupEmitted(cfg, sentences, i, idx)|)
  {
  }

  /** Grouping-path chunks numbered consecutively from `idx`. */
  ghost predicate GroupChunksAt(cfg: Config, cs: seq<Chunk>, idx: nat)
  {
    forall m :: 0 <= m < |cs| ==> GroupChunk(cfg, cs[m]) && cs[m].index == idx + m
  }

  lemma GroupChunksAppend(cfg: Config, a: seq<Chunk>, b: seq<Chunk>, r: seq<Chunk>, idx: nat, n: nat)
    requires n == |a| && GroupChunksAt(cfg, a, idx) && GroupChunksAt(cfg, b, idx + n) && r == a + b
    ensures GroupChunksAt(cfg, r, idx)
  {
    forall m | 0 <= m < |r| ensures GroupChunk(cfg, r[m]) && r[m].index == idx + m {
      if m >= |a| {
        assert r[m] == b[m - |a|];
      } else {
        assert r[m] == a[m];
      }
    }
  }

  /** On the grouping path (no sentence over the limit) every chunk is a good
      chunk of at most `maxWordsPerChunk` words, longer than `minChunkLength`
      characters, and the chunks are numbered consecutively from `idx` with
      matching `content_chunk_` sources. */
  lemma {:induction false} GroupChunks(cfg: Config, sentences: seq<string>, i: nat, idx: nat)
    requires ValidConfig(cfg) && i <= |sentences| && GoodSentences(sentences)
    requires forall k :: 0 <= k < |sentences| ==> WordCount(sentences[k]) <= cfg.maxWordsPerChunk
    ensures GroupChunksAt(cfg, GroupFrom(cfg, sentences, i, idx), idx)
    decreases |sentences| - i
  {
    if i < |sentences| {
      var n := |GroupEmitted(cfg, sentences, i, idx)|;
      GroupChunks(cfg, sentences, GroupNext(cfg, sentences, i), idx + n);
      GroupChunksStep(cfg, sentences, i, idx, n);
    }
  }

  /** One step of `GroupChunks`: the group at `i` followed by the chunks from
      the next cursor position. */
  lemma GroupChunksStep(cfg: Config, sentences: seq<string>, i: nat, idx: nat, n: nat)
    requires ValidConfig(cfg) && i < |sentences| && GoodSentences(sentences)
    requires forall k :: 0 <= k < |sentences| ==> WordCount(sentences[k]) <= cfg.maxWordsPerChunk
    requires n == |GroupEmitted(cfg, sentences, i, idx)|
    requires GroupChunksAt(cfg, GroupFrom(cfg, sentences, GroupNext(cfg, sentences, i), idx + n), idx + n)
    ensures GroupChunksAt(cfg, GroupFrom(cfg, sentences, i, idx), idx)
  {
    var emitted := GroupEmitted(cfg, sentences, i, idx);
    GroupEmittedFacts(cfg, sentences, i, idx);
    var next := GroupNext(cfg, sentences, i);
    GroupFromUnfold(cfg, sentences, i, idx);
    GroupChunksAppend(cfg, emitted, GroupFrom(cfg, sentences, next, idx + n), GroupFrom(cfg, sentences, i, idx), idx, n);
  }

  // ---------------------------------------------------------------------
  // Mixed chunking

  /** A sentence within the limit becomes exactly one `sentence_chunk_`; an
      oversized one becomes chunks of its word windows, which cover its
      words. Either way the chunks are good chunks of at most
      `maxWordsPerChunk` words that all carry the sentence's index. */
  lemma SentenceChunksGood(cfg: Config, s: string, idx: nat)
    requires ValidConfig(cfg) && Trimmed(s) && |s| > 0
    ensures WordCount(s) <= cfg.maxWordsPerChunk ==>
      SentenceChunks(cfg, s, idx) == [Chunk(s, SentenceChunk(idx), idx, WordCount(s))]
    ensures WordCount(s) > cfg.maxWordsPerChunk ==>
      Flatten(Windows(Split(s), cfg.maxWordsPerChunk, cfg.maxWordsPerChunk, 0)) == Split(s)
    ensures forall m :: 0 <= m < |SentenceChunks(cfg, s, idx)| ==>
      GoodChunk(SentenceChunks(cfg, s, idx)[m], cfg.maxWordsPerChunk)
      && SentenceChunks(cfg, s, idx)[m].index == idx
  {
    TrimTrims(s);
    var words := Split(s);
    if |words| > cfg.maxWordsPerChunk {
      SplitClean(s);
      WindowChunksGood(words, cfg.maxWordsPerChunk, cfg.minChunkLength, LongSentence(idx), idx);
      WindowsCover(words, cfg.maxWordsPerChunk, 0);
    }
  }

  /** The chunks of one sentence in full: the facts of `SentenceChunksGood`,
      and moreover an oversized sentence's chunks are exactly its windows
      longer than `minChunkLength`, in order: kept chunk `m` is window
      `p[m]`'s text and word count with source
      `long_sentence_{idx}_part_{p[m]}`, where `p` lists those windows in
      increasing order. */
  lemma SentenceChunksFacts(cfg: Config, s: string, idx: nat)
    requires ValidConfig(cfg) && Trimmed(s) && |s| > 0
    ensures WordCount(s) <= cfg.maxWordsPerChunk ==>
      SentenceChunks(cfg, s, idx) == [Chunk(s, SentenceChunk(idx), idx, WordCount(s))]
    ensures WordCount(s) > cfg.maxWordsPerChunk ==>
      Flatten(Windows(Split(s), cfg.maxWordsPerChunk, cfg.maxWordsPerChunk, 0)) == Split(s)
    ensures forall m :: 0 <= m < |SentenceChunks(cfg, s, idx)| ==>
      GoodChunk(SentenceChunks(cfg, s, idx)[m], cfg.maxWordsPerChunk)
      && SentenceChunks(cfg, s, idx)[m].index == idx
    ensures WordCount(s) > cfg.maxWordsPerChunk ==>
      var ws := Windows(Split(s), cfg.maxWordsPerChunk, cfg.maxWordsPerChunk, 0);
      var p := KeptParts(ws, cfg.minChunkLength, 0);
      PickedFrom(SentenceChunks(cfg, s, idx), p, ws, LongSentence(idx), 0)
      && (forall m, m' :: 0 <= m < m' < |p| ==> p[m] < p[m'])
      && (forall k :: 0 <= k < |ws| ==> (k in p <==> |Join(ws[k])| > cfg.minChunkLength))
  {
    SentenceChunksGood(cfg, s, idx);
    var words := Split(s);
    if |words| > cfg.maxWordsPerChunk {
      TrimTrims(s);
      SplitClean(s);
      WindowChunksFacts(words, cfg.maxWordsPerChunk, cfg.minChunkLength, LongSentence(idx), idx);
    }
  }

  /** Flattening distributes over concatenation. */
  lemma {:induction false} FlattenAppend<T>(a: seq<seq<T>>, b: seq<seq<T>>)
    ensures Flatten(a + b) == Flatten(a) + Flatten(b)
  {
    if |a| > 0 {
      FlattenAppend(a[1..], b);
      assert (a + b)[1..] == a[1..] + b;
      Regroup(a[0], a[0] + Flatten(a[1..]), Flatten(a[1..]), Flatten(b), Flatten(a[1..] + b));
    } else {
      assert a + b == b;
    }
  }

  /** Flattening picks out any one list whole, between the lists before it
      and the lists after it. */
  lemma FlattenSplit<T>(parts: seq<seq<T>>, d: nat)
    requires d < |parts|
    ensures Flatten(parts) == Flatten(parts[..d]) + parts[d] + Flatten(parts[d + 1..])
  {
    var own, before, after := parts[d], parts[..d], parts[d + 1..];
    assert parts == before + parts[d..];
    assert parts[d..] == [own] + after;
    FlattenAppend(before, [own] + after);
    FlattenAppend([own], after);
    assert Flatten([own]) == own by {
      assert [own][1..] == [];
    }
    Regroup(Flatten(before), Flatten(before) + own, own, Flatten(after), Flatten([own] + after));
  }

  /** Mixed chunking emits one chunk list per sentence from sentence `k`
      on. */
  lemma {:induction false} MixedPartsLength(cfg: Config, sentences: seq<string>, k: nat, idx: nat)
    requires ValidConfig(cfg) && k <= |sentences|
    ensures |MixedParts(cfg, sentences, k, idx)| == |sentences| - k
    decreases |sentences| - k
  {
    if k < |sentences| {
      MixedPartsLength(cfg, sentences, k + 1, idx + 1);
    }
  }

  /** The list mixed chunking emits for sentence `j` is that sentence's
      `SentenceChunks` at index `idx + (j - k)`, whatever the sentences
      before it emitted. */
  lemma {:induction false} MixedPartAt(cfg: Config, sentences: seq<string>, k: nat, j: nat, idx: nat)
    requires ValidConfig(cfg) && k <= j < |sentences|
    ensures j - k < |MixedParts(cfg, sentences, k, idx)|
    ensures MixedParts(cfg, sentences, k, idx)[j - k] == SentenceChunks(cfg, sentences[j], idx + (j - k))
    decreases j - k
  {
    MixedPartsLength(cfg, sentences, k, idx);
    if j > k {
      MixedPartAt(cfg, sentences, k + 1, j, idx + 1);
      var rest := MixedParts(cfg, sentences, k + 1, idx + 1);
      assert MixedParts(cfg, sentences, k, idx) == [SentenceChunks(cfg, sentences[k], idx)] + rest;
      assert j - (k + 1) == j - k - 1 && (idx + 1) + (j - (k + 1)) == idx + (j - k);
    }
  }

  /** The chunks of mixed chunking are its per-sentence lists, concatenated
      in sentence order. */
  lemma {:induction false} MixedFromParts(cfg: Config, sentences: seq<string>, k: nat, idx: nat)
    requires ValidConfig(cfg)
    ensures MixedFrom(cfg, sentences, k, idx) == Flatten(MixedParts(cfg, sentences, k, idx))
    decreases if k < |sentences| then |sentences| - k else 0
  {
    if k < |sentences| {
      MixedFromParts(cfg, sentences, k + 1, idx + 1);
      var c := SentenceChunks(cfg, sentences[k], idx);
      var parts := MixedParts(cfg, sentences, k, idx);
      assert parts == [c] + MixedParts(cfg, sentences, k + 1, idx + 1);
      assert parts[0] == c && parts[1..] == MixedParts(cfg, sentences, k + 1, idx + 1);
      assert MixedFrom(cfg, sentences, k, idx) == c + MixedFrom(cfg, sentences, k + 1, idx + 1);
    }
  }

  /** Sentence `k'` of mixed chunking contributes exactly its own chunks at
      index `idx + (k' - k)`, between the chunks of the sentences before it
      and those of the sentences after it. */
  lemma MixedSplit(cfg: Config, sentences: seq<string>, k: nat, k': nat, idx: nat)
    requires ValidConfig(cfg) && k <= k' < |sentences|
    ensures var parts := MixedParts(cfg, sentences, k, idx);
      |parts| == |sentences| - k
      && MixedFrom(cfg, sentences, k, idx)
        == Flatten(parts[..k' - k]) + SentenceChunks(cfg, sentences[k'], idx + (k' - k)) + Flatten(parts[k' - k + 1..])
  {
    MixedFromParts(cfg, sentences, k, idx);
    MixedPartsLength(cfg, sentences, k, idx);
    MixedPartAt(cfg, sentences, k, k', idx);
    FlattenSplit(MixedParts(cfg, sentences, k, idx), k' - k);
  }

  /** Mixed chunking: sentence `k` contributes chunks with index `idx + k`
      (`MixedSplit`), so indices never decrease and stay below `idx` plus the
      number of sentences; every chunk is a good chunk within the word
      limit. */
  lemma {:induction false} MixedChunks(cfg: Config, sentences: seq<string>, k: nat, idx: nat)
    requires ValidConfig(cfg) && GoodSentences(sentences)
    ensures forall m :: 0 <= m < |MixedFrom(cfg, sentences, k, idx)| ==>
      GoodChunk(MixedFrom(cfg, sentences, k, idx)[m], cfg.maxWordsPerChunk)
      && idx <= MixedFrom(cfg, sentences, k, idx)[m].index < idx + |sentences| - k
    ensures forall m, m' :: 0 <= m < m' < |MixedFrom(cfg, sentences, k, idx)| ==>
      MixedFrom(cfg, sentences, k, idx)[m].index <= MixedFrom(cfg, sentences, k, idx)[m'].index
    decreases if k < |sentences| then |sentences| - k else 0
  {
    if k < |sentences| {
      MixedChunks(cfg, sentences, k + 1, idx + 1);
      SentenceChunksGood(cfg, sentences[k], idx);
      var c := SentenceChunks(cfg, sentences[k], idx);
      var rest := MixedFrom(cfg, sentences, k + 1, idx + 1);
      var r := MixedFrom(cfg, sentences, k, idx);
      assert r == c + rest;
      forall m | 0 <= m < |r|
        ensures GoodChunk(r[m], cfg.maxWordsPerChunk) && idx <= r[m].index < idx + |sentences| - k
      {
        if m >= |c| { assert r[m] == rest[m - |c|]; } else { assert r[m] == c[m]; }
      }
      forall m, m' | 0 <= m < m' < |r| ensures r[m].index <= r[m'].index {
        if m >= |c| {
          assert r[m] == rest[m - |c|] && r[m'] == rest[m' - |c|];
        } else if m' >= |c| {
          assert r[m] == c[m] && r[m'] == rest[m' - |c|];
        } else {
          assert r[m] == c[m] && r[m'] == c[m'];
        }
      }
    }
  }

  // ---------------------------------------------------------------------
  // Fallback

  /** Paragraph-path chunks numbered consecutively from `idx`. */
  ghost predicate ParagraphChunksAt(cfg: Config, cs: seq<Chunk>, idx: nat)
  {
    forall m :: 0 <= m < |cs| ==>
      GoodChunk(cs[m], 150) && |cs[m].text| > cfg.minChunkLength
      && cs[m].index == idx + m && cs[m].source.ParagraphChunk?
  }

  lemma ParagraphChunksAppend(cfg: Config, a: seq<Chunk>, b: seq<Chunk>, r: seq<Chunk>, idx: nat)
    requires ParagraphChunksAt(cfg, a, idx) && ParagraphChunksAt(cfg, b, idx + |a|) && r == a + b
    ensures ParagraphChunksAt(cfg, r, idx)
  {
    forall m | 0 <= m < |r|
      ensures GoodChunk(r[m], 150) && |r[m].text| > cfg.minChunkLength
        && r[m].index == idx + m && r[m].source.ParagraphChunk?
    {
      if m < |a| { assert r[m] == a[m]; } else { assert r[m] == b[m - |a|]; }
    }
  }

  lemma ParagraphWordsClean(paragraph: string)
    ensures AllCleanWords(ParagraphWords(paragraph))
  {
    var clean := Trim(paragraph);
    if |clean| > 0 {
      TrimTrims(paragraph);
      SplitClean(clean);
    }
  }

  lemma ParagraphChunksFacts(cfg: Config, words: seq<string>, p: nat, idx: nat)
    requires AllCleanWords(words)
    ensures ParagraphChunksAt(cfg, ParagraphChunks(cfg, words, p, idx), idx)
  {
    WindowChunksGood(words, 150, cfg.minChunkLength, Paragraph(p), idx);
  }

  lemma {:induction false} ParagraphsChunks(cfg: Config, wordLists: seq<seq<string>>, p: nat, idx: nat)
    requires forall q :: 0 <= q < |wordLists| ==> AllCleanWords(wordLists[q])
    ensures ParagraphChunksAt(cfg, ParagraphsFrom(cfg, wordLists, p, idx), idx)
    decreases if p < |wordLists| then |wordLists| - p else 0
  {
    if p < |wordLists| {
      var c := ParagraphChunks(cfg, wordLists[p], p, idx);
      ParagraphChunksFacts(cfg, wordLists[p], p, idx);
      ParagraphsChunks(cfg, wordLists, p + 1, idx + |c|);
      ParagraphChunksAppend(cfg, c, ParagraphsFrom(cfg, wordLists, p + 1, idx + |c|),
                            ParagraphsFrom(cfg, wordLists, p, idx), idx);
    }
  }

  /** The fallback keeps the existing chunks and appends good chunks of at
      most 150 words, each longer than `minChunkLength` characters, numbered
      on from the existing ones. */
  lemma FallbackChunks(cfg: Config, content: string, existing: seq<Chunk>)
    requires |Trim(content)| > 0
    ensures |FallbackSpec(cfg, content, existing)| >= |existing|
    ensures FallbackSpec(cfg, content, existing)[..|existing|] == existing
    ensures forall m :: |existing| <= m < |FallbackSpec(cfg, content, existing)| ==>
      GoodChunk(FallbackSpec(cfg, content, existing)[m], 150)
      && |FallbackSpec(cfg, content, existing)[m].text| > cfg.minChunkLength
      && FallbackSpec(cfg, content, existing)[m].index == m
  {
    var paragraphs := LongParagraphs(Paragraphs(content, 0, 0), cfg.minChunkLength);
    var r := FallbackSpec(cfg, content, existing);
    var added := if |paragraphs| > 1 then ParagraphsFrom(cfg, AllParagraphWords(paragraphs), 0, |existing|)
      else WindowChunks(Split(Trim(content)), 150, cfg.minChunkLength, WholeContent, |existing|);
    assert r == existing + added;
    if |paragraphs| > 1 {
      var wordLists := AllParagraphWords(paragraphs);
      forall q | 0 <= q < |wordLists| ensures AllCleanWords(wordLists[q]) {
        ParagraphWordsClean(paragraphs[q]);
      }
      ParagraphsChunks(cfg, wordLists, 0, |existing|);
    } else {
      TrimTrims(content);
      SplitClean(Trim(content));
      WindowChunksGood(Split(Trim(content)), 150, cfg.minChunkLength, WholeContent, |existing|);
    }
    forall m | |existing| <= m < |r|
      ensures GoodChunk(r[m], 150) && |r[m].text| > cfg.minChunkLength && r[m].index == m
    {
      assert r[m] == added[m - |existing|];
    }
  }

  // ---------------------------------------------------------------------
  // The whole chunker

  /** Whether `chunkText` takes the mixed path: some sentence is over the
      word limit. */
  ghost predicate UsesMixed(cfg: Config, content: string)
    requires ValidConfig(cfg)
  {
    var clean := Trim(content);
    clean != [] && |Sentences(cfg, clean)| > 0 && AnyLong(cfg.maxWordsPerChunk, Sentences(cfg, clean))
  }

  /** The chunks after the first `t`: good chunks of at most
      `max(maxWordsPerChunk, 150)` words, indices not below `t` and never
      decreasing, and each index its position when `numbered`. */
  ghost predicate BodyFacts(cfg: Config, r: seq<Chunk>, t: nat, numbered: bool)
  {
    |r| >= t
    && (forall m :: t <= m < |r| ==>
          GoodChunk(r[m], Max(cfg.maxWordsPerChunk, 150)) && r[m].index >= t
          && (numbered ==> r[m].index == m))
    && (forall m, m' :: t <= m < m' < |r| ==> r[m].index <= r[m'].index)
  }

  lemma GroupBody(cfg: Config, sentences: seq<string>, titles: seq<Chunk>)
    requires ValidConfig(cfg) && GoodSentences(sentences)
    requires forall k :: 0 <= k < |sentences| ==> WordCount(sentences[k]) <= cfg.maxWordsPerChunk
    ensures BodyFacts(cfg, titles + GroupFrom(cfg, sentences, 0, |titles|), |titles|, true)
  {
    GroupChunks(cfg, sentences, 0, |titles|);
    GroupChunksBody(cfg, titles, GroupFrom(cfg, sentences, 0, |titles|));
  }

  lemma GroupChunksBody(cfg: Config, titles: seq<Chunk>, body: seq<Chunk>)
    requires GroupChunksAt(cfg, body, |titles|)
    ensures BodyFacts(cfg, titles + body, |titles|, true)
  {
    var r := titles + body;
    forall m | |titles| <= m < |r|
      ensures GoodChunk(r[m], Max(cfg.maxWordsPerChunk, 150)) && r[m].index == m
    {
      assert r[m] == body[m - |titles|];
    }
  }

  lemma MixedBody(cfg: Config, sentences: seq<string>, titles: seq<Chunk>)
    requires ValidConfig(cfg) && GoodSentences(sentences)
    ensures BodyFacts(cfg, titles + MixedFrom(cfg, sentences, 0, |titles|), |titles|, false)
  {
    MixedChunks(cfg, sentences, 0, |titles|);
    var body := MixedFrom(cfg, sentences, 0, |titles|);
    var r := titles + body;
    forall m | |titles| <= m < |r|
      ensures GoodChunk(r[m], Max(cfg.maxWordsPerChunk, 150)) && r[m].index >= |titles|
    {
      assert r[m] == body[m - |titles|];
    }
    forall m, m' | |titles| <= m < m' < |r| ensures r[m].index <= r[m'].index {
      assert r[m] == body[m - |titles|] && r[m'] == body[m' - |titles|];
    }
  }

  lemma FallbackBody(cfg: Config, clean: string, titles: seq<Chunk>)
    requires Trimmed(clean) && |clean| > 0
    ensures FallbackSpec(cfg, clean, titles)[..|titles|] == titles
    ensures BodyFacts(cfg, FallbackSpec(cfg, clean, titles), |titles|, true)
  {
    TrimTrims(clean);
    FallbackChunks(cfg, clean, titles);
  }

  /** The shape of `chunkText`'s output: the title chunks first, then good
      chunks of at most `max(maxWordsPerChunk, 150)` words whose indices never
      decrease, each index being the chunk's position except on the mixed
      path. */
  lemma ChunkBody(cfg: Config, content: string, title: string)
    requires ValidConfig(cfg)
    ensures |ChunkSpec(cfg, content, title)| >= |TitleChunks(cfg, title)|
    ensures ChunkSpec(cfg, content, title)[..|TitleChunks(cfg, title)|] == TitleChunks(cfg, title)
    ensures BodyFacts(cfg, ChunkSpec(cfg, content, title), |TitleChunks(cfg, title)|, !UsesMixed(cfg, content))
  {
    var titles := TitleChunks(cfg, title);
    var clean := Trim(content);
    TrimTrims(content);
    if clean != [] {
      var sentences := Sentences(cfg, clean);
      if |sentences| == 0 {
        FallbackBody(cfg, clean, titles);
      } else {
        SentencesClean(cfg, clean);
        if AnyLong(cfg.maxWordsPerChunk, sentences) {
          MixedBody(cfg, sentences, titles);
          assert (titles + MixedFrom(cfg, sentences, 0, |titles|))[..|titles|] == titles;
        } else {
          GroupBody(cfg, sentences, titles);
          assert (titles + GroupFrom(cfg, sentences, 0, |titles|))[..|titles|] == titles;
        }
      }
    }
  }

  /** The title chunk: present exactly when `includeTitle` holds and the
      trimmed title is longer than five characters, and then first, with the
      trimmed title as text, source `title` and index 0; no other chunk has
      the title source. An empty content yields the title chunks alone. */
  lemma ChunkTitle(cfg: Config, content: string, title: string)
    requires ValidConfig(cfg)
    ensures var r := ChunkSpec(cfg, content, title);
      (HasTitleChunk(cfg, title) <==> |r| > 0 && r[0].source == Title)
      && (HasTitleChunk(cfg, title) ==> r[0] == Chunk(Trim(title), Title, 0, WordCount(Trim(title))))
      && (forall m :: 0 < m < |r| ==> r[m].source != Title)
    ensures Trim(content) == [] ==> ChunkSpec(cfg, content, title) == TitleChunks(cfg, title)
  {
    ChunkBody(cfg, content, title);
    var r := ChunkSpec(cfg, content, title);
    var t := |TitleChunks(cfg, title)|;
    if t > 0 {
      assert r[0] == r[..t][0];
    }
    forall m | 0 < m < |r| ensures r[m].source != Title {
      assert t <= 1;
      assert GoodChunk(r[m], Max(cfg.maxWordsPerChunk, 150));
    }
    if t == 0 && |r| > 0 {
      assert GoodChunk(r[0], Max(cfg.maxWordsPerChunk, 150));
    }
  }

  /** Chunk indices never decrease; off the mixed path each chunk's index is
      its position in the output. */
  lemma ChunkIndices(cfg: Config, content: string, title: string)
    requires ValidConfig(cfg)
    ensures var r := ChunkSpec(cfg, content, title);
      (forall m, m' :: 0 <= m < m' < |r| ==> r[m].index <= r[m'].index)
      && (!UsesMixed(cfg, content) ==> forall m :: 0 <= m < |r| ==> r[m].index == m)
  {
    ChunkBody(cfg, content, title);
    var r := ChunkSpec(cfg, content, title);
    var t := |TitleChunks(cfg, title)|;
    if t > 0 {
      assert r[0] == r[..t][0];
    }
  }

  // ---------------------------------------------------------------------
  // One round of each loop
  //
  // Each lemma below takes the output `before` a round of one of the
  // source's loops and states that what the round appends, followed by what
  // the rest of the loop produces, is what the loop produces from that round
  // on. The methods of `TextChunker` keep this as their loop invariant.

  lemma ExpandRound(cfg: Config, before: seq<string>, after: seq<string>, sentences: seq<string>, k: nat)
    requires k < |sentences|
    requires after == before + ExpandSentence(cfg, sentences[k])
    ensures after + ExpandFrom(cfg, sentences, k + 1) == before + ExpandFrom(cfg, sentences, k)
  {
    var e := ExpandSentence(cfg, sentences[k]);
    assert ExpandFrom(cfg, sentences, k) == e + ExpandFrom(cfg, sentences, k + 1);
    Regroup(before, after, e, ExpandFrom(cfg, sentences, k + 1), ExpandFrom(cfg, sentences, k));
  }

  lemma LongTextsRound(before: seq<string>, after: seq<string>, words: seq<string>, size: nat, step: nat, i: nat)
    requires step > 0 && i < |words|
    requires var w := words[i..Min(i + size, |words|)];
      after == if |Join(w)| > 15 then before + [Join(w)] else before
    ensures after + LongTexts(Windows(words, size, step, i + step)) == before + LongTexts(Windows(words, size, step, i))
  {
    var ws := Windows(words, size, step, i);
    assert ws[1..] == Windows(words, size, step, i + step);
  }

  lemma WindowRound(before: seq<Chunk>, after: seq<Chunk>, words: seq<string>, size: nat, minLength: nat,
                    kind: WindowKind, i: nat, j: nat, idx: nat, idx': nat)
    requires size > 0 && i < |words|
    requires var w := words[i..Min(i + size, |words|)];
      if |Join(w)| > minLength
      then after == before + [Chunk(Join(w), WindowSource(kind, j), idx, |w|)] && idx' == NextIndex(kind, idx)
      else after == before && idx' == idx
    ensures after + KeepWindows(Windows(words, size, size, i + size), minLength, kind, j + 1, idx')
      == before + KeepWindows(Windows(words, size, size, i), minLength, kind, j, idx)
  {
    var ws := Windows(words, size, size, i);
    assert ws[1..] == Windows(words, size, size, i + size);
  }

  lemma GroupRound(cfg: Config, before: seq<Chunk>, after: seq<Chunk>, sentences: seq<string>, i: nat, next: nat,
                   text: string, wc: nat, used: nat, idx: nat, idx': nat)
    requires i < |sentences| && i + used == GroupEnd(cfg, sentences, i)
    requires next == i + Max(1, used - cfg.overlapSentences)
    requires text == GroupText(sentences, i, i + used) && wc == GroupWords(sentences, i, i + used)
    requires if |Trim(text)| > cfg.minChunkLength
      then after == before + [Chunk(Trim(text), ContentChunk(idx), idx, wc)] && idx' == idx + 1
      else after == before && idx' == idx
    ensures next <= |sentences|
    ensures after + GroupFrom(cfg, sentences, next, idx') == before + GroupFrom(cfg, sentences, i, idx)
  {
    var em := GroupEmitted(cfg, sentences, i, idx);
    assert em == ChunkOfGroup(cfg, text, wc, idx);
    assert after == before + em && idx' == idx + |em|;
    assert GroupNext(cfg, sentences, i) == next;
    GroupFromUnfold(cfg, sentences, i, idx);
    Regroup(before, after, em, GroupFrom(cfg, sentences, next, idx'), GroupFrom(cfg, sentences, i, idx));
  }

  lemma MixedRound(cfg: Config, before: seq<Chunk>, after: seq<Chunk>, sentences: seq<string>, k: nat, idx: nat)
    requires ValidConfig(cfg) && k < |sentences|
    requires after == before + SentenceChunks(cfg, sentences[k], idx)
    ensures after + MixedFrom(cfg, sentences, k + 1, idx + 1) == before + MixedFrom(cfg, sentences, k, idx)
  {
    var c := SentenceChunks(cfg, sentences[k], idx);
    assert MixedFrom(cfg, sentences, k, idx) == c + MixedFrom(cfg, sentences, k + 1, idx + 1);
    Regroup(before, after, c, MixedFrom(cfg, sentences, k + 1, idx + 1), MixedFrom(cfg, sentences, k, idx));
  }

  lemma ParagraphRound(cfg: Config, before: seq<Chunk>, after: seq<Chunk>, wordLists: seq<seq<string>>, p: nat,
                       idx: nat, idx': nat)
    requires p < |wordLists|
    requires after == before + ParagraphChunks(cfg, wordLists[p], p, idx)
    requires idx' == idx + |ParagraphChunks(cfg, wordLists[p], p, idx)|
    ensures after + ParagraphsFrom(cfg, wordLists, p + 1, idx') == before + ParagraphsFrom(cfg, wordLists, p, idx)
  {
    var c := ParagraphChunks(cfg, wordLists[p], p, idx);
    assert ParagraphsFrom(cfg, wordLists, p, idx) == c + ParagraphsFrom(cfg, wordLists, p + 1, idx');
    Regroup(before, after, c, ParagraphsFrom(cfg, wordLists, p + 1, idx'), ParagraphsFrom(cfg, wordLists, p, idx));
  }

  lemma {:induction false} MulAtLeast(x: int, d: int)
    requires x >= 1 && d > 0
    ensures x * d >= d
    decreases x
  {
    if x > 1 {
      MulAtLeast(x - 1, d);
      assert x * d == (x - 1) * d + d;
    }
  }

  /** The offset of window `j`, `j * size`, counted up as the loop does. */
  function Offset(j: nat, size: nat): nat
  {
    if j == 0 then 0 else Offset(j - 1, size) + size
  }

  lemma {:induction false} OffsetIsProduct(j: nat, size: nat)
    ensures Offset(j, size) == j * size
  {
    if j > 0 {
      OffsetIsProduct(j - 1, size);
      assert j * size == (j - 1) * size + size;
    }
  }

  /** Window `j` starts at `j * size`, so its part number
      `Math.floor(offset / size)` is `j`. */
  lemma OffsetPart(j: nat, size: nat)
    requires size > 0
    ensures Offset(j, size) / size == j
  {
    OffsetIsProduct(j, size);
    PartOfOffset(j, size);
  }

  /** The part number `Math.floor(i / size)` of the window at offset `j * size`. */
  lemma PartOfOffset(j: nat, size: nat)
    requires size > 0
    ensures (j * size) / size == j
  {
    var q := (j * size) / size;
    var r := (j * size) % size;
    assert j * size == q * size + r;
    assert (j - q) * size == r by {
      assert (j - q) * size == j * size - q * size;
    }
    if j > q {
      MulAtLeast(j - q, size);
    } else if j < q {
      MulAtLeast(q - j, size);
    }
  }

  // ---------------------------------------------------------------------
  // The chunker object

  /** A chunker: the options are fixed by the constructor, and each method
      runs the source's loops and is proved to compute the specification
      function it is named after. */
  class TextChunker {
    const cfg: Config

    constructor(maxWords: nat, overlap: nat, minLength: nat, includeTitle: Option<bool>)
      ensures cfg == NewConfig(maxWords, overlap, minLength, includeTitle)
      ensures ValidConfig(cfg)
    {
      cfg := NewConfig(maxWords, overlap, minLength, includeTitle);
    }

    method ChunkText(content: string, title: string) returns (chunks: seq<Chunk>)
      requires ValidConfig(cfg)
      ensures chunks == ChunkSpec(cfg, content, title)
    {
      chunks := [];
      if cfg.includeTitle && |Trim(title)| > 5 {
        var t := Trim(title);
        chunks := chunks + [Chunk(t, Title, 0, WordCount(t))];
      }
      assert chunks == TitleChunks(cfg, title);
      var cleanContent := Trim(content);
      if cleanContent == [] {
        return;
      }
      var sentences := SplitIntoSentences(cleanContent);
      if |sentences| == 0 {
        chunks := FallbackChunking(cleanContent, chunks);
        return;
      }
      var hasLongSentences := exists k | 0 <= k < |sentences| :: WordCount(sentences[k]) > cfg.maxWordsPerChunk;
      assert hasLongSentences == AnyLong(cfg.maxWordsPerChunk, sentences);
      if hasLongSentences {
        chunks := MixedChunking(sentences, chunks);
      } else {
        chunks := GroupSentencesIntoChunks(sentences, chunks);
      }
    }

    method SplitIntoSentences(content: string) returns (sentences: seq<string>)
      requires ValidConfig(cfg)
      ensures sentences == Sentences(cfg, content)
    {
      sentences := BasicSentences(content);
      if |sentences| < 3 && |content| > 500 {
        sentences := AggressiveSentenceSplitting(content);
      }
    }

    method AggressiveSentenceSplitting(content: string) returns (finalSentences: seq<string>)
      ensures finalSentences == AggressiveSplit(cfg, content)
    {
      var sentences := AggressivePieces(content);
      finalSentences := ExpandSentences(sentences);
    }

    /** The loop over the first-stage sentences of the aggressive pass. */
    method ExpandSentences(sentences: seq<string>) returns (finalSentences: seq<string>)
      ensures finalSentences == ExpandFrom(cfg, sentences, 0)
    {
      finalSentences := [];
      var k := 0;
      while k < |sentences|
        invariant k <= |sentences|
        invariant finalSentences + ExpandFrom(cfg, sentences, k) == ExpandFrom(cfg, sentences, 0)
      {
        ghost var before := finalSentences;
        finalSentences := AppendSentence(finalSentences, sentences[k]);
        ExpandRound(cfg, before, finalSentences, sentences, k);
        k := k + 1;
      }
    }

    /** One round of the loop over the first-stage sentences: a sentence
        within the word limit is kept whole, a longer one is split again. */
    method AppendSentence(existing: seq<string>, sentence: string) returns (finalSentences: seq<string>)
      ensures finalSentences == existing + ExpandSentence(cfg, sentence)
    {
      var words := Split(sentence);
      if |words| <= cfg.maxWordsPerChunk {
        finalSentences := existing + [sentence];
      } else {
        finalSentences := AppendOverlappingWindows(existing, words);
      }
    }

    /** The second split of an oversized sentence: windows of
        `maxWordsPerChunk` words, advancing by `maxWordsPerChunk - 5` (at least
        one), each kept when its text is longer than 15 characters. */
    method AppendOverlappingWindows(existing: seq<string>, words: seq<string>) returns (finalSentences: seq<string>)
      ensures finalSentences == existing + LongTexts(Windows(words, cfg.maxWordsPerChunk, AggressiveStep(cfg), 0))
    {
      finalSentences := existing;
      var step := AggressiveStep(cfg);
      var i := 0;
      while i < |words|
        invariant finalSentences + LongTexts(Windows(words, cfg.maxWordsPerChunk, step, i))
          == existing + LongTexts(Windows(words, cfg.maxWordsPerChunk, step, 0))
        decreases |words| - i
      {
        finalSentences := AppendLongWindow(finalSentences, words, cfg.maxWordsPerChunk, step, i);
        i := i + step;
      }
    }

    /** One round of the overlapping-window loop: the joined window at word
        `i`, if it is longer than 15 characters. */
    method AppendLongWindow(existing: seq<string>, words: seq<string>, size: nat, step: nat, i: nat)
      returns (finalSentences: seq<string>)
      requires step > 0 && i < |words|
      ensures finalSentences + LongTexts(Windows(words, size, step, i + step))
        == existing + LongTexts(Windows(words, size, step, i))
    {
      finalSentences := existing;
      var chunkWords := words[i..Min(i + size, |words|)];
      var chunkText := Join(chunkWords);
      if |chunkText| > 15 {
        finalSentences := finalSentences + [chunkText];
      }
      LongTextsRound(existing, finalSentences, words, size, step, i);
    }

    method GroupSentencesIntoChunks(sentences: seq<string>, existingChunks: seq<Chunk>) returns (chunks: seq<Chunk>)
      requires ValidConfig(cfg)
      ensures chunks == existingChunks + GroupFrom(cfg, sentences, 0, |existingChunks|)
    {
      chunks := existingChunks;
      var chunkIndex: nat := |chunks|;
      var i := 0;
      while i < |sentences|
        invariant i <= |sentences|
        invariant chunks + GroupFrom(cfg, sentences, i, chunkIndex)
          == existingChunks + GroupFrom(cfg, sentences, 0, |existingChunks|)
        decreases |sentences| - i
      {
        ghost var before, idx0 := chunks, chunkIndex;
        var text, wc, used := GatherGroup(sentences, i);
        if |Trim(text)| > cfg.minChunkLength {
          chunks := chunks + [Chunk(Trim(text), ContentChunk(chunkIndex), chunkIndex, wc)];
          chunkIndex := chunkIndex + 1;
        }
        var next := i + Max(1, used - cfg.overlapSentences);
        GroupRound(cfg, before, chunks, sentences, i, next, text, wc, used, idx0, chunkIndex);
        i := next;
      }
    }

    /** The inner loop of `groupSentencesIntoChunks`: gathers the group that
        starts at sentence `i`. */
    method GatherGroup(sentences: seq<string>, i: nat) returns (currentChunkText: string, currentWordCount: nat, sentencesUsed: nat)
      requires i <= |sentences|
      ensures i + sentencesUsed == GroupEnd(cfg, sentences, i)
      ensures currentChunkText == GroupText(sentences, i, i + sentencesUsed)
      ensures currentWordCount == GroupWords(sentences, i, i + sentencesUsed)
    {
      currentChunkText := "";
      currentWordCount := 0;
      sentencesUsed := 0;
      while i + sentencesUsed < |sentences| && currentWordCount < cfg.maxWordsPerChunk
        invariant i + sentencesUsed <= |sentences|
        invariant currentChunkText == GroupText(sentences, i, i + sentencesUsed)
        invariant currentWordCount == GroupWords(sentences, i, i + sentencesUsed)
        invariant GatherEnd(cfg.maxWordsPerChunk, sentences, i + sentencesUsed, currentWordCount)
          == GroupEnd(cfg, sentences, i)
        decreases |sentences| - i - sentencesUsed
      {
        var sentence := sentences[i + sentencesUsed];
        var sentenceWords := WordCount(sentence);
        if currentWordCount + sentenceWords > cfg.maxWordsPerChunk && currentWordCount > 0 {
          break;
        }
        currentChunkText := currentChunkText + (if currentChunkText != "" then " " else "") + sentence;
        currentWordCount := currentWordCount + sentenceWords;
        sentencesUsed := sentencesUsed + 1;
      }
    }

    /** The window loop shared by mixed and fallback chunking: windows of
        `size` words, each kept when its text is longer than `minLength`, with
        part number `i / size`; `chunkIndex` advances per kept chunk except for
        an oversized sentence, whose windows share its index. */
    method AppendWindows(existing: seq<Chunk>, words: seq<string>, size: nat, minLength: nat, kind: WindowKind, idx: nat)
      returns (chunks: seq<Chunk>, chunkIndex: nat)
      requires size > 0
      ensures chunks == existing + WindowChunks(words, size, minLength, kind, idx)
      ensures chunkIndex == if kind.LongSentence? then idx else idx + |chunks| - |existing|
    {
      chunks := existing;
      chunkIndex := idx;
      var i := 0;
      ghost var j := 0;
      while i < |words|
        invariant i == Offset(j, size)
        invariant chunks + KeepWindows(Windows(words, size, size, i), minLength, kind, j, chunkIndex)
          == existing + WindowChunks(words, size, minLength, kind, idx)
        invariant chunkIndex == if kind.LongSentence? then idx else idx + |chunks| - |existing|
        decreases |words| - i
      {
        chunks, chunkIndex := AppendWindow(chunks, words, size, minLength, kind, i, j, chunkIndex);
        i := i + size;
        j := j + 1;
      }
    }

    /** One round of the window loop: the chunk of the window at word `i`,
        part `j`, if its text is long enough. */
    method AppendWindow(existing: seq<Chunk>, words: seq<string>, size: nat, minLength: nat, kind: WindowKind,
                        i: nat, ghost j: nat, idx: nat)
      returns (chunks: seq<Chunk>, chunkIndex: nat)
      requires size > 0 && i < |words| && i == Offset(j, size)
      ensures chunks + KeepWindows(Windows(words, size, size, i + size), minLength, kind, j + 1, chunkIndex)
        == existing + KeepWindows(Windows(words, size, size, i), minLength, kind, j, idx)
      ensures chunkIndex == if kind.LongSentence? then idx else idx + |chunks| - |existing|
    {
      chunks, chunkIndex := existing, idx;
      var chunkWords := words[i..Min(i + size, |words|)];
      var chunkText := Join(chunkWords);
      OffsetPart(j, size);
      if |chunkText| > minLength {
        chunks := chunks + [Chunk(chunkText, WindowSource(kind, i / size), chunkIndex, |chunkWords|)];
        if !kind.LongSentence? {
          chunkIndex := chunkIndex + 1;
        }
      }
      WindowRound(existing, chunks, words, size, minLength, kind, i, j, idx, chunkIndex);
    }

    method MixedChunking(sentences: seq<string>, existingChunks: seq<Chunk>) returns (chunks: seq<Chunk>)
      requires ValidConfig(cfg)
      ensures chunks == existingChunks + MixedFrom(cfg, sentences, 0, |existingChunks|)
    {
      chunks := existingChunks;
      var chunkIndex: nat := |chunks|;
      var k := 0;
      while k < |sentences|
        invariant k <= |sentences|
        invariant chunks + MixedFrom(cfg, sentences, k, chunkIndex)
          == existingChunks + MixedFrom(cfg, sentences, 0, |existingChunks|)
      {
        ghost var before := chunks;
        chunks := SentenceChunking(chunks, sentences[k], chunkIndex);
        MixedRound(cfg, before, chunks, sentences, k, chunkIndex);
        chunkIndex := chunkIndex + 1;
        k := k + 1;
      }
    }

    /** One round of the mixed-chunking loop: the chunks of one sentence. */
    method SentenceChunking(existing: seq<Chunk>, sentence: string, chunkIndex: nat) returns (chunks: seq<Chunk>)
      requires ValidConfig(cfg)
      ensures chunks == existing + SentenceChunks(cfg, sentence, chunkIndex)
    {
      var sentenceWords := WordCount(sentence);
      if sentenceWords <= cfg.maxWordsPerChunk {
        chunks := existing + [Chunk(Trim(sentence), SentenceChunk(chunkIndex), chunkIndex, sentenceWords)];
      } else {
        var words := Split(sentence);
        var sameIndex;
        chunks, sameIndex := AppendWindows(existing, words, cfg.maxWordsPerChunk, cfg.minChunkLength, LongSentence(chunkIndex), chunkIndex);
      }
    }

    method FallbackChunking(content: string, existingChunks: seq<Chunk>) returns (chunks: seq<Chunk>)
      ensures chunks == FallbackSpec(cfg, content, existingChunks)
    {
      chunks := existingChunks;
      var chunkIndex: nat := |chunks|;
      var paragraphs := LongParagraphs(Paragraphs(content, 0, 0), cfg.minChunkLength);
      if |paragraphs| > 1 {
        chunks := ParagraphsChunking(paragraphs, chunks);
      } else {
        var words := Split(Trim(content));
        chunks, chunkIndex := AppendWindows(chunks, words, 150, cfg.minChunkLength, WholeContent, chunkIndex);
      }
    }

    /** The `forEach` over the long paragraphs of the fallback. */
    method ParagraphsChunking(paragraphs: seq<string>, existingChunks: seq<Chunk>) returns (chunks: seq<Chunk>)
      ensures chunks == existingChunks + ParagraphsFrom(cfg, AllParagraphWords(paragraphs), 0, |existingChunks|)
    {
      ghost var wordLists := AllParagraphWords(paragraphs);
      chunks := existingChunks;
      var chunkIndex: nat := |chunks|;
      var p := 0;
      while p < |paragraphs|
        invariant p <= |paragraphs|
        invariant chunks + ParagraphsFrom(cfg, wordLists, p, chunkIndex)
          == existingChunks + ParagraphsFrom(cfg, wordLists, 0, |existingChunks|)
      {
        ghost var before, idx0 := chunks, chunkIndex;
        assert wordLists[p] == ParagraphWords(paragraphs[p]);
        chunks, chunkIndex := ParagraphChunking(paragraphs[p], p, chunks, chunkIndex);
        ParagraphRound(cfg, before, chunks, wordLists, p, idx0, chunkIndex);
        p := p + 1;
      }
    }

    /** The `forEach` callback for paragraph `p`: its 150-word windows, when
        the trimmed paragraph is not empty. */
    method ParagraphChunking(paragraph: string, p: nat, existing: seq<Chunk>, idx: nat)
      returns (chunks: seq<Chunk>, chunkIndex: nat)
      ensures chunks == existing + ParagraphChunks(cfg, ParagraphWords(paragraph), p, idx)
      ensures chunkIndex == idx + |ParagraphChunks(cfg, ParagraphWords(paragraph), p, idx)|
    {
      chunks, chunkIndex := existing, idx;
      var cleanParagraph := Trim(paragraph);
      if |cleanParagraph| > 0 {
        var words := Split(cleanParagraph);
        chunks, chunkIndex := AppendWindows(chunks, words, 150, cfg.minChunkLength, Paragraph(p), chunkIndex);
      } else {
        assert ParagraphChunks(cfg, [], p, idx) == [];
      }
    }
  }
}

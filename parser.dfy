/**
 * The vocabulary parser of src/parser.go: a total, best-effort reader of
 * blocks of lines shaped `word = meaning1, meaning2; meaning3`.
 *
 * `ParseLine`, `ParseLines`, `CleanSenses` and `ParseBlock` are the
 * specification, one line (or one candidate sense) at a time;
 * `ParseVocabBlock` is the source's double loop, proved equal to it.
 */
module Parser {
  import opened Wrappers
  import opened GoStrings

  /** One entry: a word with its ordered list of meanings. */
  datatype VocabPair = VocabPair(word: string, meanings: seq<string>)

  /** The separators of the regular expression `[;,]`. */
  const SenseSeparators: set<char> := {',', ';'}

  /** The line separator of `strings.Split(vocabBlock, "\n")`. */
  const LineSeparators: set<char> := {'\n'}

  /** A word as the parser emits it: non-empty, trimmed, no '='. */
  predicate GoodWord(w: string) {
    w != "" && Trimmed(w) && Avoids(w, {'='})
  }

  /** A meaning as the parser emits it: non-empty, trimmed, no ',' or ';'. */
  predicate GoodMeaning(m: string) {
    m != "" && Trimmed(m) && Avoids(m, SenseSeparators)
  }

  /** The shape of every entry a single line can produce. */
  predicate Shaped(p: VocabPair) {
    && GoodWord(p.word)
    && |p.meanings| > 0
    && forall k :: 0 <= k < |p.meanings| ==> GoodMeaning(p.meanings[k])
  }

  /** No part of the entry holds a line break. */
  predicate SingleLine(p: VocabPair) {
    && Avoids(p.word, LineSeparators)
    && forall k :: 0 <= k < |p.meanings| ==> Avoids(p.meanings[k], LineSeparators)
  }

  /** The entries a whole block can produce: shaped and free of line breaks. */
  predicate WellFormed(p: VocabPair) {
    Shaped(p) && SingleLine(p)
  }

  /**
   * The senses kept from the candidates of one right-hand side: each is
   * trimmed and the empty ones are dropped, in their original order
   * (src/parser.go:33-39).
   */
  function CleanSenses(candidates: seq<string>): (r: seq<string>)
    ensures |r| <= |candidates|
  {
    if candidates == [] then []
    else
      var s := TrimSpace(candidates[|candidates| - 1]);
      CleanSenses(candidates[..|candidates| - 1]) + (if s != "" then [s] else [])
  }

  /** Every kept sense is non-empty and trimmed. */
  lemma {:induction false} CleanSensesKept(candidates: seq<string>)
    ensures forall k :: 0 <= k < |CleanSenses(candidates)| ==>
              CleanSenses(candidates)[k] != "" && Trimmed(CleanSenses(candidates)[k])
  {
    if candidates != [] {
      CleanSensesKept(candidates[..|candidates| - 1]);
    }
  }

  /** Cleaning cannot introduce a character. */
  lemma {:induction false} CleanSensesAvoid(candidates: seq<string>, cs: set<char>)
    ensures (forall k :: 0 <= k < |candidates| ==> Avoids(candidates[k], cs)) ==>
            forall k :: 0 <= k < |CleanSenses(candidates)| ==> Avoids(CleanSenses(candidates)[k], cs)
  {
    if candidates != [] && forall k :: 0 <= k < |candidates| ==> Avoids(candidates[k], cs) {
      var n := |candidates|;
      CleanSensesAvoid(candidates[..n - 1], cs);
      TrimSpaceAvoids(candidates[n - 1], cs);
    }
  }

  /**
   * One line of the block (src/parser.go:19-43): trimmed and skipped when
   * blank, split at its first '=' and skipped without one; the left side
   * trimmed is the word, the right side trimmed and split on ',' and ';'
   * gives the candidate senses. The line yields an entry only when the
   * word and the cleaned senses are both non-empty.
   */
  function ParseLine(raw: string): (r: Option<VocabPair>)
    ensures Avoids(raw, {'='}) ==> r == None
    ensures AllSpace(raw) ==> r == None
  {
    var line := TrimSpace(raw);
    TrimSpaceAvoids(raw, {'='});
    assert AllSpace(raw) ==> line == "" by {
      if AllSpace(raw) {
        TrimLeftAllSpace(raw);
      }
    }
    if line == "" then None
    else
      var parts := SplitFirst(line, '=');
      SplitFirstFacts(line, '=');
      if |parts| < 2 then None
      else
        var word := TrimSpace(parts[0]);
        var cleanSenses := CleanSenses(SplitOn(TrimSpace(parts[1]), SenseSeparators));
        if word != "" && |cleanSenses| > 0 then Some(VocabPair(word, cleanSenses)) else None
  }

  /**
   * A line yields a shaped entry or nothing; a line without '=' or with
   * only white space yields nothing; a line without a line break yields an
   * entry without one.
   */
  lemma ParseLineShaped(raw: string)
    ensures ParseLine(raw).Some? ==> Shaped(ParseLine(raw).value)
    ensures ParseLine(raw).Some? && Avoids(raw, LineSeparators) ==> SingleLine(ParseLine(raw).value)
  {
    var line := TrimSpace(raw);
    if line != "" {
      var parts := SplitFirst(line, '=');
      SplitFirstFacts(line, '=');
      if |parts| == 2 {
        var meaningsRaw := TrimSpace(parts[1]);
        var senses := SplitOn(meaningsRaw, SenseSeparators);
        TrimSpaceAvoids(parts[0], {'='});
        SplitOnPieces(meaningsRaw, SenseSeparators);
        CleanSensesAvoid(senses, SenseSeparators);
        CleanSensesKept(senses);
        SingleLineFacts(raw, line, parts, meaningsRaw, senses);
      }
    }
  }

  /** A line free of line breaks gives a word and senses free of them. */
  lemma SingleLineFacts(raw: string, line: string, parts: seq<string>, meaningsRaw: string, senses: seq<string>)
    requires line == TrimSpace(raw) && parts == SplitFirst(line, '=') && |parts| == 2
    requires meaningsRaw == TrimSpace(parts[1]) && senses == SplitOn(meaningsRaw, SenseSeparators)
    ensures Avoids(raw, LineSeparators) ==>
              && Avoids(TrimSpace(parts[0]), LineSeparators)
              && forall k :: 0 <= k < |CleanSenses(senses)| ==> Avoids(CleanSenses(senses)[k], LineSeparators)
  {
    TrimSpaceAvoids(raw, LineSeparators);
    SplitFirstAvoids(line, '=', LineSeparators);
    TrimSpaceAvoids(parts[0], LineSeparators);
    TrimSpaceAvoids(parts[1], LineSeparators);
    SplitOnAvoids(meaningsRaw, SenseSeparators, LineSeparators);
    CleanSensesAvoid(senses, LineSeparators);
  }

  /** The entries of a line: one or none. */
  function LineEntries(raw: string): (r: seq<VocabPair>)
    ensures |r| <= 1
  {
    match ParseLine(raw)
    case Some(p) => [p]
    case None => []
  }

  /** The entries of a sequence of lines, in line order (src/parser.go:18-44). */
  function ParseLines(lines: seq<string>): (r: seq<VocabPair>)
    ensures |r| <= |lines|
  {
    if lines == [] then []
    else ParseLines(lines[..|lines| - 1]) + LineEntries(lines[|lines| - 1])
  }

  /** `parseVocabBlock` as a specification: the entries of the block's lines. */
  function ParseBlock(vocabBlock: string): (r: seq<VocabPair>)
    ensures |r| <= |SplitOn(vocabBlock, LineSeparators)|
  {
    ParseLines(SplitOn(vocabBlock, LineSeparators))
  }

  /** The entries of a line in terms of its split at the first '='. */
  lemma LineEntriesParts(raw: string, parts: seq<string>, cleanSenses: seq<string>)
    requires TrimSpace(raw) != "" && parts == SplitFirst(TrimSpace(raw), '=') && |parts| >= 2
    requires cleanSenses == CleanSenses(SplitOn(TrimSpace(parts[1]), SenseSeparators))
    ensures LineEntries(raw) ==
              if TrimSpace(parts[0]) != "" && |cleanSenses| > 0 then [VocabPair(TrimSpace(parts[0]), cleanSenses)] else []
  {
  }

  /** `parseVocabBlock` (src/parser.go:14-46), with its two loops. */
  method ParseVocabBlock(vocabBlock: string) returns (pairs: seq<VocabPair>)
    ensures pairs == ParseBlock(vocabBlock)
  {
    pairs := [];
    var lines := SplitOn(vocabBlock, LineSeparators);
    for i := 0 to |lines|
      invariant pairs == ParseLines(lines[..i])
    {
      ParseLinesSnoc(lines, i);
      var line := TrimSpace(lines[i]);
      if line == "" {
        continue;
      }
      var parts := SplitFirst(line, '=');
      if |parts| < 2 {
        continue;
      }
      var word := TrimSpace(parts[0]);
      var meaningsRaw := TrimSpace(parts[1]);
      var senses := SplitOn(meaningsRaw, SenseSeparators);
      var cleanSenses := [];
      for j := 0 to |senses|
        invariant cleanSenses == CleanSenses(senses[..j])
      {
        CleanSensesSnoc(senses, j);
        var s := TrimSpace(senses[j]);
        if s != "" {
          cleanSenses := cleanSenses + [s];
        }
      }
      assert senses[..|senses|] == senses;
      LineEntriesParts(lines[i], parts, cleanSenses);
      if word != "" && |cleanSenses| > 0 {
        pairs := pairs + [VocabPair(word, cleanSenses)];
      }
    }
    assert lines[..|lines|] == lines;
  }

  lemma ParseLinesSnoc(lines: seq<string>, i: nat)
    requires i < |lines|
    ensures ParseLines(lines[..i + 1]) == ParseLines(lines[..i]) + LineEntries(lines[i])
  {
    assert lines[..i + 1][..i] == lines[..i];
  }

  lemma CleanSensesSnoc(senses: seq<string>, j: nat)
    requires j < |senses|
    ensures CleanSenses(senses[..j + 1]) ==
              CleanSenses(senses[..j]) + (if TrimSpace(senses[j]) != "" then [TrimSpace(senses[j])] else [])
  {
    assert senses[..j + 1][..j] == senses[..j];
  }

  // ---------------------------------------------------------------------
  // Properties
  // ---------------------------------------------------------------------

  /** Every entry of a block is non-empty, trimmed and free of its forbidden characters. */
  lemma ParseBlockWellFormed(vocabBlock: string)
    ensures forall k :: 0 <= k < |ParseBlock(vocabBlock)| ==> WellFormed(ParseBlock(vocabBlock)[k])
  {
    SplitOnPieces(vocabBlock, LineSeparators);
    ParseLinesWellFormed(SplitOn(vocabBlock, LineSeparators));
  }

  lemma {:induction false} ParseLinesWellFormed(lines: seq<string>)
    requires forall k :: 0 <= k < |lines| ==> Avoids(lines[k], LineSeparators)
    ensures forall k :: 0 <= k < |ParseLines(lines)| ==> WellFormed(ParseLines(lines)[k])
  {
    if lines != [] {
      ParseLinesWellFormed(lines[..|lines| - 1]);
      ParseLineShaped(lines[|lines| - 1]);
    }
  }

  /** Parsing distributes over concatenation of line sequences. */
  lemma {:induction false} ParseLinesAppend(a: seq<string>, b: seq<string>)
    ensures ParseLines(a + b) == ParseLines(a) + ParseLines(b)
  {
    if b != [] {
      var front, last := b[..|b| - 1], b[|b| - 1];
      ParseLinesAppend(a, front);
      var pa, pf, pl := ParseLines(a), ParseLines(front), LineEntries(last);
      assert (a + b)[..|a + b| - 1] == a + front;
      assert (a + b)[|a + b| - 1] == last;
      assert ParseLines(a + b) == ParseLines(a + front) + pl;
      assert ParseLines(b) == pf + pl;
      assert (pa + pf) + pl == pa + (pf + pl);
    } else {
      assert a + b == a;
    }
  }

  /** A non-empty sequence is its front followed by its last element. */
  lemma DropLast<T>(s: seq<T>)
    requires s != []
    ensures s == s[..|s| - 1] + [s[|s| - 1]]
  {
  }

  /** Lines that each give exactly one entry give those entries, in order. */
  lemma {:induction false} ParseLinesEach(lines: seq<string>, entries: seq<VocabPair>)
    requires |lines| == |entries|
    requires forall k :: 0 <= k < |lines| ==> LineEntries(lines[k]) == [entries[k]]
    ensures ParseLines(lines) == entries
  {
    if lines != [] {
      var n := |lines|;
      var init, front := lines[..n - 1], entries[..n - 1];
      forall k | 0 <= k < n - 1 ensures LineEntries(init[k]) == [front[k]] {
        assert init[k] == lines[k] && front[k] == entries[k];
      }
      ParseLinesEach(init, front);
      assert ParseLines(lines) == ParseLines(init) + LineEntries(lines[n - 1]);
      DropLast(entries);
    }
  }

  /** Parsing `a + "\n" + b` gives the entries of `a` followed by those of `b`. */
  lemma ParseBlockConcat(a: string, b: string)
    ensures ParseBlock(a + "\n" + b) == ParseBlock(a) + ParseBlock(b)
  {
    SplitOnConcat(a, '\n', b, LineSeparators);
    ParseLinesAppend(SplitOn(a, LineSeparators), SplitOn(b, LineSeparators));
  }

  /** Cleaning keeps the order of the non-empty candidates across a split of the list. */
  lemma {:induction false} CleanSensesAppend(a: seq<string>, b: seq<string>)
    ensures CleanSenses(a + b) == CleanSenses(a) + CleanSenses(b)
  {
    if b != [] {
      CleanSensesAppend(a, b[..|b| - 1]);
      assert (a + b)[..|a + b| - 1] == a + b[..|b| - 1];
    } else {
      assert a + b == a;
    }
  }

  /** Candidates that trim to given non-empty senses are kept as exactly those senses. */
  lemma {:induction false} CleanSensesExact(candidates: seq<string>, senses: seq<string>)
    requires |candidates| == |senses|
    requires forall k :: 0 <= k < |senses| ==> senses[k] != "" && TrimSpace(candidates[k]) == senses[k]
    ensures CleanSenses(candidates) == senses
  {
    if candidates != [] {
      var n := |candidates|;
      var front := senses[..n - 1];
      assert forall k :: 0 <= k < n - 1 ==> front[k] == senses[k] && candidates[..n - 1][k] == candidates[k];
      CleanSensesExact(candidates[..n - 1], front);
      assert TrimSpace(candidates[n - 1]) == senses[n - 1] != "";
      assert senses == front + [senses[n - 1]];
    }
  }

  /** A block without line breaks is parsed as its one line. */
  lemma ParseBlockOneLine(line: string)
    requires Avoids(line, LineSeparators)
    ensures ParseBlock(line) == LineEntries(line)
  {
    SplitOnAvoiding(line, LineSeparators);
    assert [line][..0] == [];
  }

  /** The empty block has no entries. */
  lemma ParseBlockEmpty()
    ensures ParseBlock("") == []
  {
    SplitOnAvoiding("", LineSeparators);
    assert [""][..0] == [];
  }

  /** A candidate of white space only is dropped, and the others are kept around it. */
  lemma CleanSensesDropsBlank(a: seq<string>, blank: string, b: seq<string>)
    requires AllSpace(blank)
    ensures CleanSenses(a + [blank] + b) == CleanSenses(a) + CleanSenses(b)
  {
    TrimLeftAllSpace(blank);
    assert TrimSpace(blank) == "";
    assert CleanSenses([blank]) == [] by {
      assert [blank][..0] == [];
    }
    CleanSensesAppend(a, [blank]);
    CleanSensesAppend(a + [blank], b);
  }

  /**
   * Only the first '=' of a line splits it: a meaning may itself contain
   * '=' (`a=b=c` gives the word `a` with the one meaning `b=c`).
   */
  lemma MeaningsMayContainEquals(w: string, m: string)
    requires GoodWord(w) && m != "" && Trimmed(m) && Avoids(m, SenseSeparators)
    ensures ParseLine(w + "=" + m) == Some(VocabPair(w, [m]))
  {
    var line := w + "=" + m;
    assert Trimmed(line) by {
      assert line[0] == w[0] && line[|line| - 1] == m[|m| - 1];
    }
    TrimSpaceFixpoint(line);
    assert line[..|w|] == w && line[|w| + 1..] == m;
    SplitFirstAt(line, '=', |w|);
    TrimSpaceFixpoint(w);
    TrimSpaceFixpoint(m);
    SplitOnAvoiding(m, SenseSeparators);
    assert [m][..0] == [];
    LineEntriesParts(line, [w, m], [m]);
  }
}

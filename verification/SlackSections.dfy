/** Packing lines into the section blocks of a message. A character stands for one byte. */
module SlackSections {

  const MAX_SECTION_CHARS := 2900
  const MAX_MESSAGE_BLOCKS := 50

  /** The lines one under the other: a newline goes in front of a line that follows some text. */
  function Join(lines: seq<string>): string {
    if lines == [] then ""
    else
      var text, last := Join(lines[..|lines| - 1]), lines[|lines| - 1];
      if text == "" then last else text + "\n" + last
  }

  /** The line may join the text of an open section; a section without text takes any line. */
  predicate Fits(text: string, line: string) {
    text == "" || |text| + 1 + |line| <= MAX_SECTION_CHARS
  }

  ghost predicate NoEmptyLine(lines: seq<string>) {
    forall line | line in lines :: line != ""
  }

  // ---------------------------------------------------------------- the greedy cuts

  /** The end of the section that starts at start and already reaches end: further while the next line fits. */
  function Extend(lines: seq<string>, start: nat, end: nat): (r: nat)
    requires start < end <= |lines|
    ensures end <= r <= |lines|
    decreases |lines| - end
  {
    if end < |lines| && Fits(Join(lines[start..end]), lines[end])
    then Extend(lines, start, end + 1)
    else end
  }

  /** Where the sections from start on begin, and last where they end. */
  function Cuts(lines: seq<string>, start: nat, maxSections: nat): (cuts: seq<nat>)
    requires start <= |lines|
    ensures cuts != [] && cuts[0] == start && |cuts| <= maxSections + 1
    ensures forall k | 0 <= k < |cuts| :: cuts[k] <= |lines|
    decreases |lines| - start
  {
    if start == |lines| || maxSections == 0 then [start]
    else [start] + Cuts(lines, Extend(lines, start, start + 1), maxSections - 1)
  }

  /** The block is the text of the section that starts at the k-th cut. */
  ghost predicate IsSection(lines: seq<string>, cuts: seq<nat>, k: nat, block: string)
    requires k + 1 < |cuts|
  {
    cuts[k] < cuts[k + 1] <= |lines| && block == Join(lines[cuts[k]..cuts[k + 1]])
  }

  ghost predicate AreBlocks(lines: seq<string>, cuts: seq<nat>, blocks: seq<string>) {
    && |blocks| + 1 == |cuts|
    && forall k | 0 <= k < |blocks| :: IsSection(lines, cuts, k, blocks[k])
  }

  // ---------------------------------------------------------------- the loop

  /** A limit of no sections is no limit: each section holds a line. */
  function Limit(lines: seq<string>, maxSections: int): nat {
    if maxSections <= 0 then |lines| else maxSections
  }

  /** The blocks show every section; a last one without text is left out unless it is the only one. */
  ghost predicate Shows(lines: seq<string>, cuts: seq<nat>, blocks: seq<string>) {
    || AreBlocks(lines, cuts, blocks)
    || (&& |cuts| >= 2 && blocks != [] && AreBlocks(lines, cuts[..|cuts| - 1], blocks)
        && IsSection(lines, cuts, |cuts| - 2, ""))
  }

  lemma JoinNext(lines: seq<string>, start: nat, end: nat)
    requires start <= end < |lines|
    ensures var text := Join(lines[start..end]);
            Join(lines[start..end + 1]) == if text == "" then lines[end] else text + "\n" + lines[end]
  {
    var longer := lines[start..end + 1];
    assert longer[..|longer| - 1] == lines[start..end];
  }

  lemma JoinNotEmpty(lines: seq<string>)
    requires lines != [] && NoEmptyLine(lines)
    ensures Join(lines) != ""
  {
    assert lines[|lines| - 1] in lines;
  }

  lemma PartNotEmpty(lines: seq<string>, from: nat, to: nat)
    requires NoEmptyLine(lines) && from < to <= |lines|
    ensures Join(lines[from..to]) != ""
  {
    assert forall line | line in lines[from..to] :: line in lines;
    JoinNotEmpty(lines[from..to]);
  }

  /** The state of the loop: finished blocks up to start, the open text from start to packed, greedy so far. */
  ghost predicate Packs(lines: seq<string>, maxSections: nat, cuts: seq<nat>, blocks: seq<string>, start: nat,
                        packed: nat) {
    && start <= packed <= |lines|
    && AreBlocks(lines, cuts, blocks) && cuts[|blocks|] == start && |blocks| < maxSections
    && (start < packed ==> Extend(lines, start, start + 1) == Extend(lines, start, packed))
    && Cuts(lines, 0, maxSections) == cuts[..|blocks|] + Cuts(lines, start, maxSections - |blocks|)
  }

  /** The open text is full: it becomes a block, the last one or the one before the next line's. */
  lemma Flush(lines: seq<string>, maxSections: nat, cuts: seq<nat>, blocks: seq<string>, start: nat, packed: nat,
              b: string)
    requires Packs(lines, maxSections, cuts, blocks, start, packed) && start < packed && b == Join(lines[start..packed])
    requires packed < |lines| ==> !Fits(b, lines[packed])
    ensures AreBlocks(lines, cuts + [packed], blocks + [b])
    ensures |blocks| + 1 < maxSections ==> Packs(lines, maxSections, cuts + [packed], blocks + [b], packed, packed)
    ensures packed == |lines| || |blocks| + 1 == maxSections ==> Cuts(lines, 0, maxSections) == cuts + [packed]
  {
    hide Join;
    var longer, all := cuts + [packed], blocks + [b];
    forall k | 0 <= k < |all| ensures IsSection(lines, longer, k, all[k]) {
      if k < |blocks| {
        assert IsSection(lines, cuts, k, blocks[k]);
      }
    }
    assert Cuts(lines, start, maxSections - |blocks|) == [start] + Cuts(lines, packed, maxSections - |blocks| - 1);
    assert longer[..|blocks| + 1] == cuts[..|blocks|] + [start];
  }

  /** Another line joins the open section. */
  lemma NextLine(lines: seq<string>, maxSections: nat, cuts: seq<nat>, blocks: seq<string>, start: nat, packed: nat)
    requires packed < |lines| && Packs(lines, maxSections, cuts, blocks, start, packed)
    requires start < packed ==> Fits(Join(lines[start..packed]), lines[packed])
    ensures Packs(lines, maxSections, cuts, blocks, start, packed + 1)
  {
  }

  /** All lines are packed: the blocks show the sections, with or without the last one. */
  lemma LastSection(lines: seq<string>, maxSections: nat, cuts: seq<nat>, blocks: seq<string>, start: nat, b: string)
    requires Packs(lines, maxSections, cuts, blocks, start, |lines|) && start < |lines| && b == Join(lines[start..|lines|])
    ensures Cuts(lines, 0, maxSections) == cuts + [|lines|]
    ensures Shows(lines, cuts + [|lines|], blocks + [b])
    ensures b == "" && blocks != [] ==> Shows(lines, cuts + [|lines|], blocks)
  {
    hide Join, Cuts;
    Flush(lines, maxSections, cuts, blocks, start, |lines|, b);
    var all := cuts + [|lines|];
    assert all[..|all| - 1] == cuts && IsSection(lines, all, |all| - 2, b);
  }

  method PackSections(lines: seq<string>, maxSections: int) returns (blocks: seq<string>, packed: nat)
    ensures lines == [] ==> blocks == [""] && packed == 0
    ensures lines != [] ==>
      var cuts := Cuts(lines, 0, Limit(lines, maxSections));
      Shows(lines, cuts, blocks) && packed == cuts[|cuts| - 1]
  {
    hide AreBlocks, Packs, Shows, Join, Cuts;
    ghost var limit := Limit(lines, maxSections);
    blocks, packed := [], 0;
    var b := "";
    ghost var start, cuts := 0, [0];
    if lines != [] {
      NothingPacked(lines, limit);
    }
    while packed < |lines|
      invariant |blocks| <= start <= packed <= |lines| && (start == packed ==> packed == 0)
      invariant lines == [] ==> blocks == [] && b == ""
      invariant lines != [] ==> |blocks| < limit
      invariant lines != [] ==> Packs(lines, limit, cuts, blocks, start, packed)
      invariant lines != [] ==> b == Join(lines[start..packed])
    {
      var line := lines[packed];
      if |b| > 0 && |b| + 1 + |line| > MAX_SECTION_CHARS {
        NoTextNoLines(lines, start, packed);
        Flush(lines, limit, cuts, blocks, start, packed, b);
        blocks := blocks + [b];
        cuts := cuts + [packed];
        start := packed;
        b := "";
        if |blocks| == maxSections {
          AllSectionsShown(lines, cuts, blocks);
          return;
        }
        NoTextNoLines(lines, start, packed);
      }
      NextLine(lines, limit, cuts, blocks, start, packed);
      JoinNext(lines, start, packed);
      if |b| > 0 {
        b := b + "\n";
      }
      b := b + line;
      packed := packed + 1;
    }
    if lines != [] {
      assert packed == |lines|;
      LastSection(lines, limit, cuts, blocks, start, b);
    }
    if |b| > 0 || blocks == [] {
      blocks := blocks + [b];
    }
  }

  lemma NoTextNoLines(lines: seq<string>, start: nat, packed: nat)
    requires start <= packed <= |lines|
    ensures start == packed ==> Join(lines[start..packed]) == ""
  {
  }

  lemma AllSectionsShown(lines: seq<string>, cuts: seq<nat>, blocks: seq<string>)
    requires AreBlocks(lines, cuts, blocks)
    ensures Shows(lines, cuts, blocks)
  {
  }

  lemma NothingPacked(lines: seq<string>, maxSections: nat)
    requires maxSections >= 1
    ensures Packs(lines, maxSections, [0], [], 0, 0)
    ensures Join(lines[0..0]) == ""
  {
  }

  // ---------------------------------------------------------------- lengths

  lemma {:induction false} JoinOfParts(a: seq<string>, b: seq<string>)
    requires a != [] && b != [] && NoEmptyLine(a) && NoEmptyLine(b)
    ensures Join(a + b) == Join(a) + "\n" + Join(b)
    decreases |b|
  {
    var init := b[..|b| - 1];
    assert (a + b)[..|a + b| - 1] == a + init;
    JoinNotEmpty(a);
    if |b| == 1 {
      assert a + init == a;
    } else {
      assert forall line | line in init :: line in b;
      JoinOfParts(a, init);
      JoinNotEmpty(init);
    }
  }

  lemma WithoutFirst(lines: seq<string>, a: nat, b: nat)
    requires a + 1 < b <= |lines| && NoEmptyLine(lines)
    ensures |Join(lines[a + 1..b])| <= |Join(lines[a..b])|
  {
    hide Join;
    var rest := lines[a + 1..b];
    assert lines[a..b] == [lines[a]] + rest;
    assert lines[a] in lines && forall line | line in rest :: line in lines;
    JoinOfParts([lines[a]], rest);
  }

  /** A stretch of the lines is no longer than the whole. */
  lemma {:induction false} PartIsShorter(lines: seq<string>, a: nat, b: nat, from: nat, to: nat)
    requires a <= from < to <= b <= |lines| && NoEmptyLine(lines)
    ensures |Join(lines[from..to])| <= |Join(lines[a..b])|
    decreases b - a
  {
    hide Join;
    if a < from {
      WithoutFirst(lines, a, b);
      PartIsShorter(lines, a + 1, b, from, to);
    } else if to < b {
      PartNotEmpty(lines, a, b - 1);
      JoinNext(lines, a, b - 1);
      PartIsShorter(lines, a, b - 1, from, to);
    }
  }

  /** A section keeps the limit; a line too long for it is a section of its own. */
  ghost predicate FitsBetween(lines: seq<string>, from: nat, to: nat) {
    from < to <= |lines| && (|Join(lines[from..to])| <= MAX_SECTION_CHARS || to == from + 1)
  }

  /** A section extends as far as the limit allows, and no further. */
  lemma {:induction false} ExtendIsMaximal(lines: seq<string>, start: nat, end: nat)
    requires NoEmptyLine(lines) && FitsBetween(lines, start, end)
    ensures var r := Extend(lines, start, end);
      && FitsBetween(lines, start, r)
      && (r < |lines| ==> |Join(lines[start..r + 1])| > MAX_SECTION_CHARS)
    decreases |lines| - end
  {
    hide Join;
    if end < |lines| {
      PartNotEmpty(lines, start, end);
      JoinNext(lines, start, end);
      if Fits(Join(lines[start..end]), lines[end]) {
        ExtendIsMaximal(lines, start, end + 1);
      }
    }
  }

  // ---------------------------------------------------------------- what the blocks are

  /** Every section keeps the limit or is one line too long for it. */
  lemma {:induction false} SectionsFit(lines: seq<string>, start: nat, maxSections: nat, k: nat)
    requires NoEmptyLine(lines) && start <= |lines|
    requires k + 1 < |Cuts(lines, start, maxSections)|
    ensures var cuts := Cuts(lines, start, maxSections);
            FitsBetween(lines, cuts[k], cuts[k + 1])
    decreases maxSections
  {
    hide Join, Extend, NoEmptyLine;
    ExtendIsMaximal(lines, start, start + 1);
    var end := Extend(lines, start, start + 1);
    var rest := Cuts(lines, end, maxSections - 1);
    if k > 0 {
      SectionsFit(lines, end, maxSections - 1, k - 1);
    }
  }

  /** Lines without an empty one leave no section out. */
  lemma AllShown(lines: seq<string>, cuts: seq<nat>, blocks: seq<string>)
    requires NoEmptyLine(lines) && Shows(lines, cuts, blocks)
    ensures AreBlocks(lines, cuts, blocks)
  {
    if !AreBlocks(lines, cuts, blocks) {
      PartNotEmpty(lines, cuts[|cuts| - 2], cuts[|cuts| - 1]);
    }
  }

  /** The blocks joined by newlines give back exactly the lines between the first and the last cut. */
  lemma {:induction false} BlocksGiveLinesBack(lines: seq<string>, cuts: seq<nat>, blocks: seq<string>)
    requires NoEmptyLine(lines) && AreBlocks(lines, cuts, blocks) && blocks != []
    ensures cuts[0] < cuts[|blocks|] <= |lines|
    ensures NoEmptyLine(blocks) && Join(blocks) == Join(lines[cuts[0]..cuts[|blocks|]])
    decreases |blocks|
  {
    hide Join;
    var n := |blocks| - 1;
    var init := blocks[..n];
    assert IsSection(lines, cuts, n, blocks[n]);
    PartNotEmpty(lines, cuts[n], cuts[n + 1]);
    assert blocks == init + [blocks[n]];
    if n > 0 {
      assert AreBlocks(lines, cuts[..n + 1], init) by {
        forall k | 0 <= k < n ensures IsSection(lines, cuts[..n + 1], k, init[k]) {
          assert IsSection(lines, cuts, k, blocks[k]);
        }
      }
      BlocksGiveLinesBack(lines, cuts[..n + 1], init);
      var a, b := lines[cuts[0]..cuts[n]], lines[cuts[n]..cuts[n + 1]];
      assert lines[cuts[0]..cuts[n + 1]] == a + b;
      assert forall line | line in a || line in b :: line in lines;
      JoinOfParts(a, b);
      JoinNext(blocks, 0, n);
      assert blocks[0..n] == init && blocks[0..n + 1] == blocks;
      JoinNotEmpty(init);
    } else {
      OneLine(blocks[0]);
      assert blocks == [blocks[0]];
    }
  }

  lemma OneLine(line: string)
    ensures Join([line]) == line
  {
  }

  // ---------------------------------------------------------------- greedy is best

  ghost predicate Consecutive(lines: seq<string>, cuts: seq<nat>) {
    forall k | 0 <= k < |cuts| - 1 :: FitsBetween(lines, cuts[k], cuts[k + 1])
  }

  /** Any way to pack a prefix of the lines into consecutive sections that fit. */
  ghost predicate IsPacking(lines: seq<string>, cuts: seq<nat>) {
    cuts != [] && cuts[0] == 0 && Consecutive(lines, cuts)
  }

  lemma ConsecutiveTail(lines: seq<string>, cuts: seq<nat>)
    requires cuts != [] && Consecutive(lines, cuts)
    ensures Consecutive(lines, cuts[1..])
  {
  }

  /** No section that fits and starts no later reaches beyond the greedy one. */
  lemma AheadByOne(lines: seq<string>, start: nat, from: nat, to: nat)
    requires NoEmptyLine(lines) && FitsBetween(lines, from, to) && from <= start < |lines|
    ensures to <= Extend(lines, start, start + 1)
  {
    hide Join, Extend, NoEmptyLine;
    ExtendIsMaximal(lines, start, start + 1);
    var end := Extend(lines, start, start + 1);
    if end < to {
      PartIsShorter(lines, from, to, start, end + 1);
    }
  }

  function ReachOf(cuts: seq<nat>, k: nat): nat
    requires cuts != []
  {
    if k < |cuts| then cuts[k] else cuts[|cuts| - 1]
  }

  /** The first section of any packing from no later ends no later than the greedy one. */
  lemma FirstCutBehind(lines: seq<string>, start: nat, cuts: seq<nat>)
    requires NoEmptyLine(lines) && start < |lines|
    requires |cuts| >= 2 && Consecutive(lines, cuts) && cuts[0] <= start
    ensures cuts[1] <= Extend(lines, start, start + 1) && Consecutive(lines, cuts[1..])
  {
    assert FitsBetween(lines, cuts[0], cuts[0 + 1]);
    AheadByOne(lines, start, cuts[0], cuts[1]);
    ConsecutiveTail(lines, cuts);
  }

  lemma CutWithinLines(lines: seq<string>, cuts: seq<nat>, k: nat)
    requires 0 < k < |cuts| && Consecutive(lines, cuts)
    ensures cuts[k] <= |lines|
  {
    assert FitsBetween(lines, cuts[k - 1], cuts[k - 1 + 1]);
  }

  lemma ReachNext(start: nat, rest: seq<nat>, k: nat)
    requires rest != [] && k > 0
    ensures ReachOf([start] + rest, k) == ReachOf(rest, k - 1)
  {
  }

  /** Greedy stays ahead: from a start no earlier, its sections reach at least as far. */
  lemma {:induction false} GreedyStaysAhead(lines: seq<string>, start: nat, maxSections: nat, cuts: seq<nat>, k: nat)
    requires NoEmptyLine(lines) && start <= |lines|
    requires k < |cuts| && Consecutive(lines, cuts)
    requires cuts[0] <= start && k <= maxSections
    ensures cuts[k] <= ReachOf(Cuts(lines, start, maxSections), k)
    decreases k
  {
    hide Extend, Consecutive, FitsBetween, Join, NoEmptyLine;
    if k > 0 {
      if start == |lines| {
        CutWithinLines(lines, cuts, k);
      } else {
        FirstCutBehind(lines, start, cuts);
        var end := Extend(lines, start, start + 1);
        GreedyStaysAhead(lines, end, maxSections - 1, cuts[1..], k - 1);
        ReachNext(start, Cuts(lines, end, maxSections - 1), k);
      }
    }
  }

  /** The greedy cuts are themselves a packing. */
  lemma GreedyIsPacking(lines: seq<string>, maxSections: nat)
    requires NoEmptyLine(lines)
    ensures IsPacking(lines, Cuts(lines, 0, maxSections))
  {
    var cuts := Cuts(lines, 0, maxSections);
    forall k | 0 <= k < |cuts| - 1 ensures FitsBetween(lines, cuts[k], cuts[k + 1]) {
      SectionsFit(lines, 0, maxSections, k);
    }
  }

  /** No packing into as many sections packs more lines. */
  lemma GreedyPacksMost(lines: seq<string>, maxSections: nat, cuts: seq<nat>)
    requires NoEmptyLine(lines) && IsPacking(lines, cuts) && |cuts| - 1 <= maxSections
    ensures var greedy := Cuts(lines, 0, maxSections);
            cuts[|cuts| - 1] <= greedy[|greedy| - 1]
  {
    GreedyStaysAhead(lines, 0, maxSections, cuts, |cuts| - 1);
    GreedyIsPacking(lines, maxSections);
    CutsGrow(lines, Cuts(lines, 0, maxSections), |cuts| - 1);
  }

  lemma {:induction false} CutsGrow(lines: seq<string>, cuts: seq<nat>, k: nat)
    requires cuts != [] && Consecutive(lines, cuts)
    ensures ReachOf(cuts, k) <= cuts[|cuts| - 1]
    ensures k < |cuts| - 1 ==> cuts[k] < cuts[|cuts| - 1]
    decreases |cuts| - k
  {
    if k < |cuts| - 1 {
      assert FitsBetween(lines, cuts[k], cuts[k + 1]);
      CutsGrow(lines, cuts, k + 1);
    }
  }

  /** No packing of the lines that greedy packs uses fewer sections. */
  lemma GreedyUsesFewest(lines: seq<string>, maxSections: nat, cuts: seq<nat>)
    requires NoEmptyLine(lines) && IsPacking(lines, cuts)
    requires var greedy := Cuts(lines, 0, maxSections); cuts[|cuts| - 1] == greedy[|greedy| - 1]
    ensures |Cuts(lines, 0, maxSections)| <= |cuts|
  {
    var greedy := Cuts(lines, 0, maxSections);
    if |cuts| < |greedy| {
      GreedyStaysAhead(lines, 0, maxSections, cuts, |cuts| - 1);
      GreedyIsPacking(lines, maxSections);
      CutsGrow(lines, greedy, |cuts| - 1);
    }
  }

  // ---------------------------------------------------------------- the two lists

  /** With as many sections as lines nothing is left over. */
  lemma {:induction false} EnoughSectionsPackAll(lines: seq<string>, start: nat, maxSections: nat)
    requires start <= |lines| && |lines| - start <= maxSections
    ensures var cuts := Cuts(lines, start, maxSections);
            cuts[|cuts| - 1] == |lines|
    decreases maxSections
  {
    if start < |lines| {
      EnoughSectionsPackAll(lines, Extend(lines, start, start + 1), maxSections - 1);
    }
  }

  /** What every list line starts with: a bullet, in its three UTF-8 bytes, a space and a link bracket. */
  const LINE_START := "\U{00E2}\U{0080}\U{00A2} <"

  /** The lines of a list, whatever the formatted entries are. */
  function LinesOf(entries: seq<string>): (lines: seq<string>)
    ensures |lines| == |entries| && NoEmptyLine(lines)
  {
    seq(|entries|, i requires 0 <= i < |entries| => LINE_START + entries[i])
  }

  method FormatLines(entries: seq<string>) returns (lines: seq<string>)
    ensures lines == LinesOf(entries)
  {
    lines := [];
    for i := 0 to |entries|
      invariant lines == LinesOf(entries)[..i]
    {
      lines := lines + [LINE_START + entries[i]];
    }
  }

  /** Every text keeps the limit, or is one of the lines, longer than the limit by itself. */
  ghost predicate WithinLimit(texts: seq<string>, lines: seq<string>) {
    forall k | 0 <= k < |texts| :: |texts[k]| <= MAX_SECTION_CHARS || texts[k] in lines
  }

  /** Blocks cut greedily keep the limit and give their lines back. */
  lemma PackedSections(lines: seq<string>, maxSections: nat, blocks: seq<string>)
    requires NoEmptyLine(lines) && lines != [] && maxSections >= 1
    requires Shows(lines, Cuts(lines, 0, maxSections), blocks)
    ensures var cuts := Cuts(lines, 0, maxSections);
            blocks != [] && |blocks| <= maxSections && Join(blocks) == Join(lines[0..cuts[|cuts| - 1]])
    ensures WithinLimit(blocks, lines)
  {
    hide Join, Extend, NoEmptyLine;
    var cuts := Cuts(lines, 0, maxSections);
    assert |cuts| >= 2;
    AllShown(lines, cuts, blocks);
    BlocksGiveLinesBack(lines, cuts, blocks);
    forall k | 0 <= k < |blocks| ensures |blocks[k]| <= MAX_SECTION_CHARS || blocks[k] in lines {
      assert IsSection(lines, cuts, k, blocks[k]);
      SectionsFit(lines, 0, maxSections, k);
      OneLine(lines[cuts[k]]);
      assert lines[cuts[k]..cuts[k] + 1] == [lines[cuts[k]]];
    }
  }

  /** As many blocks as there are greedy sections. */
  lemma OneBlockPerSection(lines: seq<string>, maxSections: nat, blocks: seq<string>)
    requires NoEmptyLine(lines) && Shows(lines, Cuts(lines, 0, maxSections), blocks)
    ensures |blocks| + 1 == |Cuts(lines, 0, maxSections)|
  {
    AllShown(lines, Cuts(lines, 0, maxSections), blocks);
  }

  /** The stuck digest's list never drops a line, and no packing of all lines has fewer sections. */
  method StuckDigestList(entries: seq<string>) returns (blocks: seq<string>)
    ensures Join(blocks) == Join(LinesOf(entries))
    ensures WithinLimit(blocks, LinesOf(entries))
    ensures forall cuts | entries != [] && IsPacking(LinesOf(entries), cuts) && cuts[|cuts| - 1] == |entries| ::
              |blocks| <= |cuts| - 1
  {
    hide Join, Cuts, Shows, IsPacking, NoEmptyLine;
    var lines := FormatLines(entries);
    var packed: nat;
    blocks, packed := PackSections(lines, |lines|);
    if lines != [] {
      EnoughSectionsPackAll(lines, 0, |lines|);
      PackedSections(lines, |lines|, blocks);
      ShowsInFewest(lines, blocks);
      assert lines[0..packed] == lines;
    } else {
      OneLine("");
      NoTextNoLines(lines, 0, 0);
    }
  }

  /** What the greedy sections of one message show is the most any packing into as many shows. */
  lemma ShowsMost(lines: seq<string>, shown: nat)
    requires NoEmptyLine(lines)
    requires lines != [] ==>
      var greedy := Cuts(lines, 0, MAX_MESSAGE_BLOCKS - 2); shown == greedy[|greedy| - 1]
    ensures forall cuts | IsPacking(lines, cuts) && |cuts| + 1 <= MAX_MESSAGE_BLOCKS :: cuts[|cuts| - 1] <= shown
  {
    hide Cuts, Join, Consecutive, NoEmptyLine;
    forall cuts | IsPacking(lines, cuts) && |cuts| + 1 <= MAX_MESSAGE_BLOCKS ensures cuts[|cuts| - 1] <= shown {
      if lines != [] {
        GreedyPacksMost(lines, MAX_MESSAGE_BLOCKS - 2, cuts);
      } else if |cuts| > 1 {
        CutWithinLines(lines, cuts, |cuts| - 1);
      }
    }
  }

  /** The fewest sections any packing of all lines has. */
  lemma ShowsInFewest(lines: seq<string>, blocks: seq<string>)
    requires NoEmptyLine(lines) && Shows(lines, Cuts(lines, 0, |lines|), blocks)
    ensures forall cuts | IsPacking(lines, cuts) && cuts[|cuts| - 1] == |lines| :: |blocks| <= |cuts| - 1
  {
    hide Cuts, Join, Consecutive, NoEmptyLine, Shows;
    OneBlockPerSection(lines, |lines|, blocks);
    EnoughSectionsPackAll(lines, 0, |lines|);
    forall cuts | IsPacking(lines, cuts) && cuts[|cuts| - 1] == |lines| ensures |blocks| <= |cuts| - 1 {
      GreedyUsesFewest(lines, |lines|, cuts);
    }
  }

  method HeadedSections(headline: string, texts: seq<string>) returns (blocks: seq<Block>)
    ensures blocks == [Section(headline)] + Sections(texts)
  {
    blocks := [Section(headline)];
    for i := 0 to |texts|
      invariant blocks == [Section(headline)] + Sections(texts)[..i]
    {
      blocks := blocks + [Section(texts[i])];
    }
  }

  /** What the packing of one message gives, whether there are lines or not. */
  lemma PackedForMessage(lines: seq<string>, texts: seq<string>, shown: nat)
    requires NoEmptyLine(lines)
    requires lines == [] ==> texts == [""] && shown == 0
    requires lines != [] ==>
      var cuts := Cuts(lines, 0, MAX_MESSAGE_BLOCKS - 2); Shows(lines, cuts, texts) && shown == cuts[|cuts| - 1]
    ensures |texts| <= MAX_MESSAGE_BLOCKS - 2 && shown <= |lines|
    ensures Join(texts) == Join(lines[0..shown]) && WithinLimit(texts, lines)
    ensures forall cuts | IsPacking(lines, cuts) && |cuts| + 1 <= MAX_MESSAGE_BLOCKS :: cuts[|cuts| - 1] <= shown
  {
    hide Cuts, Join, Shows, Consecutive, NoEmptyLine;
    ShowsMost(lines, shown);
    if lines != [] {
      PackedSections(lines, MAX_MESSAGE_BLOCKS - 2, texts);
    } else {
      OneLine("");
      NoTextNoLines(lines, 0, 0);
    }
  }

  datatype Block = Section(text: string) | More(hidden: nat)

  function Sections(texts: seq<string>): seq<Block> {
    seq(|texts|, i requires 0 <= i < |texts| => Section(texts[i]))
  }

  /**
   The scheduled list: the headline, the packed lines, and how many are hidden when they do not all fit. With the two
   other blocks no packing into the blocks of one message shows more lines.
   */
  method ScheduledList(headline: string, entries: seq<string>)
    returns (blocks: seq<Block>, shown: nat, ghost texts: seq<string>)
    ensures |blocks| <= MAX_MESSAGE_BLOCKS && shown <= |entries|
    ensures blocks == [Section(headline)] + Sections(texts) + if shown < |entries| then [More(|entries| - shown)] else []
    ensures Join(texts) == Join(LinesOf(entries)[0..shown])
    ensures WithinLimit(texts, LinesOf(entries))
    ensures forall cuts | IsPacking(LinesOf(entries), cuts) && |cuts| + 1 <= MAX_MESSAGE_BLOCKS :: cuts[|cuts| - 1] <= shown
  {
    hide Shows, Cuts, Join, IsPacking, NoEmptyLine, WithinLimit;
    var lines := FormatLines(entries);
    var packedBlocks: seq<string>;
    packedBlocks, shown := PackSections(lines, MAX_MESSAGE_BLOCKS - 2);
    texts := packedBlocks;
    PackedForMessage(lines, texts, shown);
    blocks := HeadedSections(headline, packedBlocks);
    if |lines| - shown > 0 {
      blocks := blocks + [More(|lines| - shown)];
    }
  }
}

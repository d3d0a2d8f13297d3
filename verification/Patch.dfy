/** Applying the hunks of a unified diff to the lines of a file (pkg/tools/patch_applier.go:49-189). */
module Patches {

  /** A hunk: its first line in the old file, and its lines with their leading sign. */
  datatype Hunk = Hunk(oldStart: nat, lines: seq<string>)

  predicate Is(line: string, sign: char) {
    line != [] && line[0] == sign
  }

  /** The lines that the hunk expects to find: context and removed lines. */
  function OldSide(lines: seq<string>): seq<string> {
    if lines == [] then []
    else if Is(lines[0], ' ') || Is(lines[0], '-') then [lines[0][1..]] + OldSide(lines[1..])
    else OldSide(lines[1..])
  }

  /** The lines that the hunk leaves behind: context and added lines. */
  function NewSide(lines: seq<string>): seq<string> {
    if lines == [] then []
    else if Is(lines[0], ' ') || Is(lines[0], '+') then [lines[0][1..]] + NewSide(lines[1..])
    else NewSide(lines[1..])
  }

  function AddedLines(lines: seq<string>): seq<string> {
    if lines == [] then []
    else (if Is(lines[0], '+') then [lines[0][1..]] else []) + AddedLines(lines[1..])
  }

  function RemovedCount(lines: seq<string>): (n: nat)
    ensures n <= |OldSide(lines)|
  {
    if lines == [] then 0
    else (if Is(lines[0], '-') then 1 else 0) + RemovedCount(lines[1..])
  }

  method ClassifyHunkLines(hunk: Hunk) returns (contextLines: seq<string>, addedLines: seq<string>, removedCount: nat)
    ensures contextLines == OldSide(hunk.lines)
    ensures addedLines == AddedLines(hunk.lines)
    ensures removedCount == RemovedCount(hunk.lines)
  {
    contextLines, addedLines, removedCount := [], [], 0;
    assert hunk.lines[0..] == hunk.lines;
    for k := 0 to |hunk.lines|
      invariant contextLines + OldSide(hunk.lines[k..]) == OldSide(hunk.lines)
      invariant addedLines + AddedLines(hunk.lines[k..]) == AddedLines(hunk.lines)
      invariant removedCount + RemovedCount(hunk.lines[k..]) == RemovedCount(hunk.lines)
    {
      hide OldSide, AddedLines, RemovedCount;
      var l := hunk.lines[k];
      SidesStep(hunk.lines, k);
      if Is(l, ' ') || Is(l, '-') { contextLines := contextLines + [l[1..]]; }
      else if Is(l, '+') { addedLines := addedLines + [l[1..]]; }
      if Is(l, '-') { removedCount := removedCount + 1; }
    }
  }

  lemma {:induction false} SidesStep(lines: seq<string>, k: nat)
    requires k < |lines|
    ensures var l, rest := lines[k], lines[k + 1..];
      && OldSide(lines[k..]) == (if Is(l, ' ') || Is(l, '-') then [l[1..]] else []) + OldSide(rest)
      && AddedLines(lines[k..]) == (if Is(l, '+') then [l[1..]] else []) + AddedLines(rest)
      && RemovedCount(lines[k..]) == (if Is(l, '-') then 1 else 0) + RemovedCount(rest)
  {
    assert lines[k..][1..] == lines[k + 1..];
  }

  /** What a line of a hunk stands for, by its sign. */
  lemma {:induction false} SidesOfLine(l: string)
    ensures l != [] && l[0] == ' ' ==> OldSide([l]) == NewSide([l]) == [l[1..]] && RemovedCount([l]) == 0
    ensures l != [] && l[0] == '-' ==> OldSide([l]) == [l[1..]] && NewSide([l]) == [] && RemovedCount([l]) == 1
    ensures l != [] && l[0] == '+' ==> OldSide([l]) == [] && NewSide([l]) == [l[1..]] && RemovedCount([l]) == 0
    ensures (l == [] || l[0] !in {' ', '-', '+'}) ==>
      OldSide([l]) == NewSide([l]) == [] && RemovedCount([l]) == 0
  {
    assert [l][1..] == [];
  }

  /** The sides of a hunk are those of its lines, in order. */
  lemma {:induction false} SidesConcat(a: seq<string>, b: seq<string>)
    ensures OldSide(a + b) == OldSide(a) + OldSide(b) && NewSide(a + b) == NewSide(a) + NewSide(b)
    ensures RemovedCount(a + b) == RemovedCount(a) + RemovedCount(b)
  {
    if a == [] {
      assert a + b == b;
    } else {
      assert (a + b)[1..] == a[1..] + b;
      SidesConcat(a[1..], b);
    }
  }

  // ---------------------------------------------------------------- one hunk

  /** What a hunk makes of the lines from its position on. Context lines are kept as they are found,
      whatever the hunk says; beyond the end only added lines do something. */
  function Weave(tail: seq<string>, lines: seq<string>): seq<string>
    decreases |lines|
  {
    if lines == [] then tail
    else if Is(lines[0], '-') then Weave(if tail == [] then [] else tail[1..], lines[1..])
    else if Is(lines[0], '+') then [lines[0][1..]] + Weave(tail, lines[1..])
    else if Is(lines[0], ' ') && tail != [] then [tail[0]] + Weave(tail[1..], lines[1..])
    else Weave(tail, lines[1..])
  }

  function AppliedAt(lines: seq<string>, pos: nat, hunk: Hunk): seq<string>
    requires pos <= |lines|
  {
    lines[..pos] + Weave(lines[pos..], hunk.lines)
  }

  /** Edits the lines at a moving position; the offset changes by as much as the length. */
  method ApplyHunk(lines: seq<string>, start: nat, hunk: Hunk, offset: int) returns (lines': seq<string>, offset': int)
    requires start <= |lines|
    ensures lines' == AppliedAt(lines, start, hunk)
    ensures offset' - offset == |lines'| - |lines|
  {
    lines', offset' := lines, offset;
    var pos := start;
    ghost var done, tail := lines[..start], lines[start..];
    assert hunk.lines[0..] == hunk.lines;
    for k := 0 to |hunk.lines|
      invariant lines' == done + tail
      invariant pos == |done| || (tail == [] && pos >= |done|)
      invariant done + Weave(tail, hunk.lines[k..]) == AppliedAt(lines, start, hunk)
      invariant offset' - offset == |lines'| - |lines|
    {
      var l := hunk.lines[k];
      WeaveStep(done, tail, hunk.lines, k);
      if Is(l, '-') {
        if pos < |lines'| {
          lines' := lines'[..pos] + lines'[pos + 1..];
          offset' := offset' - 1;
          tail := tail[1..];
        }
      } else if Is(l, '+') {
        var insertPos := pos;
        if insertPos > |lines'| { insertPos := |lines'|; }
        lines' := lines'[..insertPos] + ([l[1..]] + lines'[insertPos..]);
        pos := pos + 1;
        offset' := offset' + 1;
        done := done + [l[1..]];
      } else if Is(l, ' ') {
        pos := pos + 1;
        if tail != [] { done, tail := done + [tail[0]], tail[1..]; }
      }
    }
  }

  lemma {:induction false} WeaveStep(done: seq<string>, tail: seq<string>, lines: seq<string>, k: nat)
    requires k < |lines|
    ensures done + Weave(tail, lines[k..]) ==
      if Is(lines[k], '-') then done + Weave(if tail == [] then [] else tail[1..], lines[k + 1..])
      else if Is(lines[k], '+') then done + [lines[k][1..]] + Weave(tail, lines[k + 1..])
      else if Is(lines[k], ' ') && tail != [] then done + [tail[0]] + Weave(tail[1..], lines[k + 1..])
      else done + Weave(tail, lines[k + 1..])
  {
    assert lines[k..][1..] == lines[k + 1..];
    if Is(lines[k], '+') {
      assert done + ([lines[k][1..]] + Weave(tail, lines[k + 1..])) == done + [lines[k][1..]] +
        Weave(tail, lines[k + 1..]);
    } else if tail != [] {
      assert done + ([tail[0]] + Weave(tail[1..], lines[k + 1..])) == done + [tail[0]] +
        Weave(tail[1..], lines[k + 1..]);
    }
  }

  /** Past the end of the file only the added lines are left of a hunk. */
  lemma {:induction false} AppliedPastEnd(lines: seq<string>, hunk: Hunk)
    ensures AppliedAt(lines, |lines|, hunk) == lines + AddedLines(hunk.lines)
  {
    assert lines[|lines|..] == [] && lines[..|lines|] == lines;
    WovenFromNothing(hunk.lines);
  }

  lemma {:induction false} WovenFromNothing(lines: seq<string>)
    ensures Weave([], lines) == AddedLines(lines)
  {
    if lines != [] { WovenFromNothing(lines[1..]); }
  }

  /** The context lines of the hunk are those of the block it is applied to. */
  predicate ContextAgrees(block: seq<string>, lines: seq<string>)
    requires |block| == |OldSide(lines)|
    decreases |lines|
  {
    if lines == [] then true
    else if Is(lines[0], '-') then ContextAgrees(block[1..], lines[1..])
    else if Is(lines[0], ' ') then block[0] == lines[0][1..] && ContextAgrees(block[1..], lines[1..])
    else ContextAgrees(block, lines[1..])
  }

  /** The removed lines of the hunk are those of the block it is applied to. */
  predicate RemovedAgrees(block: seq<string>, lines: seq<string>)
    requires |block| == |OldSide(lines)|
    decreases |lines|
  {
    if lines == [] then true
    else if Is(lines[0], ' ') then RemovedAgrees(block[1..], lines[1..])
    else if Is(lines[0], '-') then block[0] == lines[0][1..] && RemovedAgrees(block[1..], lines[1..])
    else RemovedAgrees(block, lines[1..])
  }

  lemma {:induction false} BothAgree(block: seq<string>, lines: seq<string>)
    requires |block| == |OldSide(lines)|
    ensures block == OldSide(lines) <==> ContextAgrees(block, lines) && RemovedAgrees(block, lines)
    decreases |lines|
  {
    if lines != [] {
      if Is(lines[0], ' ') || Is(lines[0], '-') {
        assert block == [block[0]] + block[1..];
        BothAgree(block[1..], lines[1..]);
      } else {
        BothAgree(block, lines[1..]);
      }
    }
  }

  /** A hunk works on its block alone. */
  lemma {:induction false} WeaveBlock(block: seq<string>, rest: seq<string>, lines: seq<string>)
    requires |block| == |OldSide(lines)|
    ensures Weave(block + rest, lines) == Weave(block, lines) + rest
    ensures |Weave(block, lines)| == |NewSide(lines)|
    decreases |lines|
  {
    if lines != [] {
      if Is(lines[0], ' ') || Is(lines[0], '-') {
        assert (block + rest)[1..] == block[1..] + rest;
        WeaveBlock(block[1..], rest, lines[1..]);
      } else {
        WeaveBlock(block, rest, lines[1..]);
      }
      hide Weave, Is, OldSide, NewSide;
    }
  }

  lemma {:induction false} WeaveIsNewSideIff(block: seq<string>, lines: seq<string>)
    requires |block| == |OldSide(lines)|
    ensures Weave(block, lines) == NewSide(lines) <==> ContextAgrees(block, lines)
    decreases |lines|
  {
    if lines != [] {
      var l, rest := lines[0], lines[1..];
      if Is(l, '-') {
        WeaveIsNewSideIff(block[1..], rest);
      } else if Is(l, ' ') {
        WeaveIsNewSideIff(block[1..], rest);
        ConsEqual(block[0], Weave(block[1..], rest), l[1..], NewSide(rest));
      } else {
        WeaveIsNewSideIff(block, rest);
        if Is(l, '+') { ConsEqual(l[1..], Weave(block, rest), l[1..], NewSide(rest)); }
      }
    }
  }

  lemma {:induction false} ConsEqual(a: string, x: seq<string>, b: string, y: seq<string>)
    ensures [a] + x == [b] + y <==> a == b && x == y
  {
    assert ([a] + x)[1..] == x && ([b] + y)[1..] == y;
    assert ([a] + x)[0] == a && ([b] + y)[0] == b;
  }

  /** The hunk with added and removed lines swapped. */
  function Swapped(line: string): string {
    if Is(line, '+') then "-" + line[1..] else if Is(line, '-') then "+" + line[1..] else line
  }

  function Reversed(lines: seq<string>): (r: seq<string>)
    ensures |r| == |lines|
  {
    if lines == [] then [] else [Swapped(lines[0])] + Reversed(lines[1..])
  }

  lemma {:induction false} ReversedSides(lines: seq<string>)
    ensures OldSide(Reversed(lines)) == NewSide(lines) && NewSide(Reversed(lines)) == OldSide(lines)
    ensures Reversed(Reversed(lines)) == lines
  {
    if lines != [] {
      ReversedSides(lines[1..]);
      var r := Reversed(lines);
      assert r[1..] == Reversed(lines[1..]);
      assert Is(lines[0], '+') ==> lines[0] == "+" + lines[0][1..] && Swapped(lines[0])[1..] == lines[0][1..];
      assert Is(lines[0], '-') ==> lines[0] == "-" + lines[0][1..] && Swapped(lines[0])[1..] == lines[0][1..];
      assert Swapped(Swapped(lines[0])) == lines[0];
      assert lines == [lines[0]] + lines[1..];
    }
  }

  lemma {:induction false} WeaveBackIff(block: seq<string>, lines: seq<string>)
    requires |block| == |OldSide(lines)|
    ensures Weave(Weave(block, lines), Reversed(lines)) == block <==> RemovedAgrees(block, lines)
    decreases |lines|
  {
    if lines != [] {
      var l, rest := lines[0], lines[1..];
      assert Reversed(lines)[0] == Swapped(l) && Reversed(lines)[1..] == Reversed(rest);
      if Is(l, '-') {
        WeaveBackIff(block[1..], rest);
        assert Swapped(l)[1..] == l[1..];
        assert block == [block[0]] + block[1..];
        ConsEqual(l[1..], Weave(Weave(block[1..], rest), Reversed(rest)), block[0], block[1..]);
      } else if Is(l, ' ') {
        WeaveBackIff(block[1..], rest);
        assert block == [block[0]] + block[1..];
        var woven := Weave(block[1..], rest);
        assert ([block[0]] + woven)[1..] == woven;
        ConsEqual(block[0], Weave(woven, Reversed(rest)), block[0], block[1..]);
      } else {
        WeaveBackIff(block, rest);
        if Is(l, '+') {
          var woven := Weave(block, rest);
          assert ([l[1..]] + woven)[1..] == woven;
        }
      }
    }
  }

  /** Where the block of the hunk ends. */
  function BlockEnd(pos: nat, hunk: Hunk): nat {
    pos + |OldSide(hunk.lines)|
  }

  /** Replacing the block at `pos` by the new side. */
  function Spliced(lines: seq<string>, pos: nat, hunk: Hunk): seq<string>
    requires BlockEnd(pos, hunk) <= |lines|
  {
    lines[..pos] + NewSide(hunk.lines) + lines[BlockEnd(pos, hunk)..]
  }

  predicate StandsAt(lines: seq<string>, pos: nat, expected: seq<string>) {
    pos + |expected| <= |lines| && lines[pos..pos + |expected|] == expected
  }

  lemma {:induction false} AppliedToBlock(lines: seq<string>, pos: nat, hunk: Hunk)
    requires BlockEnd(pos, hunk) <= |lines|
    ensures var end := BlockEnd(pos, hunk);
      AppliedAt(lines, pos, hunk) == lines[..pos] + Weave(lines[pos..end], hunk.lines) + lines[end..]
  {
    hide Weave, OldSide, NewSide;
    var end := BlockEnd(pos, hunk);
    assert lines[pos..] == lines[pos..end] + lines[end..];
    WeaveBlock(lines[pos..end], lines[end..], hunk.lines);
  }

  lemma {:induction false} MiddleEqual(a: seq<string>, x: seq<string>, y: seq<string>, b: seq<string>)
    requires |x| == |y|
    ensures a + x + b == a + y + b <==> x == y
  {
    assert (a + x + b)[|a|..|a| + |x|] == x;
    assert (a + y + b)[|a|..|a| + |x|] == y;
  }

  /** Applying a hunk is replacing its block by its new side, exactly when the context lines agree. */
  lemma {:induction false} HunkSplicesIff(lines: seq<string>, pos: nat, hunk: Hunk)
    requires BlockEnd(pos, hunk) <= |lines|
    ensures AppliedAt(lines, pos, hunk) == Spliced(lines, pos, hunk) <==>
      ContextAgrees(lines[pos..BlockEnd(pos, hunk)], hunk.lines)
    ensures StandsAt(lines, pos, OldSide(hunk.lines)) ==> AppliedAt(lines, pos, hunk) == Spliced(lines, pos, hunk)
  {
    hide Weave, ContextAgrees, RemovedAgrees, AppliedAt, OldSide, NewSide;
    var end := BlockEnd(pos, hunk);
    var block := lines[pos..end];
    AppliedToBlock(lines, pos, hunk);
    WeaveBlock(block, [], hunk.lines);
    WeaveIsNewSideIff(block, hunk.lines);
    MiddleEqual(lines[..pos], Weave(block, hunk.lines), NewSide(hunk.lines), lines[end..]);
    BothAgree(block, hunk.lines);
  }

  /** Applying the swapped hunk at the same place undoes the hunk, exactly when the removed lines agree. */
  lemma {:induction false} SwappingUndoesIff(lines: seq<string>, pos: nat, hunk: Hunk)
    requires BlockEnd(pos, hunk) <= |lines|
    ensures var back := hunk.(lines := Reversed(hunk.lines));
      AppliedAt(AppliedAt(lines, pos, hunk), pos, back) == lines <==>
      RemovedAgrees(lines[pos..BlockEnd(pos, hunk)], hunk.lines)
  {
    hide Weave, RemovedAgrees, AppliedAt, OldSide, NewSide, Reversed;
    var end := BlockEnd(pos, hunk);
    var block, rest := lines[pos..end], lines[end..];
    var woven := Weave(block, hunk.lines);
    var back := hunk.(lines := Reversed(hunk.lines));
    AppliedToBlock(lines, pos, hunk);
    WeaveBlock(block, [], hunk.lines);
    ReversedSides(hunk.lines);
    var middle := AppliedAt(lines, pos, hunk);
    assert middle == lines[..pos] + woven + rest;
    AppliedToBlock(middle, pos, back);
    assert middle[pos..pos + |woven|] == woven && middle[..pos] == lines[..pos] && middle[pos + |woven|..] == rest;
    WeaveBackIff(block, hunk.lines);
    WeaveBlock(woven, [], back.lines);
    assert lines == lines[..pos] + block + rest;
    MiddleEqual(lines[..pos], Weave(woven, back.lines), block, rest);
  }

  // ---------------------------------------------------------------- where a hunk lands

  function Min(a: int, b: int): int { if a < b then a else b }

  function Max(a: int, b: int): int { if a < b then b else a }

  /** The window searched: from as many lines back as the hunk removes, to three lines ahead. */
  function SearchStart(start: nat, expected: seq<string>, removed: nat): nat {
    Max(start - Min(removed, |expected|), 0)
  }

  function SearchEnd(lines: seq<string>, start: nat): nat {
    Min(start + 3, |lines|)
  }

  /** The first position from `i` to `end` where the expected lines stand, or -1. */
  function FirstMatch(lines: seq<string>, i: nat, end: nat, expected: seq<string>): (r: int)
    ensures r == -1 || (i <= r <= end && StandsAt(lines, r, expected))
    ensures forall k: nat :: i <= k <= end && (r == -1 || k < r) ==> !StandsAt(lines, k, expected)
    decreases end + 1 - i
  {
    if i > end then -1
    else if StandsAt(lines, i, expected) then i
    else FirstMatch(lines, i + 1, end, expected)
  }

  lemma {:induction false} NoRoomNoMatch(lines: seq<string>, i: nat, end: nat, expected: seq<string>)
    requires i + |expected| > |lines|
    ensures FirstMatch(lines, i, end, expected) == -1
    decreases end + 1 - i
  {
    if i <= end { NoRoomNoMatch(lines, i + 1, end, expected); }
  }

  /** Where the expected lines are found; without any, at `start`. */
  function Found(lines: seq<string>, start: nat, expected: seq<string>, removed: nat): int {
    if expected == [] then start
    else FirstMatch(lines, SearchStart(start, expected, removed), SearchEnd(lines, start), expected)
  }

  /** The first position from `lo` to `hi` where the expected lines stand. */
  predicate IsFirst(lines: seq<string>, expected: seq<string>, lo: int, hi: int, p: nat) {
    lo <= p <= hi && StandsAt(lines, p, expected) && forall k: nat :: lo <= k < p ==> !StandsAt(lines, k, expected)
  }

  predicate IsFirstOrNone(lines: seq<string>, expected: seq<string>, lo: int, hi: int, r: int) {
    if r >= 0 then IsFirst(lines, expected, lo, hi, r)
    else r == -1 && forall k: nat :: lo <= k <= hi ==> !StandsAt(lines, k, expected)
  }

  /** With an old side, what is found is the first match from as many lines back as are removed to three ahead. */
  lemma {:induction false} FoundInWindow(lines: seq<string>, start: nat, expected: seq<string>, removed: nat)
    requires start <= |lines| && expected != []
    ensures var back := if removed < |expected| then removed else |expected|;
      IsFirstOrNone(lines, expected, start - back, start + 3, Found(lines, start, expected, removed))
  {
    hide FirstMatch;
  }

  method MatchContextLines(candidate: seq<string>, contextLines: seq<string>) returns (b: bool)
    requires |contextLines| <= |candidate|
    ensures b == (contextLines <= candidate)
  {
    for j := 0 to |contextLines|
      invariant contextLines[..j] == candidate[..j]
    {
      if candidate[j] != contextLines[j] { return false; }
    }
    return true;
  }

  method FindContext(lines: seq<string>, start: nat, contextLines: seq<string>, removedCount: nat) returns (r: int)
    requires start <= |lines|
    ensures r == Found(lines, start, contextLines, removedCount)
    ensures contextLines == [] ==> r == start
    ensures var back := if removedCount < |contextLines| then removedCount else |contextLines|;
      contextLines != [] ==> IsFirstOrNone(lines, contextLines, start - back, start + 3, r)
  {
    hide FirstMatch, StandsAt;
    if |contextLines| == 0 { return start; }
    FoundInWindow(lines, start, contextLines, removedCount);
    var contextBefore := removedCount;
    if contextBefore > |contextLines| { contextBefore := |contextLines|; }
    var searchStart := start - contextBefore;
    if searchStart < 0 { searchStart := 0; }
    var searchEnd := start + 3;
    if searchEnd > |lines| { searchEnd := |lines|; }
    var i: nat := searchStart;
    while i <= searchEnd && i + |contextLines| <= |lines|
      invariant Found(lines, start, contextLines, removedCount) == FirstMatch(lines, i, searchEnd, contextLines)
    {
      var matches := MatchContextLines(lines[i..], contextLines);
      MatchStep(lines, i, searchEnd, contextLines);
      if matches { return i; }
      i := i + 1;
    }
    if i <= searchEnd {
      NoRoomNoMatch(lines, i, searchEnd, contextLines);
    } else {
      PastEnd(lines, i, searchEnd, contextLines);
    }
    return -1;
  }

  lemma {:induction false} MatchStep(lines: seq<string>, i: nat, end: nat, expected: seq<string>)
    requires i <= end && i + |expected| <= |lines|
    ensures FirstMatch(lines, i, end, expected) == if expected <= lines[i..] then i
      else FirstMatch(lines, i + 1, end, expected)
  {
    assert lines[i..][..|expected|] == lines[i..i + |expected|];
  }

  lemma {:induction false} PastEnd(lines: seq<string>, i: nat, end: nat, expected: seq<string>)
    requires i > end
    ensures FirstMatch(lines, i, end, expected) == -1
  {
  }

  /** The line the hunk names, shifted by what earlier hunks added or took away. */
  function Target(lines: seq<string>, hunk: Hunk, offset: int): (r: nat)
    ensures r <= |lines|
  {
    Min(Max(hunk.oldStart - 1 + offset, 0), |lines|)
  }

  /** Where the hunk lands: at the first match in its window, else at its target. */
  function Landing(lines: seq<string>, hunk: Hunk, offset: int): (r: nat)
    ensures r <= |lines|
  {
    var target := Target(lines, hunk, offset);
    var found := Found(lines, target, OldSide(hunk.lines), RemovedCount(hunk.lines));
    if found < 0 then target else found
  }

  /** A hunk with an old side lands at the first place where that stands, from as many lines back as it removes to three
      lines ahead of the line it names, and splices there; where it stands nowhere in between it lands on that line. */
  lemma {:induction false} LandsOnFirst(lines: seq<string>, hunk: Hunk, offset: int, target: nat, p: nat)
    requires OldSide(hunk.lines) != []
    requires var named := hunk.oldStart - 1 + offset;
      target == if named < 0 then 0 else if named > |lines| then |lines| else named
    ensures IsFirst(lines, OldSide(hunk.lines), target - RemovedCount(hunk.lines), target + 3, p) ==>
      && Landing(lines, hunk, offset) == p && BlockEnd(p, hunk) <= |lines|
      && AppliedAt(lines, p, hunk) == Spliced(lines, p, hunk)
    ensures var lo := target - RemovedCount(hunk.lines);
      (forall k: nat :: lo <= k <= target + 3 ==> !StandsAt(lines, k, OldSide(hunk.lines))) ==>
        Landing(lines, hunk, offset) == target
  {
    hide OldSide, RemovedCount, Found, AppliedAt, Spliced;
    var lo, expected := target - RemovedCount(hunk.lines), OldSide(hunk.lines);
    FoundInWindow(lines, target, expected, RemovedCount(hunk.lines));
    var found := Found(lines, target, expected, RemovedCount(hunk.lines));
    assert Landing(lines, hunk, offset) == if found < 0 then target else found;
    assert RemovedCount(hunk.lines) <= |expected|;
    hide IsFirst, IsFirstOrNone, Landing;
    if IsFirst(lines, expected, lo, target + 3, p) {
      OnlyFirst(lines, expected, lo, target + 3, p, found);
      HunkSplicesIff(lines, p, hunk);
    }
    if forall k: nat :: lo <= k <= target + 3 ==> !StandsAt(lines, k, expected) {
      NoneFirst(lines, expected, lo, target + 3, found);
    }
  }

  lemma {:induction false} OnlyFirst(lines: seq<string>, expected: seq<string>, lo: int, hi: int, p: nat, r: int)
    requires IsFirst(lines, expected, lo, hi, p) && IsFirstOrNone(lines, expected, lo, hi, r)
    ensures r == p && StandsAt(lines, p, expected) && p + |expected| <= |lines|
  {
    hide StandsAt;
    if r >= 0 {
      assert StandsAt(lines, r, expected);
    }
    StandsFits(lines, p, expected);
  }

  lemma {:induction false} NoneFirst(lines: seq<string>, expected: seq<string>, lo: int, hi: int, r: int)
    requires IsFirstOrNone(lines, expected, lo, hi, r)
    requires forall k: nat :: lo <= k <= hi ==> !StandsAt(lines, k, expected)
    ensures r == -1
  {
    hide StandsAt;
  }

  /** The lines after all hunks, each applied where it lands. */
  function Patched(lines: seq<string>, offset: int, hunks: seq<Hunk>): seq<string>
    decreases |hunks|
  {
    if hunks == [] then lines
    else
      var next := AppliedAt(lines, Landing(lines, hunks[0], offset), hunks[0]);
      Patched(next, offset + |next| - |lines|, hunks[1..])
  }

  method PatchLines(lines: seq<string>, hunks: seq<Hunk>) returns (result: seq<string>)
    ensures result == Patched(lines, 0, hunks)
  {
    hide AppliedAt, OldSide, RemovedCount, Found;
    result := lines;
    var offset := 0;
    assert hunks[0..] == hunks;
    for k := 0 to |hunks|
      invariant Patched(lines, 0, hunks) == Patched(result, offset, hunks[k..])
    {
      var hunk := hunks[k];
      assert hunks[k..][1..] == hunks[k + 1..];
      var targetStart: int := hunk.oldStart - 1 + offset;
      if targetStart < 0 { targetStart := 0; }
      if targetStart > |result| { targetStart := |result|; }
      var contextLines, _, removedCount := ClassifyHunkLines(hunk);
      var contextMatch := FindContext(result, targetStart, contextLines, removedCount);
      if contextMatch < 0 { contextMatch := targetStart; }
      result, offset := ApplyHunk(result, contextMatch, hunk, offset);
    }
  }

  // ---------------------------------------------------------------- the whole patch

  /** The hunk's target in the old file. */
  function OldPos(hunk: Hunk): int {
    hunk.oldStart - 1
  }

  /** The hunks stand in the old file in order, apart, from `from` on, each with an old side. */
  predicate InOrder(lines: seq<string>, from: nat, hunks: seq<Hunk>): (b: bool)
    ensures b ==> from <= |lines|
    decreases |hunks|
  {
    if hunks == [] then from <= |lines|
    else
      && from <= OldPos(hunks[0])
      && OldSide(hunks[0].lines) != []
      && StandsAt(lines, OldPos(hunks[0]), OldSide(hunks[0].lines))
      && InOrder(lines, BlockEnd(OldPos(hunks[0]), hunks[0]), hunks[1..])
  }

  /** All blocks of the old file replaced by their new sides at once. */
  function SplicedAll(lines: seq<string>, from: nat, hunks: seq<Hunk>): seq<string>
    requires InOrder(lines, from, hunks)
    decreases |hunks|
  {
    if hunks == [] then lines[from..]
    else
      lines[from..OldPos(hunks[0])] + NewSide(hunks[0].lines) +
      SplicedAll(lines, BlockEnd(OldPos(hunks[0]), hunks[0]), hunks[1..])
  }

  /** No match in the part of the window that lies before the target. */
  predicate NoEarlierMatch(lines: seq<string>, target: nat, hunk: Hunk) {
    var expected := OldSide(hunk.lines);
    forall i: nat :: SearchStart(target, expected, RemovedCount(hunk.lines)) <= i < target ==>
      !StandsAt(lines, i, expected)
  }

  /** A hunk that stands at its target lands there, exactly when nothing matches earlier in its window. */
  lemma {:induction false} LandsOnTargetIff(lines: seq<string>, hunk: Hunk, offset: int)
    requires OldSide(hunk.lines) != [] && StandsAt(lines, Target(lines, hunk, offset), OldSide(hunk.lines))
    ensures Landing(lines, hunk, offset) == Target(lines, hunk, offset) <==>
      NoEarlierMatch(lines, Target(lines, hunk, offset), hunk)
    ensures RemovedCount(hunk.lines) == 0 ==> Landing(lines, hunk, offset) == Target(lines, hunk, offset)
  {
    hide StandsAt, OldSide, RemovedCount;
    var target := Target(lines, hunk, offset);
    assert target <= SearchEnd(lines, target);
  }

  /** No hunk is drawn to an earlier match when its turn comes: `done` is what the hunks before made of
      the first `from` lines. */
  predicate NoneDrawnBack(done: seq<string>, lines: seq<string>, from: nat, hunks: seq<Hunk>)
    requires InOrder(lines, from, hunks)
    decreases |hunks|
  {
    hunks == [] ||
    var pos, end := OldPos(hunks[0]), BlockEnd(OldPos(hunks[0]), hunks[0]);
    && NoEarlierMatch(done + lines[from..], |done| + pos - from, hunks[0])
    && NoneDrawnBack(done + lines[from..pos] + NewSide(hunks[0].lines), lines, end, hunks[1..])
  }

  lemma {:induction false} StandsShifted(done: seq<string>, lines: seq<string>, from: nat, pos: nat,
      expected: seq<string>)
    requires from <= pos && StandsAt(lines, pos, expected)
    ensures StandsAt(done + lines[from..], |done| + pos - from, expected)
  {
    var all, at := done + lines[from..], |done| + pos - from;
    assert all[at..at + |expected|] == lines[from..][pos - from..pos - from + |expected|] ==
      lines[pos..pos + |expected|];
  }

  /** One hunk that stands in the untouched part and is not drawn back. */
  lemma {:induction false} OneHunkSplices(done: seq<string>, lines: seq<string>, from: nat, hunk: Hunk)
    requires from <= OldPos(hunk) && OldSide(hunk.lines) != [] && StandsAt(lines, OldPos(hunk), OldSide(hunk.lines))
    requires NoEarlierMatch(done + lines[from..], |done| + OldPos(hunk) - from, hunk)
    ensures var current, offset := done + lines[from..], |done| - from;
      AppliedAt(current, Landing(current, hunk, offset), hunk) ==
      done + lines[from..OldPos(hunk)] + NewSide(hunk.lines) + lines[BlockEnd(OldPos(hunk), hunk)..]
  {
    hide AppliedAt, OldSide, NewSide, Landing, NoEarlierMatch, RemovedCount, StandsAt;
    StandsFits(lines, OldPos(hunk), OldSide(hunk.lines));
    var current, offset, at := done + lines[from..], |done| - from, |done| + OldPos(hunk) - from;
    StandsShifted(done, lines, from, OldPos(hunk), OldSide(hunk.lines));
    assert Target(current, hunk, offset) == at;
    LandsOnTargetIff(current, hunk, offset);
    HunkSplicesIff(current, at, hunk);
    assert current[..at] == done + lines[from..OldPos(hunk)];
    assert current[BlockEnd(at, hunk)..] == lines[BlockEnd(OldPos(hunk), hunk)..];
  }

  lemma {:induction false} StandsFits(lines: seq<string>, pos: nat, expected: seq<string>)
    requires StandsAt(lines, pos, expected)
    ensures pos + |expected| <= |lines|
  {
  }

  lemma {:induction false} PatchedFrom(done: seq<string>, lines: seq<string>, from: nat, hunks: seq<Hunk>)
    requires InOrder(lines, from, hunks) && NoneDrawnBack(done, lines, from, hunks)
    ensures from <= |lines|
    ensures Patched(done + lines[from..], |done| - from, hunks) == done + SplicedAll(lines, from, hunks)
    decreases |hunks|
  {
    hide AppliedAt, OldSide, NewSide, Landing, NoEarlierMatch;
    if hunks != [] {
      var hunk, pos := hunks[0], OldPos(hunks[0]);
      var end, new' := BlockEnd(pos, hunk), done + lines[from..pos] + NewSide(hunk.lines);
      OneHunkSplices(done, lines, from, hunk);
      PatchedFrom(new', lines, end, hunks[1..]);
      assert |new' + lines[end..]| - |done + lines[from..]| + (|done| - from) == |new'| - end;
      assert new' + SplicedAll(lines, end, hunks[1..]) ==
        done + (lines[from..pos] + NewSide(hunk.lines) + SplicedAll(lines, end, hunks[1..]));
    }
  }

  /** A patch whose hunks stand in the file in order and apart, none of them drawn to an earlier match,
      replaces all their blocks at once, by positions of the old file. */
  lemma {:induction false} PatchSplicesAll(lines: seq<string>, hunks: seq<Hunk>)
    requires InOrder(lines, 0, hunks) && NoneDrawnBack([], lines, 0, hunks)
    ensures Patched(lines, 0, hunks) == SplicedAll(lines, 0, hunks)
  {
    hide Patched, SplicedAll, InOrder, NoneDrawnBack;
    PatchedFrom([], lines, 0, hunks);
    assert [] + lines[0..] == lines;
    assert [] + SplicedAll(lines, 0, hunks) == SplicedAll(lines, 0, hunks);
  }

  /** The windows reach only into untouched lines, and nothing in the old file matches there. */
  predicate OldFileDecides(lines: seq<string>, from: nat, hunks: seq<Hunk>)
    requires InOrder(lines, from, hunks)
    decreases |hunks|
  {
    hunks == [] ||
    (&& SearchStart(OldPos(hunks[0]), OldSide(hunks[0].lines), RemovedCount(hunks[0].lines)) >= from
     && NoEarlierMatch(lines, OldPos(hunks[0]), hunks[0])
     && OldFileDecides(lines, BlockEnd(OldPos(hunks[0]), hunks[0]), hunks[1..]))
  }

  lemma {:induction false} SliceBehind(done: seq<string>, lines: seq<string>, from: nat, i: nat, n: nat)
    requires from <= |lines| && |done| <= i && i + n <= |done + lines[from..]|
    ensures (done + lines[from..])[i..i + n] == lines[i - |done| + from..i - |done| + from + n]
  {
    var j := i - |done| + from;
    var here, there := (done + lines[from..])[i..i + n], lines[j..j + n];
    assert forall k :: 0 <= k < n ==> here[k] == there[k];
  }

  lemma {:induction false} OldWindow(done: seq<string>, lines: seq<string>, from: nat, hunk: Hunk)
    requires from <= OldPos(hunk) <= |lines|
    requires SearchStart(OldPos(hunk), OldSide(hunk.lines), RemovedCount(hunk.lines)) >= from
    requires NoEarlierMatch(lines, OldPos(hunk), hunk)
    requires from == 0 ==> done == []
    ensures NoEarlierMatch(done + lines[from..], |done| + OldPos(hunk) - from, hunk)
  {
    hide OldSide, RemovedCount;
    var expected := OldSide(hunk.lines);
    var all, target := done + lines[from..], |done| + OldPos(hunk) - from;
    forall i: nat | SearchStart(target, expected, RemovedCount(hunk.lines)) <= i < target
      ensures !StandsAt(all, i, expected)
    {
      var j := i - |done| + from;
      assert !StandsAt(lines, j, expected);
      if i + |expected| <= |all| {
        SliceBehind(done, lines, from, i, |expected|);
      }
    }
  }

  /** A condition on the old file alone under which no hunk is drawn back. */
  lemma {:induction false} OldFileEnough(done: seq<string>, lines: seq<string>, from: nat, hunks: seq<Hunk>)
    requires InOrder(lines, from, hunks) && OldFileDecides(lines, from, hunks)
    requires from == 0 ==> done == []
    ensures NoneDrawnBack(done, lines, from, hunks)
    decreases |hunks|
  {
    hide NoEarlierMatch, OldSide, NewSide, RemovedCount, SearchStart;
    if hunks != [] {
      var pos, end := OldPos(hunks[0]), BlockEnd(OldPos(hunks[0]), hunks[0]);
      OldWindow(done, lines, from, hunks[0]);
      OldFileEnough(done + lines[from..pos] + NewSide(hunks[0].lines), lines, end, hunks[1..]);
    }
  }

  /** A patch of one hunk replaces the first old side in its window, which may lie up to three lines behind the line
      that it names. */
  lemma {:induction false} OneHunkFinds(lines: seq<string>, hunk: Hunk, p: nat)
    requires OldSide(hunk.lines) != [] && 1 <= hunk.oldStart <= |lines| + 1
    requires IsFirst(lines, OldSide(hunk.lines), hunk.oldStart - 1 - RemovedCount(hunk.lines), hunk.oldStart + 2, p)
    ensures Patched(lines, 0, [hunk]) ==
      lines[..p] + NewSide(hunk.lines) + lines[p + |OldSide(hunk.lines)|..]
  {
    hide OldSide, NewSide, RemovedCount, Landing, AppliedAt;
    var target := hunk.oldStart - 1;
    LandsOnFirst(lines, hunk, 0, target, p);
    assert IsFirst(lines, OldSide(hunk.lines), target - RemovedCount(hunk.lines), target + 3, p);
    var next := AppliedAt(lines, p, hunk);
    assert Landing(lines, hunk, 0) == p && next == Spliced(lines, p, hunk);
    assert [hunk][1..] == [] && Patched(next, 0 + |next| - |lines|, []) == next;
  }

  /** A hunk whose old side stands one line further on changes that line. */
  lemma {:induction false} FoundAhead()
    ensures Patched(["x", "a"], 0, [Hunk(1, ["-a", "+b"])]) == ["x", "b"]
  {
    var lines, hunk := ["x", "a"], Hunk(1, ["-a", "+b"]);
    assert hunk.lines[1..] == ["+b"] && ["+b"][1..] == [];
    assert OldSide(hunk.lines) == ["a"] && NewSide(hunk.lines) == ["b"] && RemovedCount(hunk.lines) == 1;
    assert lines[0..1] == ["x"] && lines[1..2] == ["a"];
    OneHunkFinds(lines, hunk, 1);
  }

  /** With an earlier match in its window the hunk changes the wrong line. */
  lemma {:induction false} DrawnBack()
    ensures var lines, hunk := ["a", "a"], Hunk(2, ["-a", "+b"]);
      InOrder(lines, 0, [hunk]) && SplicedAll(lines, 0, [hunk]) == ["a", "b"] && Patched(lines, 0, [hunk]) == ["b", "a"]
  {
    var lines, hunk := ["a", "a"], Hunk(2, ["-a", "+b"]);
    assert hunk.lines[1..] == ["+b"] && ["+b"][1..] == [];
    assert OldSide(hunk.lines) == ["a"] && NewSide(hunk.lines) == ["b"] && RemovedCount(hunk.lines) == 1;
    assert StandsAt(lines, 0, ["a"]) && StandsAt(lines, 1, ["a"]);
    assert [hunk][1..] == [];
    assert Landing(lines, hunk, 0) == 0;
    assert lines[1..] == ["a"] && Weave(["a"], ["+b"]) == ["b", "a"];
    assert Weave(lines, hunk.lines) == ["b", "a"];
    assert lines[0..] == lines && lines[..0] == [];
  }

  /** A hunk of added lines alone goes in front of the line it names, not behind it. */
  lemma {:induction false} PureInsertion(lines: seq<string>, hunk: Hunk)
    requires OldSide(hunk.lines) == []
    ensures var at := Target(lines, hunk, 0);
      Patched(lines, 0, [hunk]) == lines[..at] + NewSide(hunk.lines) + lines[at..]
    ensures 1 <= hunk.oldStart <= |lines| ==> Target(lines, hunk, 0) == hunk.oldStart - 1
  {
    hide AppliedAt, OldSide, NewSide;
    var at := Target(lines, hunk, 0);
    assert [hunk][1..] == [];
    HunkSplicesIff(lines, at, hunk);
    assert StandsAt(lines, at, []);
  }

  lemma {:induction false} Commutes(x: string, added: seq<string>)
    ensures added + [x] == [x] + added <==> forall k :: 0 <= k < |added| ==> added[k] == x
  {
    var l, r := added + [x], [x] + added;
    if l == r {
      AllEqual(x, added, |added|);
    }
    if forall k :: 0 <= k < |added| ==> added[k] == x {
      assert forall k :: 0 <= k < |l| ==> l[k] == x && r[k] == x;
    }
  }

  lemma {:induction false} AllEqual(x: string, added: seq<string>, n: nat)
    requires added + [x] == [x] + added && n <= |added|
    ensures forall k :: 0 <= k < n ==> added[k] == x
  {
    if n > 0 {
      AllEqual(x, added, n - 1);
      assert (added + [x])[n - 1] == ([x] + added)[n - 1];
    }
  }

  /** The standard puts the added lines of such a hunk behind line `n`. The code agrees exactly at the very
      beginning and where all added lines repeat line `n`. */
  lemma {:induction false} InsertionAgreesIff(lines: seq<string>, hunk: Hunk)
    requires OldSide(hunk.lines) == [] && hunk.oldStart <= |lines|
    ensures var n, added := hunk.oldStart, NewSide(hunk.lines);
      Patched(lines, 0, [hunk]) == lines[..n] + added + lines[n..] <==>
      n == 0 || forall k :: 0 <= k < |added| ==> added[k] == lines[n - 1]
  {
    hide Patched, OldSide, NewSide;
    var n, added := hunk.oldStart, NewSide(hunk.lines);
    PureInsertion(lines, hunk);
    if n > 0 {
      var x := lines[n - 1];
      assert lines[..n] == lines[..n - 1] + [x] && lines[n - 1..] == [x] + lines[n..];
      Commutes(x, added);
      assert lines[..n - 1] + added + ([x] + lines[n..]) == lines[..n - 1] + (added + [x]) + lines[n..];
      assert lines[..n - 1] + [x] + added + lines[n..] == lines[..n - 1] + ([x] + added) + lines[n..];
      MiddleEqual(lines[..n - 1], added + [x], [x] + added, lines[n..]);
    } else {
      assert lines[..0] + added + lines[0..] == added + lines;
    }
  }

  /** Past the end there is nothing to stand in front of: the added lines go to the end. */
  lemma {:induction false} InsertionPastEnd(lines: seq<string>, hunk: Hunk)
    requires OldSide(hunk.lines) == [] && hunk.oldStart > |lines|
    ensures Patched(lines, 0, [hunk]) == lines + NewSide(hunk.lines)
  {
    hide Patched, OldSide, NewSide;
    PureInsertion(lines, hunk);
    assert lines[..|lines|] == lines && lines[|lines|..] == [];
  }

  /** A line to be added behind line 1 of a file is added in front of it. */
  lemma {:induction false} InsertionInFront()
    ensures Patched(["a"], 0, [Hunk(1, ["+b"])]) == ["b", "a"]
  {
    var hunk := Hunk(1, ["+b"]);
    assert ["+b"][1..] == [];
    assert OldSide(hunk.lines) == [] && NewSide(hunk.lines) == ["b"];
    PureInsertion(["a"], hunk);
  }

  // ---------------------------------------------------------------- files

  /** The text cut at newlines. */
  function Cut(content: string): (r: seq<string>)
    ensures r != []
  {
    if content == [] then [[]]
    else if content[0] == '\n' then [[]] + Cut(content[1..])
    else
      var rest := Cut(content[1..]);
      [[content[0]] + rest[0]] + rest[1..]
  }

  /** An empty last line is dropped. */
  function SplitLines(content: string): seq<string> {
    var lines := Cut(content);
    if lines[|lines| - 1] == [] then lines[..|lines| - 1] else lines
  }

  function JoinLines(lines: seq<string>): string {
    if lines == [] then [] else if |lines| == 1 then lines[0] else lines[0] + "\n" + JoinLines(lines[1..])
  }

  /** The new content of the file. */
  function Updated(content: string, hunks: seq<Hunk>): string {
    JoinLines(Patched(SplitLines(content), 0, hunks)) + "\n"
  }

  method UpdateFile(content: string, hunks: seq<Hunk>) returns (result: string)
    ensures result == Updated(content, hunks)
  {
    var lines := PatchLines(SplitLines(content), hunks);
    result := JoinLines(lines) + "\n";
  }

  lemma {:induction false} JoinCut(content: string)
    ensures JoinLines(Cut(content)) == content
  {
    if content != [] {
      JoinCut(content[1..]);
      var rest := Cut(content[1..]);
      if content[0] == '\n' {
        assert Cut(content)[1..] == rest;
      } else {
        var c := [content[0]];
        assert Cut(content)[1..] == rest[1..];
        if |rest| > 1 {
          assert c + rest[0] + "\n" + JoinLines(rest[1..]) == c + (rest[0] + "\n" + JoinLines(rest[1..]));
        }
      }
    }
  }

  /** The lines are what stands between the newlines. */
  lemma {:induction false} CutHasNoNewlines(content: string)
    ensures forall k :: 0 <= k < |Cut(content)| ==> '\n' !in Cut(content)[k]
  {
    if content != [] {
      var rest := Cut(content[1..]);
      CutHasNoNewlines(content[1..]);
      forall k | 0 <= k < |Cut(content)|
        ensures '\n' !in Cut(content)[k]
      {
        if content[0] == '\n' {
          assert k > 0 ==> Cut(content)[k] == rest[k - 1];
        } else {
          assert Cut(content)[k] == if k == 0 then [content[0]] + rest[0] else rest[k];
        }
      }
    }
  }

  lemma {:induction false} CutOne(line: string)
    requires '\n' !in line
    ensures Cut(line) == [line]
  {
    if line != [] {
      CutOne(line[1..]);
      assert [line[0]] + line[1..] == line;
      assert Cut(line) == [[line[0]] + Cut(line[1..])[0]] + Cut(line[1..])[1..];
    }
  }

  lemma {:induction false} CutLine(line: string, content: string)
    requires '\n' !in line
    ensures Cut(line + "\n" + content) == [line] + Cut(content)
  {
    var all := line + "\n" + content;
    if line == [] {
      assert all[1..] == content;
    } else {
      assert all[1..] == line[1..] + "\n" + content;
      CutLine(line[1..], content);
      assert [line[0]] + line[1..] == line;
    }
  }

  /** A file of lines that each end with a newline is patched line by line. */
  lemma {:induction false} UpdatedLines(lines: seq<string>, hunks: seq<Hunk>)
    requires lines != [] && forall k :: 0 <= k < |lines| ==> '\n' !in lines[k]
    ensures Updated(JoinLines(lines) + "\n", hunks) == JoinLines(Patched(lines, 0, hunks)) + "\n"
  {
    hide Patched;
    CutJoined(lines);
    var all := lines + [[]];
    assert all[..|all| - 1] == lines;
  }

  lemma {:induction false} CutJoined(lines: seq<string>)
    requires lines != [] && forall k :: 0 <= k < |lines| ==> '\n' !in lines[k]
    ensures Cut(JoinLines(lines) + "\n") == lines + [[]]
  {
    CutOne([]);
    if |lines| == 1 {
      CutLine(lines[0], []);
      assert lines[0] + "\n" + [] == JoinLines(lines) + "\n" && lines == [lines[0]];
    } else {
      CutJoined(lines[1..]);
      CutLine(lines[0], JoinLines(lines[1..]) + "\n");
      assert lines[0] + "\n" + (JoinLines(lines[1..]) + "\n") == JoinLines(lines) + "\n";
      assert [lines[0]] + (lines[1..] + [[]]) == lines + [[]];
    }
  }

  lemma {:induction false} JoinSnoc(lines: seq<string>, last: string)
    requires lines != []
    ensures JoinLines(lines + [last]) == JoinLines(lines) + "\n" + last
  {
    if |lines| > 1 {
      assert (lines + [last])[1..] == lines[1..] + [last];
      JoinSnoc(lines[1..], last);
      assert lines[0] + "\n" + (JoinLines(lines[1..]) + "\n" + last) == lines[0] + "\n" + JoinLines(lines[1..]) +
        "\n" + last;
    } else {
      assert (lines + [last])[1..] == [last];
    }
  }

  lemma {:induction false} LastLineEmptyIff(content: string)
    ensures var lines := Cut(content);
      lines[|lines| - 1] == [] <==> content == [] || content[|content| - 1] == '\n'
    ensures |Cut(content)| == 1 && Cut(content)[0] == [] ==> content == []
  {
    if content != [] {
      LastLineEmptyIff(content[1..]);
    }
  }

  /** Without hunks the file stays as it is exactly when it ends with a newline: an empty file, and one
      without a final newline, gain one. */
  lemma {:induction false} NoHunksIdentityIff(content: string)
    ensures Updated(content, []) == content <==> content != [] && content[|content| - 1] == '\n'
  {
    hide Cut, JoinLines;
    var lines := Cut(content);
    JoinCut(content);
    LastLineEmptyIff(content);
    var n := |lines| - 1;
    if lines[n] == [] && n > 0 {
      JoinSnoc(lines[..n], []);
      assert lines == lines[..n] + [[]];
      assert JoinLines(lines[..n]) + "\n" + [] == JoinLines(lines[..n]) + "\n";
    } else if content != [] {
      var result := content + "\n";
      assert |result| == |content| + 1;
    } else {
      assert |JoinLines([]) + "\n"| >= 1;
    }
  }
}

/** Extraction of git commands from an assistant answer (extractGitCommands in
    static/js/script.js). The rendered answer is given by the texts of its
    `<code>` elements and the texts of its `<pre>` blocks, each in document
    order; a fenced block `<pre><code>…</code></pre>` appears in both. */
module Extractor {
  import opened Wrappers
  import opened Text

  /** The literal prefix a command must start with. */
  const GitPrefix: string := "git "

  /** A trimmed text is taken for a command when it starts with the prefix. */
  predicate IsGitCommand(t: string) {
    StartsWith(t, GitPrefix)
  }

  /** The first pass: the trimmed text of every code element that is a
      command, in document order, duplicates included. */
  function CodePass(codes: seq<string>): seq<string>
  {
    if codes == [] then []
    else
      var t := Trim(JavaScript, codes[|codes| - 1]);
      CodePass(codes[..|codes| - 1]) + (if IsGitCommand(t) then [t] else [])
  }

  /** The second pass over the lines of one block: each trimmed line that is
      a command and not yet collected is appended. */
  function AddLines(acc: seq<string>, lines: seq<string>): seq<string>
  {
    if lines == [] then acc
    else
      var a := AddLines(acc, lines[..|lines| - 1]);
      var t := Trim(JavaScript, lines[|lines| - 1]);
      if IsGitCommand(t) && t !in a then a + [t] else a
  }

  /** The second pass over all blocks, each split into lines at '\n'. */
  function AddBlocks(acc: seq<string>, pres: seq<string>): seq<string>
  {
    if pres == [] then acc
    else AddLines(AddBlocks(acc, pres[..|pres| - 1]), Split(pres[|pres| - 1], '\n'))
  }

  /** What extractGitCommands returns for the given code and pre texts. */
  function Extract(codes: seq<string>, pres: seq<string>): seq<string>
  {
    AddBlocks(CodePass(codes), pres)
  }

  /** Every element is trimmed and starts with the prefix. */
  predicate AllCommands(s: seq<string>) {
    forall i :: 0 <= i < |s| ==> IsTrimmed(JavaScript, s[i]) && IsGitCommand(s[i])
  }

  /** `r` extends `acc`, and every element past `acc` differs from every
      element before it. */
  predicate ExtendsWithNew(acc: seq<string>, r: seq<string>) {
    |acc| <= |r| && r[..|acc|] == acc
    && forall i, j :: 0 <= i < j < |r| && |acc| <= j ==> r[i] != r[j]
  }

  /** The two passes as the browser runs them: a loop over the code texts,
      then a loop over the blocks, each handled by AppendBlockLines. */
  method ExtractGitCommands(codes: seq<string>, pres: seq<string>) returns (commands: seq<string>)
    ensures commands == Extract(codes, pres)
    ensures AllCommands(commands)
  {
    commands := [];
    for i := 0 to |codes|
      invariant commands == CodePass(codes[..i])
    {
      var text := Trim(JavaScript, codes[i]);
      if StartsWith(text, GitPrefix) {
        commands := commands + [text];
      }
      assert codes[..i + 1][..i] == codes[..i];
    }
    assert codes[..|codes|] == codes;
    ghost var base := commands;
    for k := 0 to |pres|
      invariant commands == AddBlocks(base, pres[..k])
    {
      commands := AppendBlockLines(commands, pres[k]);
      assert pres[..k + 1][..k] == pres[..k];
    }
    assert pres[..|pres|] == pres;
    ExtractedAreCommands(codes, pres);
  }

  /** The loop over the lines of one block: each trimmed line that is a
      command and not yet in `commands` is appended. */
  method AppendBlockLines(commands: seq<string>, pre: string) returns (r: seq<string>)
    ensures r == AddLines(commands, Split(pre, '\n'))
  {
    var lines := Split(pre, '\n');
    r := commands;
    for l := 0 to |lines|
      invariant r == AddLines(commands, lines[..l])
    {
      var trimmed := Trim(JavaScript, lines[l]);
      if StartsWith(trimmed, GitPrefix) && trimmed !in r {
        r := r + [trimmed];
      }
      assert lines[..l + 1][..l] == lines[..l];
    }
    assert lines[..|lines|] == lines;
  }

  // ---------------------------------------------------------------------
  // Every extracted string is a trimmed command.

  lemma {:induction false} CodePassAreCommands(codes: seq<string>)
    ensures AllCommands(CodePass(codes))
  {
    if codes != [] {
      CodePassAreCommands(codes[..|codes| - 1]);
    }
  }

  lemma {:induction false} AddLinesAreCommands(acc: seq<string>, lines: seq<string>)
    requires AllCommands(acc)
    ensures AllCommands(AddLines(acc, lines))
  {
    if lines != [] {
      AddLinesAreCommands(acc, lines[..|lines| - 1]);
    }
  }

  lemma {:induction false} AddBlocksAreCommands(acc: seq<string>, pres: seq<string>)
    requires AllCommands(acc)
    ensures AllCommands(AddBlocks(acc, pres))
  {
    if pres != [] {
      AddBlocksAreCommands(acc, pres[..|pres| - 1]);
      AddLinesAreCommands(AddBlocks(acc, pres[..|pres| - 1]), Split(pres[|pres| - 1], '\n'));
    }
  }

  /** Every string extractGitCommands returns is trimmed and starts with
      "git ". */
  lemma ExtractedAreCommands(codes: seq<string>, pres: seq<string>)
    ensures AllCommands(Extract(codes, pres))
  {
    CodePassAreCommands(codes);
    AddBlocksAreCommands(CodePass(codes), pres);
  }

  // ---------------------------------------------------------------------
  // The pre pass only appends strings not collected before.

  lemma ExtendsWithNewTrans(a: seq<string>, b: seq<string>, c: seq<string>)
    requires ExtendsWithNew(a, b) && ExtendsWithNew(b, c)
    ensures ExtendsWithNew(a, c)
  {
    assert c[..|a|] == c[..|b|][..|a|];
  }

  lemma {:induction false} AddLinesExtends(acc: seq<string>, lines: seq<string>)
    ensures ExtendsWithNew(acc, AddLines(acc, lines))
  {
    if lines != [] {
      var a := AddLines(acc, lines[..|lines| - 1]);
      AddLinesExtends(acc, lines[..|lines| - 1]);
      var t := Trim(JavaScript, lines[|lines| - 1]);
      if IsGitCommand(t) && t !in a {
        assert ExtendsWithNew(a, a + [t]);
        ExtendsWithNewTrans(acc, a, a + [t]);
      }
    }
  }

  /** The pre pass keeps what it was given, in place, and appends only
      strings that are not already present: it never adds a duplicate. */
  lemma {:induction false} PrePassAddsOnlyNew(acc: seq<string>, pres: seq<string>)
    ensures ExtendsWithNew(acc, AddBlocks(acc, pres))
  {
    if pres != [] {
      PrePassAddsOnlyNew(acc, pres[..|pres| - 1]);
      var a := AddBlocks(acc, pres[..|pres| - 1]);
      AddLinesExtends(a, Split(pres[|pres| - 1], '\n'));
      ExtendsWithNewTrans(acc, a, AddBlocks(acc, pres));
    }
  }

  /** The result starts with the code pass's list, unchanged, and whatever
      follows it is free of duplicates and of anything the code pass found. */
  lemma CodeTextsFirst(codes: seq<string>, pres: seq<string>)
    ensures ExtendsWithNew(CodePass(codes), Extract(codes, pres))
  {
    PrePassAddsOnlyNew(CodePass(codes), pres);
  }

  // ---------------------------------------------------------------------
  // Which strings are extracted.

  /** Some code text trims to `c`. */
  ghost predicate InCode(codes: seq<string>, c: string) {
    exists i :: 0 <= i < |codes| && Trim(JavaScript, codes[i]) == c
  }

  /** Some line trims to `c`. */
  ghost predicate InLines(lines: seq<string>, c: string) {
    exists l :: 0 <= l < |lines| && Trim(JavaScript, lines[l]) == c
  }

  /** Some line of the block `pre` trims to `c`. */
  ghost predicate InBlock(pre: string, c: string) {
    InLines(Split(pre, '\n'), c)
  }

  /** Some line of some block trims to `c`. */
  ghost predicate InBlocks(pres: seq<string>, c: string) {
    exists k :: 0 <= k < |pres| && InBlock(pres[k], c)
  }

  lemma {:induction false} CodePassMembers(codes: seq<string>, c: string)
    ensures c in CodePass(codes) <==> IsGitCommand(c) && InCode(codes, c)
  {
    if codes != [] {
      var init := codes[..|codes| - 1];
      CodePassMembers(init, c);
      assert forall i :: 0 <= i < |init| ==> init[i] == codes[i];
      if InCode(codes, c) && !InCode(init, c) {
        assert Trim(JavaScript, codes[|codes| - 1]) == c;
      }
    }
  }

  lemma {:induction false} AddLinesMembers(acc: seq<string>, lines: seq<string>, c: string)
    ensures c in AddLines(acc, lines) <==> c in acc || (IsGitCommand(c) && InLines(lines, c))
  {
    if lines != [] {
      var init := lines[..|lines| - 1];
      AddLinesMembers(acc, init, c);
      assert forall l :: 0 <= l < |init| ==> init[l] == lines[l];
      if InLines(lines, c) && !InLines(init, c) {
        assert Trim(JavaScript, lines[|lines| - 1]) == c;
      }
    }
  }

  /** The blocks of `pres` hold `c` when its leading blocks or its last one do. */
  lemma InBlocksSnoc(pres: seq<string>, c: string)
    requires pres != []
    ensures InBlocks(pres, c) <==> InBlocks(pres[..|pres| - 1], c) || InBlock(pres[|pres| - 1], c)
  {
    if InBlocks(pres, c) {
      InBlocksSplit(pres, c);
    }
    var init := pres[..|pres| - 1];
    if InBlocks(init, c) {
      var k :| 0 <= k < |init| && InBlock(init[k], c);
      assert init[k] == pres[k];
    }
  }

  lemma InBlocksSplit(pres: seq<string>, c: string)
    requires pres != [] && InBlocks(pres, c)
    ensures InBlocks(pres[..|pres| - 1], c) || InBlock(pres[|pres| - 1], c)
  {
    var k :| 0 <= k < |pres| && InBlock(pres[k], c);
    if k < |pres| - 1 {
      var init := pres[..|pres| - 1];
      assert init[k] == pres[k];
    }
  }

  lemma {:induction false} AddBlocksMembers(acc: seq<string>, pres: seq<string>, c: string)
    ensures c in AddBlocks(acc, pres) <==> c in acc || (IsGitCommand(c) && InBlocks(pres, c))
  {
    if pres != [] {
      var init := pres[..|pres| - 1];
      AddBlocksMembers(acc, init, c);
      AddLinesMembers(AddBlocks(acc, init), Split(pres[|pres| - 1], '\n'), c);
      InBlocksSnoc(pres, c);
    }
  }

  /** A string is extracted exactly when it is a command and some code text
      or some line of some block trims to it. In particular a command line of
      a block is skipped only because an equal string was collected earlier. */
  lemma ExtractMembers(codes: seq<string>, pres: seq<string>, c: string)
    ensures c in Extract(codes, pres) <==> IsGitCommand(c) && (InCode(codes, c) || InBlocks(pres, c))
  {
    CodePassMembers(codes, c);
    AddBlocksMembers(CodePass(codes), pres, c);
  }

  /** Some line of `lines` trims to a command. */
  ghost predicate LinesHaveCommand(lines: seq<string>) {
    exists l :: 0 <= l < |lines| && IsGitCommand(Trim(JavaScript, lines[l]))
  }

  /** Some code text, or some line of some block, trims to a command. */
  ghost predicate HasCommandText(codes: seq<string>, pres: seq<string>) {
    (exists i :: 0 <= i < |codes| && IsGitCommand(Trim(JavaScript, codes[i])))
    || (exists k :: 0 <= k < |pres| && LinesHaveCommand(Split(pres[k], '\n')))
  }

  lemma ExtractedHaveText(codes: seq<string>, pres: seq<string>)
    requires Extract(codes, pres) != []
    ensures HasCommandText(codes, pres)
  {
    var c := Extract(codes, pres)[0];
    ExtractMembers(codes, pres, c);
    if InCode(codes, c) {
      var i :| 0 <= i < |codes| && Trim(JavaScript, codes[i]) == c;
      assert IsGitCommand(Trim(JavaScript, codes[i]));
    } else {
      var k :| 0 <= k < |pres| && InBlock(pres[k], c);
      var lines := Split(pres[k], '\n');
      var l :| 0 <= l < |lines| && Trim(JavaScript, lines[l]) == c;
      assert LinesHaveCommand(lines);
    }
  }

  lemma TextExtracted(codes: seq<string>, pres: seq<string>)
    requires HasCommandText(codes, pres)
    ensures Extract(codes, pres) != []
  {
    if i :| 0 <= i < |codes| && IsGitCommand(Trim(JavaScript, codes[i])) {
      ExtractMembers(codes, pres, Trim(JavaScript, codes[i]));
    } else {
      var k :| 0 <= k < |pres| && LinesHaveCommand(Split(pres[k], '\n'));
      var lines := Split(pres[k], '\n');
      var l :| 0 <= l < |lines| && IsGitCommand(Trim(JavaScript, lines[l]));
      var c := Trim(JavaScript, lines[l]);
      assert InBlock(pres[k], c);
      ExtractMembers(codes, pres, c);
    }
  }

  /** Nothing is extracted exactly when no code text and no line of any
      block trims to a command. */
  lemma ExtractEmptyIff(codes: seq<string>, pres: seq<string>)
    ensures Extract(codes, pres) == [] <==> !HasCommandText(codes, pres)
  {
    if Extract(codes, pres) != [] {
      ExtractedHaveText(codes, pres);
    }
    if HasCommandText(codes, pres) {
      TextExtracted(codes, pres);
    }
  }

  // ---------------------------------------------------------------------
  // Order: document order for code texts, block then line order for pre lines.

  /** The code pass keeps document order: the texts of a document made of two
      parts are those of the first part followed by those of the second. */
  lemma {:induction false} CodePassAppend(a: seq<string>, b: seq<string>)
    ensures CodePass(a + b) == CodePass(a) + CodePass(b)
  {
    if b == [] {
      assert a + b == a;
    } else {
      var b' := b[..|b| - 1];
      assert (a + b)[..|a + b| - 1] == a + b';
      CodePassAppend(a, b');
    }
  }

  lemma {:induction false} AddLinesAppend(acc: seq<string>, l1: seq<string>, l2: seq<string>)
    ensures AddLines(acc, l1 + l2) == AddLines(AddLines(acc, l1), l2)
  {
    if l2 == [] {
      assert l1 + l2 == l1;
    } else {
      var l2' := l2[..|l2| - 1];
      assert (l1 + l2)[..|l1 + l2| - 1] == l1 + l2';
      AddLinesAppend(acc, l1, l2');
    }
  }

  /** The pre pass handles blocks one after the other: the result for blocks
      `p1 + p2` is the result for `p1` continued with the blocks of `p2`. */
  lemma {:induction false} AddBlocksAppend(acc: seq<string>, p1: seq<string>, p2: seq<string>)
    ensures AddBlocks(acc, p1 + p2) == AddBlocks(AddBlocks(acc, p1), p2)
  {
    if p2 == [] {
      assert p1 + p2 == p1;
    } else {
      var p2' := p2[..|p2| - 1];
      assert (p1 + p2)[..|p1 + p2| - 1] == p1 + p2';
      AddBlocksAppend(acc, p1, p2');
    }
  }

  /** Within one block, lines are visited in order: a block made of the lines
      of `first` followed by those of `second` is handled as `first` then
      `second`. */
  lemma BlockLinesInOrder(acc: seq<string>, first: seq<string>, second: seq<string>)
    requires |first| >= 1 && |second| >= 1
    requires forall i :: 0 <= i < |first| ==> '\n' !in first[i]
    requires forall i :: 0 <= i < |second| ==> '\n' !in second[i]
    ensures AddBlocks(acc, [Join(first + second, '\n')])
            == AddLines(AddLines(acc, first), second)
  {
    SplitJoin(first + second, '\n');
    assert [Join(first + second, '\n')][..0] == [];
    AddLinesAppend(acc, first, second);
  }

  // ---------------------------------------------------------------------
  // The asymmetry between the passes, on concrete answers.

  /** The same command in two inline code spans is extracted twice: the code
      pass does not deduplicate. */
  lemma CodePassKeepsDuplicates()
    ensures Extract(["git status", " git status"], []) == ["git status", "git status"]
  {
    var c := "git status";
    assert IsTrimmed(JavaScript, c);
    TrimTrimmed(JavaScript, c);
    assert IsGitCommand(c);
    var d := " git status";
    assert LeadingSpace(JavaScript, d) == 1 by {
      assert d[1..] == c;
    }
    assert Trim(JavaScript, d) == c by {
      assert d[1..] == c;
    }
    assert CodePass([c]) == [c] by {
      assert [c][..0] == [];
    }
    assert CodePass([c, d]) == [c, c] by {
      assert [c, d][..1] == [c];
    }
  }

  /** The block of the example below splits into its two lines. */
  lemma SplitTwoLines()
    ensures Split("git add .\ngit push", '\n') == ["git add .", "git push"]
  {
    assert ["git add .", "git push"][1..] == ["git push"];
    assert Join(["git add .", "git push"], '\n') == "git add .\ngit push";
    SplitJoin(["git add .", "git push"], '\n');
  }

  /** The code pass of the example below keeps the block's text whole. */
  lemma FencedBlockCodePass()
    ensures CodePass(["git add .\ngit push"]) == ["git add .\ngit push"]
  {
    var block := "git add .\ngit push";
    assert IsTrimmed(JavaScript, block);
    TrimTrimmed(JavaScript, block);
    var blocks := [block];
    assert blocks[..0] == [];
  }

  /** The pre pass of the example below appends both lines. */
  lemma FencedBlockLines()
    ensures AddLines(["git add .\ngit push"], ["git add .", "git push"])
            == ["git add .\ngit push", "git add .", "git push"]
  {
    var add, push := "git add .", "git push";
    assert IsTrimmed(JavaScript, add) && IsTrimmed(JavaScript, push);
    TrimTrimmed(JavaScript, add);
    TrimTrimmed(JavaScript, push);
    var lines := [add, push];
    assert lines[..1] == [add] && lines[..1][..0] == [];
  }

  /** A fenced block of two commands is extracted whole by the code pass and
      line by line by the pre pass. */
  lemma FencedBlockTwice()
    ensures Extract(["git add .\ngit push"], ["git add .\ngit push"])
            == ["git add .\ngit push", "git add .", "git push"]
  {
    var blocks := ["git add .\ngit push"];
    assert blocks[..0] == [];
    FencedBlockCodePass();
    SplitTwoLines();
    FencedBlockLines();
  }

  /** A single-line fenced block yields its command once: the pre pass
      skips the line the code pass already collected. */
  lemma SingleLineBlockOnce()
    ensures Extract(["git push"], ["git push"]) == ["git push"]
  {
    var p := "git push";
    assert IsTrimmed(JavaScript, p);
    TrimTrimmed(JavaScript, p);
    assert IsGitCommand(p);
    assert [p][..0] == [];
    SplitSepFree(p, '\n');
  }

  /** A line in which "git " does not come first (after trimming) is not a
      command. */
  lemma PrefixNotInside()
    ensures Extract([], ["run git status"]) == []
  {
    var p := "run git status";
    assert IsTrimmed(JavaScript, p);
    TrimTrimmed(JavaScript, p);
    assert !IsGitCommand(p) by {
      assert p[..4] != GitPrefix by { assert p[0] == 'r'; }
    }
    var blocks := [p];
    assert blocks[..0] == [];
    SplitSepFree(p, '\n');
  }

  // ---------------------------------------------------------------------
  // The copy-to-terminal and copy-commands handlers.

  /** The handlers report an error instead of listing commands when the
      extraction is empty. */
  function ShowCommands(commands: seq<string>): Result<seq<string>>
  {
    if |commands| == 0 then Err("No Git commands found in AI response") else Ok(commands)
  }

  /** The error is reported exactly when no code text and no block line trims
      to a command; otherwise the extracted list is shown as it is. */
  lemma NoCommandsReported(codes: seq<string>, pres: seq<string>)
    ensures ShowCommands(Extract(codes, pres)).Err? <==> !HasCommandText(codes, pres)
    ensures ShowCommands(Extract(codes, pres)).Err? ==>
      ShowCommands(Extract(codes, pres)).message == "No Git commands found in AI response"
    ensures ShowCommands(Extract(codes, pres)).Ok? ==>
      ShowCommands(Extract(codes, pres)).value == Extract(codes, pres)
  {
    ExtractEmptyIff(codes, pres);
  }
}

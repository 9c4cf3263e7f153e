/** Properties that connect the browser script to the backend: what the
    script extracts and sends is what the backend's checks accept, and what
    the script concludes from the backend's model list matches the
    assistant's state. */
module Pipeline {
  import opened Wrappers
  import opened Text
  import opened Catalog
  import Extractor
  import Frontend
  import GitOps
  import Assistant

  /** A command starting with "git " passes the backend's whitelist exactly
      when something other than Python whitespace follows the prefix: Python
      strips all of it, leaving "git" and nothing more. */
  lemma WhitelistIff(c: string)
    requires StartsWith(c, "git ")
    ensures GitOps.PassesWhitelist(c) <==> exists i :: 4 <= i < |c| && !IsSpace(Python, c[i])
  {
    var r := Trim(Python, c);
    assert LeadingSpace(Python, c) == 0 by {
      assert c[0] == 'g';
    }
    if exists i :: 4 <= i < |c| && !IsSpace(Python, c[i]) {
      var i :| 4 <= i < |c| && !IsSpace(Python, c[i]);
      assert i < |r|;
      assert r[..4] == c[..4];
    }
    if GitOps.PassesWhitelist(c) {
      assert r[3] == ' ';
      assert |r| - 1 >= 4 && c[|r| - 1] == r[|r| - 1];
    }
  }

  /** Every command the script extracts passes the backend's whitelist
      exactly when it holds something besides Python whitespace after the
      prefix; in particular whenever its last character is not one of the
      characters only Python counts as whitespace (U+001C..U+001F, U+0085). */
  lemma ExtractedCommandAccepted(codes: seq<string>, pres: seq<string>, c: string)
    requires c in Extractor.Extract(codes, pres)
    ensures |c| > 4
    ensures GitOps.PassesWhitelist(c) <==> exists i :: 4 <= i < |c| && !IsSpace(Python, c[i])
    ensures !IsSpace(Python, c[|c| - 1]) ==> GitOps.PassesWhitelist(c)
  {
    Extractor.ExtractedAreCommands(codes, pres);
    var k :| 0 <= k < |Extractor.Extract(codes, pres)| && Extractor.Extract(codes, pres)[k] == c;
    assert IsTrimmed(JavaScript, c) && StartsWith(c, "git ");
    WhitelistIff(c);
    assert c[3] == ' ';
    assert |c| - 1 >= 4;
  }

  /** An extracted command the whitelist accepts is run by the backend as
      extracted, in the selected directory. */
  lemma ExtractedCommandRuns(ops: GitOps.GitOperations, codes: seq<string>, pres: seq<string>,
                             c: string, shell: GitOps.Shell)
    requires c in Extractor.Extract(codes, pres) && c != [] && !IsSpace(Python, c[|c| - 1])
    ensures GitOps.ExecuteCommand(ops, Some(c), shell) == ops.Run(c, shell)
  {
    ExtractedCommandAccepted(codes, pres, c);
  }

  /** The whitelist looks at the prefix only: a chained command line passes
      it and reaches the shell as sent, second command included. */
  lemma CommandChainingAccepted(ops: GitOps.GitOperations, shell: GitOps.Shell)
    requires ops.currentDirectory.Some?
    ensures GitOps.PassesWhitelist("git status; rm -rf .")
    ensures GitOps.ExecuteCommand(ops, Some("git status; rm -rf ."), shell).ran ==
      [GitOps.Invocation("git status; rm -rf .", ops.currentDirectory.value)]
  {
    var c := "git status; rm -rf .";
    assert StartsWith(c, "git ") && !IsSpace(Python, c[4]);
    WhitelistIff(c);
    GitOps.ExecuteCommandGuard(ops, Some(c), shell);
  }

  /** The inline code "git " followed by U+001C is extracted (JavaScript's
      trim keeps U+001C) but refused by the whitelist (Python's strip
      removes it, leaving "git"). */
  lemma InformationSeparatorRefused()
    ensures "git \U{1C}" in Extractor.Extract(["git \U{1C}"], [])
    ensures !GitOps.PassesWhitelist("git \U{1C}")
  {
    SeparatorExtracted();
    SeparatorRefused();
  }

  lemma SeparatorExtracted()
    ensures "git \U{1C}" in Extractor.Extract(["git \U{1C}"], [])
  {
    var c := "git \U{1C}";
    assert !IsSpace(JavaScript, c[0]) && !IsSpace(JavaScript, c[4]);
    TrimTrimmed(JavaScript, c);
    var codes := [c];
    assert codes[..0] == [];
    assert Extractor.CodePass(codes) == [c];
  }

  lemma SeparatorRefused()
    ensures !GitOps.PassesWhitelist("git \U{1C}")
  {
    var c := "git \U{1C}";
    WhitelistIff(c);
    assert IsSpace(Python, c[4]);
  }

  /** An add-files request from the script stages everything exactly when
      its field was blank or "all" once trimmed. */
  lemma AddFilesStagesAllIff(value: string)
    ensures var arg := Frontend.Argument(Frontend.AddFiles, value).value;
      Frontend.RequestFor(Frontend.AddFiles, arg) == Frontend.Post("/api/add-files", [("files", arg)])
      && (GitOps.AddCommand(GitOps.Pattern(arg)) == "git add ." <==>
            Trim(JavaScript, value) == "" || Trim(JavaScript, value) == "all")
  {
    var arg := Frontend.Argument(Frontend.AddFiles, value).value;
    GitOps.AddEverythingIff(GitOps.Pattern(arg));
  }

  /** A commit message the script sends is never refused by the backend's
      empty-message guard: the commit command is run with it. */
  lemma SentCommitMessageRuns(ops: GitOps.GitOperations, value: string, shell: GitOps.Shell)
    requires Frontend.Argument(Frontend.Commit, value).Ok?
    ensures var m := Frontend.Argument(Frontend.Commit, value).value;
      GitOps.CommitRoute(ops, GitOps.Str(m), shell) == ops.Run(GitOps.CommitCommand(m), shell)
  {
    Frontend.ArgumentRefusesOnlyBlank(Frontend.Commit, value);
  }

  /** Fed the backend's model list, the script considers the assistant
      configured exactly when the current model is a table key whose
      provider has a key, and then shows that model's name. */
  lemma ConfiguredIffKeyed(a: Assistant.AIAssistant)
    ensures var s := Frontend.FindSelected(a.DescriptorsUpTo(|AiModels|));
      ((s.Some? && s.value.configured) <==>
        a.currentModel.Some? && IsModelKey(a.currentModel.value)
        && Lookup(a.currentModel.value).value.provider in a.apiKeys)
      && (s.Some? ==> a.currentModel.Some? && IsModelKey(a.currentModel.value)
                      && s.value.name == Lookup(a.currentModel.value).value.name)
  {
    var ds := a.DescriptorsUpTo(|AiModels|);
    Assistant.DescriptorsMeaning(a);
    Assistant.SelectedIffKnownModel(a);
    var s := Frontend.FindSelected(ds);
    if s.Some? {
      var i :| 0 <= i < |ds| && ds[i] == s.value && ds[i].selected
               && forall j :: 0 <= j < i ==> !ds[j].selected;
      assert a.currentModel == Some(AiModels[i].key);
      assert Lookup(AiModels[i].key) == Some(AiModels[i].config);
    }
  }
}

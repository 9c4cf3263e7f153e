/** The git side of the Flask backend (app.py): the GitOperations object,
    which keeps the selected working directory and turns each operation into
    a shell command line run there, and the git routes, which read their
    request fields and call it. The shell is an oracle from an invocation
    (command line and working directory) to what the process did. */
module GitOps {
  import opened Wrappers
  import opened Text

  /** One `subprocess.run(command, cwd=..., shell=True)` call. */
  datatype Invocation = Invocation(command: string, cwd: string)

  /** What such a call did: it exited with a code and its two output
      streams, hit the 30-second timeout, or raised. */
  datatype Process = Exited(code: int, stdout: string, stderr: string) | TimedOut | Raised(error: string)

  type Shell = Invocation -> Process

  /** The `(success, message)` pair an operation returns, with the
      invocations it made, in order. */
  datatype Outcome = Outcome(success: bool, message: string, ran: seq<Invocation>)

  /** A request field: missing from the JSON body, null, or a string. */
  datatype Field = Absent | Null | Str(value: string)

  /** `data.get(name, default)`: a missing field gives the default, null
      gives None. */
  function Get(f: Field, default: Option<string>): Option<string>
  {
    match f
    case Absent => default
    case Null => None
    case Str(s) => Some(s)
  }

  /** How an f-string shows an optional string. */
  function Show(o: Option<string>): string
  {
    match o
    case None => "None"
    case Some(s) => s
  }

  // ---------------------------------------------------------------------
  // Command lines

  const NoDirectory: string := "No directory selected"
  const CommitMessageRequired: string := "Commit message is required"

  /** The argument of add_files: None, one string, or a list of names. */
  datatype FilesArg = NoFiles | Pattern(text: string) | Names(names: seq<string>)

  /** A name between double quotes. */
  function Quote(s: string): string
  {
    "\"" + s + "\""
  }

  function QuotedAll(names: seq<string>): (qs: seq<string>)
    ensures |qs| == |names| && forall i :: 0 <= i < |names| ==> qs[i] == Quote(names[i])
  {
    seq(|names|, i requires 0 <= i < |names| => Quote(names[i]))
  }

  /** The command line of add_files: everything when given None or "all",
      otherwise each name double-quoted, separated by single spaces. */
  function AddCommand(files: FilesArg): string
  {
    match files
    case NoFiles => "git add ."
    case Pattern(t) => if t == "all" then "git add ." else "git add " + Quote(t)
    case Names(ns) => if ns == [] then "git add " else "git add " + Join(QuotedAll(ns), ' ')
  }

  function CommitCommand(message: string): string
  {
    "git commit -m " + Quote(message)
  }

  function RemoteAddCommand(name: string, url: string): string
  {
    "git remote add " + name + " " + url
  }

  function PushCommand(remote: string, branch: string): string
  {
    "git push -u " + remote + " " + branch
  }

  function PullCommand(remote: string, branch: string): string
  {
    "git pull " + remote + " " + branch
  }

  /** The ref-existence probe of set_branch. */
  function ShowRefCommand(branch: string): string
  {
    "git show-ref --verify --quiet refs/heads/" + branch
  }

  function CheckoutCommand(branch: string): string
  {
    "git checkout " + branch
  }

  function CreateBranchCommand(branch: string): string
  {
    "git checkout -b " + branch
  }

  // ---------------------------------------------------------------------
  // Reading command lines back

  /** The length of the longest prefix of `s` without a double quote. */
  function QuoteFree(s: string): (k: nat)
    ensures k <= |s| && '"' !in s[..k] && (k < |s| ==> s[k] == '"')
  {
    if s == [] || s[0] == '"' then 0
    else
      var k := QuoteFree(s[1..]);
      assert s[..k + 1] == [s[0]] + s[1..][..k];
      1 + k
  }

  /** The characters a POSIX shell still interprets between double quotes:
      the closing quote, parameter and command substitution, and the
      backslash escape. */
  predicate ExpandsInQuotes(c: char) {
    c == '"' || c == '$' || c == '`' || c == '\\'
  }

  /** A string the shell passes on unchanged when it stands between double
      quotes, and that the process launch accepts (no NUL character, which
      makes subprocess.run raise before the shell starts). */
  predicate Literal(s: string) {
    forall i :: 0 <= i < |s| ==> !ExpandsInQuotes(s[i]) && s[i] != '\0'
  }

  /** Splits a leading double-quoted word off `s`: its contents and what
      follows its closing quote; None unless the contents are literal. */
  function QuotedPrefix(s: string): Option<(string, string)>
  {
    if s == [] || s[0] != '"' then None
    else
      var k := QuoteFree(s[1..]);
      if k == |s| - 1 || !Literal(s[1..k + 1]) then None else Some((s[1..k + 1], s[k + 2..]))
  }

  /** The arguments a shell makes of a non-empty list of double-quoted
      literal words separated by single spaces; None for any other shape
      (including a quoted word the shell would expand). */
  function UnquoteWords(s: string): Option<seq<string>>
    decreases |s|
  {
    match QuotedPrefix(s)
    case None => None
    case Some((name, rest)) =>
      if rest == [] then Some([name])
      else if rest[0] != ' ' then None
      else match UnquoteWords(rest[1..])
        case None => None
        case Some(ns) => Some([name] + ns)
  }

  predicate LiteralNames(ns: seq<string>) {
    forall i :: 0 <= i < |ns| ==> Literal(ns[i])
  }

  lemma {:induction false} QuoteFreeAt(name: string, tail: string)
    requires '"' !in name
    ensures QuoteFree(name + "\"" + tail) == |name|
  {
    if name != [] {
      assert (name + "\"" + tail)[1..] == name[1..] + "\"" + tail;
      QuoteFreeAt(name[1..], tail);
    }
  }

  /** A quoted literal name is split off whole. */
  lemma QuotedPrefixOf(name: string, tail: string)
    requires Literal(name)
    ensures QuotedPrefix(Quote(name) + tail) == Some((name, tail))
  {
    assert forall i :: 0 <= i < |name| ==> name[i] != '"';
    var s := Quote(name) + tail;
    assert s[0] == '"';
    assert s[1..] == name + "\"" + tail;
    QuoteFreeAt(name, tail);
    assert s[1..|name| + 1] == name;
    assert s[|name| + 2..] == tail;
  }

  /** Quoting and joining, then reading back, gives the names again when
      each of them is literal between double quotes. */
  lemma {:induction false} UnquoteJoined(ns: seq<string>)
    requires ns != [] && LiteralNames(ns)
    ensures UnquoteWords(Join(QuotedAll(ns), ' ')) == Some(ns)
  {
    var qs := QuotedAll(ns);
    if |ns| == 1 {
      QuotedPrefixOf(ns[0], "");
      assert Join(qs, ' ') == Quote(ns[0]) + "";
      assert QuotedPrefix(Join(qs, ' ')) == Some((ns[0], ""));
      assert ns == [ns[0]];
    } else {
      var rest := Join(QuotedAll(ns[1..]), ' ');
      assert qs[1..] == QuotedAll(ns[1..]);
      assert Join(qs, ' ') == Quote(ns[0]) + (" " + rest);
      QuotedPrefixOf(ns[0], " " + rest);
      assert (" " + rest)[1..] == rest;
      UnquoteJoined(ns[1..]);
      assert [ns[0]] + ns[1..] == ns;
    }
  }

  /** add_files stages everything exactly for None and "all"; any other
      argument never becomes that command. */
  lemma AddEverythingIff(files: FilesArg)
    ensures AddCommand(files) == "git add ." <==> files == NoFiles || files == Pattern("all")
  {
    if files.Names? && files.names != [] {
      var s := Join(QuotedAll(files.names), ' ');
      assert Join(QuotedAll(files.names), ' ')[0] == '"' by {
        if |files.names| > 1 {
          assert s == Quote(files.names[0]) + " " + Join(QuotedAll(files.names)[1..], ' ');
        }
      }
      assert AddCommand(files)[8] == '"';
    }
    if files.Pattern? && files.text != "all" {
      assert AddCommand(files)[8] == '"';
    }
  }

  /** A list of names reaches git as those names, one argument each, when
      every name is literal between double quotes (no `"`, `$`, backquote,
      backslash or NUL); a single other string is staged as a one-name list. */
  lemma AddNamesRoundTrip(files: FilesArg)
    requires files.Names? ==> files.names != [] && LiteralNames(files.names)
    requires files.Pattern? ==> files.text != "all" && Literal(files.text)
    ensures files.Names? || files.Pattern? ==>
      var cmd := AddCommand(files);
      StartsWith(cmd, "git add ")
      && UnquoteWords(cmd[8..]) == Some(if files.Names? then files.names else [files.text])
  {
    if files.Names? {
      UnquoteJoined(files.names);
      assert AddCommand(files)[8..] == Join(QuotedAll(files.names), ' ');
    } else if files.Pattern? {
      UnquoteJoined([files.text]);
      assert AddCommand(files)[8..] == Join(QuotedAll([files.text]), ' ');
    }
  }

  /** Quoting does not escape: a name holding a double quote and a space
      gives the same command line as two names. */
  lemma AddQuotingNotInjective()
    ensures AddCommand(Names(["a\" \"b"])) == AddCommand(Names(["a", "b"]))
  {
    var one, two := QuotedAll(["a\" \"b"]), QuotedAll(["a", "b"]);
    assert one == [one[0]] && one[0] == Quote("a\" \"b");
    assert two == [two[0], two[1]] && two[0] == Quote("a") && two[1] == Quote("b");
    assert two[1..] == [two[1]];
    assert Join(two, ' ') == Quote("a") + " " + Quote("b");
  }

  /** The commit message reaches git as the single argument of -m when it
      is literal between double quotes (no `"`, `$`, backquote, backslash
      or NUL). */
  lemma CommitMessageRoundTrip(message: string)
    requires Literal(message)
    ensures StartsWith(CommitCommand(message), "git commit -m ")
    ensures UnquoteWords(CommitCommand(message)[14..]) == Some([message])
  {
    UnquoteJoined([message]);
    assert CommitCommand(message)[14..] == Join(QuotedAll([message]), ' ');
  }

  /** A message holding a command substitution is not literal: the shell
      would replace it by the command's output, so it is not read back. */
  lemma SubstitutionNotRead()
    ensures !Literal("$(id)")
    ensures UnquoteWords(CommitCommand("$(id)")[14..]) == None
  {
    assert ExpandsInQuotes("$(id)"[0]);
    var w := CommitCommand("$(id)")[14..];
    assert w == "\"$(id)\"";
    QuoteFreeAt("$(id)", "");
    assert w[1..] == "$(id)" + "\"" + "";
    assert w[1..6] == "$(id)";
  }

  /** A text without spaces. The word lemmas below split command lines at
      single spaces, not by the shell's word splitting: tabs, newlines,
      `;`, substitutions and other shell syntax in an argument are outside
      what they state. */
  predicate IsWord(s: string) {
    ' ' !in s
  }

  /** Proof helper: the command line with its words grouped for SplitWord. */
  lemma RemoteAddShape(a: string, b: string)
    ensures RemoteAddCommand(a, b) == "git" + " " + ("remote" + " " + ("add" + " " + (a + " " + b)))
  {
  }

  /** Proof helper: the command line with its words grouped for SplitWord. */
  lemma PushShape(a: string, b: string)
    ensures PushCommand(a, b) == "git" + " " + ("push" + " " + ("-u" + " " + (a + " " + b)))
  {
  }

  /** Proof helper: the command line with its words grouped for SplitWord. */
  lemma PullShape(a: string, b: string)
    ensures PullCommand(a, b) == "git" + " " + ("pull" + " " + (a + " " + b))
  {
  }

  /** Proof helper: the command line with its words grouped for SplitWord. */
  lemma CheckoutShape(b: string)
    ensures CheckoutCommand(b) == "git" + " " + ("checkout" + " " + b)
  {
  }

  /** Proof helper: the command line with its words grouped for SplitWord. */
  lemma CreateBranchShape(b: string)
    ensures CreateBranchCommand(b) == "git" + " " + ("checkout" + " " + ("-b" + " " + b))
  {
  }

  /** Proof helper: a leading word becomes its own part. */
  lemma SplitWord(w: string, tail: string)
    requires IsWord(w)
    ensures Split(w + " " + tail, ' ') == [w] + Split(tail, ' ')
  {
    SplitPrefixed(w, tail, ' ');
  }

  /** With space-free arguments, the remote command line splits at its
      spaces into exactly the expected words, the arguments in place. */
  lemma RemoteAddWords(a: string, b: string)
    requires IsWord(a) && IsWord(b)
    ensures Split(RemoteAddCommand(a, b), ' ') == ["git", "remote", "add", a, b]
  {
    SplitSepFree(b, ' ');
    SplitWord(a, b);
    SplitWord("add", a + " " + b);
    SplitWord("remote", "add" + " " + (a + " " + b));
    RemoteAddShape(a, b);
    SplitWord("git", "remote" + " " + ("add" + " " + (a + " " + b)));
  }

  /** The push command line splits likewise. */
  lemma PushCommandWords(a: string, b: string)
    requires IsWord(a) && IsWord(b)
    ensures Split(PushCommand(a, b), ' ') == ["git", "push", "-u", a, b]
  {
    SplitSepFree(b, ' ');
    SplitWord(a, b);
    SplitWord("-u", a + " " + b);
    SplitWord("push", "-u" + " " + (a + " " + b));
    PushShape(a, b);
    SplitWord("git", "push" + " " + ("-u" + " " + (a + " " + b)));
  }

  /** The pull command line splits likewise. */
  lemma PullCommandWords(a: string, b: string)
    requires IsWord(a) && IsWord(b)
    ensures Split(PullCommand(a, b), ' ') == ["git", "pull", a, b]
  {
    SplitSepFree(b, ' ');
    SplitWord(a, b);
    SplitWord("pull", a + " " + b);
    PullShape(a, b);
    SplitWord("git", "pull" + " " + (a + " " + b));
  }

  /** With a space-free branch name, the checkout command lines split at
      their spaces into the expected words. */
  lemma CheckoutCommandWords(b: string)
    requires IsWord(b)
    ensures Split(CheckoutCommand(b), ' ') == ["git", "checkout", b]
    ensures Split(CreateBranchCommand(b), ' ') == ["git", "checkout", "-b", b]
  {
    SplitSepFree(b, ' ');
    SplitWord("checkout", b);
    CheckoutShape(b);
    SplitWord("git", "checkout" + " " + b);
    SplitWord("-b", b);
    SplitWord("checkout", "-b" + " " + b);
    CreateBranchShape(b);
    SplitWord("git", "checkout" + " " + ("-b" + " " + b));
  }

  // ---------------------------------------------------------------------
  // Running commands

  /** The pair run_git_command makes of what the process did. */
  function Report(p: Process): (bool, string)
  {
    match p
    case Exited(code, out, err) => if code == 0 then (true, Trim(Python, out)) else (false, Trim(Python, err))
    case TimedOut => (false, "Command timed out")
    case Raised(e) => (false, e)
  }

  /** Success means exit code zero; the message of an exited process is its
      standard output (on success) or standard error (on failure) without
      surrounding whitespace. */
  lemma ReportMeaning(p: Process)
    ensures Report(p).0 <==> p.Exited? && p.code == 0
    ensures p.Exited? ==> (IsTrimmed(Python, Report(p).1)
      && Report(p).1 == Trim(Python, if p.code == 0 then p.stdout else p.stderr))
    ensures Report(p).1 == "" ==> p.Exited? || (p.Raised? && p.error == "")
  {
  }

  /** The GitOperations object: the directory commands run in. */
  class GitOperations {
    var currentDirectory: Option<string>

    constructor ()
      ensures currentDirectory == None
    {
      currentDirectory := None;
    }

    /** set_directory: an existing path becomes the working directory; any
        other path is refused and changes nothing. */
    method SetDirectory(path: string, pathExists: string -> bool) returns (success: bool, message: string)
      modifies this
      ensures success == pathExists(path)
      ensures success ==> message == "Directory set to: " + path && currentDirectory == Some(path)
      ensures !success ==> message == "Directory does not exist" && currentDirectory == old(currentDirectory)
    {
      if pathExists(path) {
        currentDirectory := Some(path);
        return true, "Directory set to: " + path;
      }
      return false, "Directory does not exist";
    }

    /** run_git_command: without a directory nothing runs; otherwise the
        command runs once, in the directory, and its result is reported. */
    function Run(command: string, shell: Shell): (r: Outcome)
      reads this
      ensures currentDirectory.None? ==> r == Outcome(false, NoDirectory, [])
      ensures currentDirectory.Some? ==>
        r.ran == [Invocation(command, currentDirectory.value)]
        && (r.success, r.message) == Report(shell(r.ran[0]))
    {
      match currentDirectory
      case None => Outcome(false, NoDirectory, [])
      case Some(dir) =>
        var process := shell(Invocation(command, dir));
        var (ok, text) := Report(process);
        Outcome(ok, text, [Invocation(command, dir)])
    }

    function InitRepository(shell: Shell): Outcome
      reads this
    {
      Run("git init", shell)
    }

    function GetStatus(shell: Shell): Outcome
      reads this
    {
      Run("git status --porcelain", shell)
    }

    function GetDetailedStatus(shell: Shell): Outcome
      reads this
    {
      Run("git status", shell)
    }

    function GetBranches(shell: Shell): Outcome
      reads this
    {
      Run("git branch -a", shell)
    }

    function GetRemotes(shell: Shell): Outcome
      reads this
    {
      Run("git remote -v", shell)
    }

    function AddFiles(files: FilesArg, shell: Shell): Outcome
      reads this
    {
      Run(AddCommand(files), shell)
    }

    /** commit_changes: a missing or empty message is refused before any
        command runs. */
    function CommitChanges(message: Option<string>, shell: Shell): (r: Outcome)
      reads this
      ensures message.None? || message.value == "" ==> r == Outcome(false, CommitMessageRequired, [])
      ensures message.Some? && message.value != "" ==> r == Run(CommitCommand(message.value), shell)
    {
      if message.None? || message.value == "" then Outcome(false, CommitMessageRequired, [])
      else Run(CommitCommand(message.value), shell)
    }

    function AddRemote(url: Option<string>, name: Option<string>, shell: Shell): Outcome
      reads this
    {
      Run(RemoteAddCommand(Show(name), Show(url)), shell)
    }

    function PushToRemote(remote: Option<string>, branch: Option<string>, shell: Shell): Outcome
      reads this
    {
      Run(PushCommand(Show(remote), Show(branch)), shell)
    }

    function PullFromRemote(remote: Option<string>, branch: Option<string>, shell: Shell): Outcome
      reads this
    {
      Run(PullCommand(Show(remote), Show(branch)), shell)
    }

    /** set_branch: probe for the branch, then switch to it when the probe
        succeeds and create it otherwise; the result is the second command's. */
    function SetBranch(branch: Option<string>, shell: Shell): (r: Outcome)
      reads this
      ensures currentDirectory.None? ==> r == Outcome(false, NoDirectory, [])
      ensures currentDirectory.Some? ==>
        var b := Show(branch);
        var dir := currentDirectory.value;
        var probe := Invocation(ShowRefCommand(b), dir);
        var next := if Report(shell(probe)).0 then CheckoutCommand(b) else CreateBranchCommand(b);
        r.ran == [probe, Invocation(next, dir)]
        && (r.success, r.message) == Report(shell(Invocation(next, dir)))
    {
      var b := Show(branch);
      var check := Run(ShowRefCommand(b), shell);
      if currentDirectory.None? then Outcome(false, NoDirectory, [])
      else
        var next := Run(if check.success then CheckoutCommand(b) else CreateBranchCommand(b), shell);
        Outcome(next.success, next.message, check.ran + next.ran)
    }
  }

  // ---------------------------------------------------------------------
  // Routes

  /** The reply of /api/set-directory. */
  datatype DirectoryReply = DirectoryReply(success: bool, message: string, isGitRepo: bool, ran: seq<Invocation>)

  /** /api/set-directory: set the directory, then, if that worked, ask git
      whether it already is a repository. */
  method SetDirectoryRoute(ops: GitOperations, path: string, pathExists: string -> bool, shell: Shell)
    returns (reply: DirectoryReply)
    modifies ops
    ensures reply.success == pathExists(path)
    ensures reply.success ==>
      ops.currentDirectory == Some(path) && reply.message == "Directory set to: " + path
      && reply.ran == [Invocation("git rev-parse --git-dir", path)]
      && reply.isGitRepo == Report(shell(reply.ran[0])).0
    ensures !reply.success ==>
      ops.currentDirectory == old(ops.currentDirectory) && reply.message == "Directory does not exist"
      && !reply.isGitRepo && reply.ran == []
  {
    var success, message := ops.SetDirectory(path, pathExists);
    var isGitRepo := false;
    var ran := [];
    if success {
      var probe := ops.Run("git rev-parse --git-dir", shell);
      isGitRepo := probe.success;
      ran := probe.ran;
    }
    reply := DirectoryReply(success, message, isGitRepo, ran);
  }

  /** /api/add-files: a missing field means "all"; JSON null is None. */
  function AddFilesRoute(ops: GitOperations, files: Option<FilesArg>, shell: Shell): Outcome
    reads ops
  {
    ops.AddFiles(if files.None? then Pattern("all") else files.value, shell)
  }

  function CommitRoute(ops: GitOperations, message: Field, shell: Shell): Outcome
    reads ops
  {
    ops.CommitChanges(Get(message, None), shell)
  }

  /** /api/add-remote: the remote's name defaults to "origin". */
  function AddRemoteRoute(ops: GitOperations, url: Field, name: Field, shell: Shell): Outcome
    reads ops
  {
    ops.AddRemote(Get(url, None), Get(name, Some("origin")), shell)
  }

  function SetBranchRoute(ops: GitOperations, branch: Field, shell: Shell): Outcome
    reads ops
  {
    ops.SetBranch(Get(branch, None), shell)
  }

  /** /api/push and /api/pull: remote "origin" and branch "main" unless
      given. */
  function PushRoute(ops: GitOperations, remote: Field, branch: Field, shell: Shell): Outcome
    reads ops
  {
    ops.PushToRemote(Get(remote, Some("origin")), Get(branch, Some("main")), shell)
  }

  function PullRoute(ops: GitOperations, remote: Field, branch: Field, shell: Shell): Outcome
    reads ops
  {
    ops.PullFromRemote(Get(remote, Some("origin")), Get(branch, Some("main")), shell)
  }

  /** A missing file list stages everything. */
  lemma AddFilesDefault(ops: GitOperations, shell: Shell)
    requires ops.currentDirectory.Some?
    ensures AddFilesRoute(ops, None, shell).ran == [Invocation("git add .", ops.currentDirectory.value)]
  {
  }

  /** Push and pull default to branch "main" of remote "origin". */
  lemma PushPullDefaults(ops: GitOperations, shell: Shell)
    requires ops.currentDirectory.Some?
    ensures PushRoute(ops, Absent, Absent, shell).ran[0].command == "git push -u origin main"
    ensures PullRoute(ops, Absent, Absent, shell).ran[0].command == "git pull origin main"
  {
  }

  /** A new remote is named "origin" unless the request names it; a null
      name is written as None. */
  lemma RemoteNameDefault(ops: GitOperations, shell: Shell, url: string)
    requires ops.currentDirectory.Some?
    ensures AddRemoteRoute(ops, Str(url), Absent, shell).ran[0].command == "git remote add origin " + url
    ensures AddRemoteRoute(ops, Str(url), Null, shell).ran[0].command == "git remote add None " + url
  {
  }

  /** A commit request without a message is refused before anything runs. */
  lemma CommitWithoutMessage(ops: GitOperations, shell: Shell)
    ensures CommitRoute(ops, Absent, shell) == Outcome(false, CommitMessageRequired, [])
    ensures CommitRoute(ops, Null, shell) == Outcome(false, CommitMessageRequired, [])
    ensures CommitRoute(ops, Str(""), shell) == Outcome(false, CommitMessageRequired, [])
  {
  }

  const NoCommand: string := "No command provided"
  const OnlyGit: string := "Only Git commands are allowed"

  /** The whitelist test of /api/execute-command: after Python's strip the
      command must start with "git ". */
  predicate PassesWhitelist(command: string) {
    StartsWith(Trim(Python, command), "git ")
  }

  /** /api/execute-command: a missing or empty command and a non-git
      command are refused; anything else runs as given (unstripped). */
  function ExecuteCommand(ops: GitOperations, command: Option<string>, shell: Shell): Outcome
    reads ops
  {
    if command.None? || command.value == "" then Outcome(false, NoCommand, [])
    else if !PassesWhitelist(command.value) then Outcome(false, OnlyGit, [])
    else ops.Run(command.value, shell)
  }

  /** The refusals of /api/execute-command run nothing, and a command runs
      exactly when it is present, non-empty and passes the whitelist; what
      runs is the command as sent, in the selected directory. */
  lemma ExecuteCommandGuard(ops: GitOperations, command: Option<string>, shell: Shell)
    ensures var r := ExecuteCommand(ops, command, shell);
      (command.None? || command.value == "" ==> r == Outcome(false, NoCommand, []))
      && (command.Some? && command.value != "" && !PassesWhitelist(command.value) ==>
            r == Outcome(false, OnlyGit, []))
      && (r.ran != [] <==> command.Some? && PassesWhitelist(command.value) && ops.currentDirectory.Some?)
      && (r.ran != [] ==> r.ran == [Invocation(command.value, ops.currentDirectory.value)])
  {
  }

  /** With no directory selected, no git operation runs anything and each
      reports "No directory selected". */
  lemma NoDirectoryRunsNothing(ops: GitOperations, shell: Shell, files: FilesArg, x: Option<string>, y: Option<string>)
    requires ops.currentDirectory.None?
    ensures ops.InitRepository(shell) == Outcome(false, NoDirectory, [])
    ensures ops.GetDetailedStatus(shell) == Outcome(false, NoDirectory, [])
    ensures ops.AddFiles(files, shell) == Outcome(false, NoDirectory, [])
    ensures ops.AddRemote(x, y, shell) == Outcome(false, NoDirectory, [])
    ensures ops.PushToRemote(x, y, shell) == Outcome(false, NoDirectory, [])
    ensures ops.PullFromRemote(x, y, shell) == Outcome(false, NoDirectory, [])
    ensures ops.SetBranch(x, shell) == Outcome(false, NoDirectory, [])
    ensures x.Some? && x.value != "" ==> ops.CommitChanges(x, shell) == Outcome(false, NoDirectory, [])
  {
  }
}

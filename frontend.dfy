/** The browser controller of static/js/script.js: the request gateway
    (makeRequest), the page's session flags and git buttons, the handlers of
    the git buttons, the handlers of the assistant configuration panel, and
    the per-provider key inputs of that panel. */
module Frontend {
  import opened Wrappers
  import opened Text
  import opened Catalog
  import opened Report

  // ---------------------------------------------------------------------
  // Request gateway

  /** A parsed backend reply, with the fields the script reads. Fields a
      reply does not carry are false, empty or "" here. */
  datatype Response = Response(
    success: bool, message: string, isGitRepo: bool,
    models: seq<ModelDescriptor>, answer: string, model: string)

  /** What fetch and response.json() deliver: the parsed reply, or the error
      thrown with its message. */
  datatype Transport = Delivered(response: Response) | Failed(cause: string)

  /** A request the page sends: a GET, or a POST whose JSON body holds the
      given string fields. */
  datatype Request = Get(endpoint: string) | Post(endpoint: string, fields: seq<(string, string)>)

  const RequestFailedPrefix: string := "Request failed: "

  /** makeRequest: the reply as parsed, or a failure-shaped result carrying
      the cause, so that callers never see the exception. */
  function MakeRequest(t: Transport): Response
  {
    match t
    case Delivered(r) => r
    case Failed(cause) => Response(false, RequestFailedPrefix + cause, false, [], "", "")
  }

  /** A transport failure is reported as a failed result whose message is
      "Request failed: " followed by the cause, which can be read back from
      it; a successful result only comes from a delivered successful reply. */
  lemma TransportFailureShape(t: Transport)
    ensures t.Failed? ==> (!MakeRequest(t).success
      && StartsWith(MakeRequest(t).message, RequestFailedPrefix)
      && MakeRequest(t).message[|RequestFailedPrefix|..] == t.cause)
    ensures MakeRequest(t).success <==> t.Delivered? && t.response.success
    ensures t.Delivered? ==> MakeRequest(t) == t.response
  {
  }

  // ---------------------------------------------------------------------
  // Local validation of the handlers

  /** The git operations behind the eight git buttons. */
  datatype Operation = InitRepo | Status | AddFiles | Commit | AddRemote | SetBranch | Push | Pull

  /** The argument a handler sends and mentions in its messages, read from
      its input field, or the local error it reports instead of sending. The
      commit message and remote URL must be non-empty once trimmed; an empty
      file list stands for "all"; the branch is the select's value as is. */
  function Argument(op: Operation, value: string): Result<string>
  {
    var v := Trim(JavaScript, value);
    match op
    case InitRepo => Ok("")
    case Status => Ok("")
    case AddFiles => Ok(if v == "" then "all" else v)
    case Commit => if v == "" then Err("Please enter a commit message") else Ok(v)
    case AddRemote => if v == "" then Err("Please enter a remote repository URL") else Ok(v)
    case SetBranch => Ok(value)
    case Push => Ok(value)
    case Pull => Ok(value)
  }

  /** Only the commit and add-remote handlers refuse locally, and exactly
      when their field is blank; whatever they send is trimmed and non-empty. */
  lemma ArgumentRefusesOnlyBlank(op: Operation, value: string)
    ensures Argument(op, value).Err? <==>
      (op == Commit || op == AddRemote) && Trim(JavaScript, value) == ""
    ensures Argument(op, value).Ok? && (op == Commit || op == AddRemote || op == AddFiles) ==>
      Argument(op, value).value != "" && IsTrimmed(JavaScript, Argument(op, value).value)
  {
    if op == AddFiles && Trim(JavaScript, value) == "" {
      assert IsTrimmed(JavaScript, "all");
    }
  }

  /** The request each handler sends. */
  function RequestFor(op: Operation, arg: string): Request
  {
    match op
    case InitRepo => Post("/api/init-repo", [])
    case Status => Get("/api/status")
    case AddFiles => Post("/api/add-files", [("files", arg)])
    case Commit => Post("/api/commit", [("message", arg)])
    case AddRemote => Post("/api/add-remote", [("remote_url", arg)])
    case SetBranch => Post("/api/set-branch", [("branch", arg)])
    case Push => Post("/api/push", [("branch", arg)])
    case Pull => Post("/api/pull", [("branch", arg)])
  }

  /** The line a handler logs when the backend reports success. */
  function SuccessLine(op: Operation, arg: string, message: string): Line
  {
    match op
    case InitRepo => Line(Success, "Git repository initialized successfully")
    case Status => Line(Info, "Repository Status:\n" + message)
    case AddFiles => Line(Success, "Files staged successfully: " + arg)
    case Commit => Line(Success, "Changes committed: \"" + arg + "\"")
    case AddRemote => Line(Success, "Remote added: " + arg)
    case SetBranch => Line(Success, "Branch set to: " + arg)
    case Push => Line(Success, "Successfully pushed to " + arg)
    case Pull => Line(Success, "Successfully pulled from " + arg)
  }

  /** The line a handler logs when the request fails. */
  function FailureLine(op: Operation, message: string): Line
  {
    var what := match op
      case InitRepo => "Failed to initialize repository: "
      case Status => "Failed to get status: "
      case AddFiles => "Failed to stage files: "
      case Commit => "Failed to commit: "
      case AddRemote => "Failed to add remote: "
      case SetBranch => "Failed to set branch: "
      case Push => "Failed to push: "
      case Pull => "Failed to pull: ";
    Line(Error, what + message)
  }

  /** The description of the attempted operation sent to the assistant. */
  function HelpContext(op: Operation, arg: string): string
  {
    match op
    case InitRepo => "Initializing Git repository"
    case Status => "Getting Git status"
    case AddFiles => "Staging files: " + arg
    case Commit => "Committing with message: " + arg
    case AddRemote => "Adding remote: " + arg
    case SetBranch => "Setting branch to: " + arg
    case Push => "Pushing to " + arg + " branch"
    case Pull => "Pulling from " + arg + " branch"
  }

  /** The message of the assistant-help flow when no model is configured. */
  const NotConfigured: string := "AI not configured. Click \"Configure AI\" to set up."

  /** How a JavaScript template shows the current model name (null prints
      as "null"). */
  function ModelText(m: Option<string>): string
  {
    match m
    case Some(name) => name
    case None => "null"
  }

  /** The line getAIHelp logs for its reply: the model named by the reply,
      or the current model when the reply names none. */
  function HelpReplyLine(r: Response, currentModel: Option<string>): Line
  {
    if r.success then
      Line(Success, "AI assistance received from " + (if r.model != "" then r.model else ModelText(currentModel)))
    else Line(Error, "AI Help Error: " + r.message)
  }

  /** The API key entered is trimmed and must not be blank. */
  function ApiKeyArgument(value: string): Result<string>
  {
    var v := Trim(JavaScript, value);
    if v == "" then Err("Please enter an API key") else Ok(v)
  }

  /** The model chosen in the select must not be the placeholder option. */
  function ModelArgument(value: string): Result<string>
  {
    if value == "" then Err("Please select a model") else Ok(value)
  }

  // ---------------------------------------------------------------------
  // Model descriptors and the configuration panel

  /** The index of the first selected model, or the length when none is. */
  function FirstSelectedIndex(models: seq<ModelDescriptor>): (i: nat)
    ensures i <= |models| && (i < |models| ==> models[i].selected)
    ensures forall j :: 0 <= j < i ==> !models[j].selected
  {
    if models == [] || models[0].selected then 0
    else 1 + FirstSelectedIndex(models[1..])
  }

  /** `availableModels.find(m => m.selected)`: the first selected model. */
  function FindSelected(models: seq<ModelDescriptor>): (r: Option<ModelDescriptor>)
    ensures r.None? <==> forall i :: 0 <= i < |models| ==> !models[i].selected
    ensures r.Some? ==> exists i :: 0 <= i < |models| && models[i] == r.value && models[i].selected
                                    && forall j :: 0 <= j < i ==> !models[j].selected
  {
    var i := FirstSelectedIndex(models);
    if i < |models| then Some(models[i]) else None
  }

  /** The name of the last selected model of `models`, if any. */
  function LastSelectedName(models: seq<ModelDescriptor>): Option<string>
  {
    if models == [] then None
    else if models[|models| - 1].selected then Some(models[|models| - 1].name)
    else LastSelectedName(models[..|models| - 1])
  }

  /** `[...new Set(xs)]`: the distinct elements in order of first appearance. */
  function Distinct(xs: seq<string>): seq<string>
  {
    if xs == [] then []
    else
      var d := Distinct(xs[..|xs| - 1]);
      if xs[|xs| - 1] in d then d else d + [xs[|xs| - 1]]
  }

  /** The index of the first occurrence of `x` in `xs`. */
  function FirstIndex(xs: seq<string>, x: string): (i: nat)
    requires x in xs
    ensures i < |xs| && xs[i] == x && x !in xs[..i]
  {
    if xs[0] == x then 0
    else
      var i := FirstIndex(xs[1..], x);
      assert xs[..i + 1] == [xs[0]] + xs[1..][..i];
      i + 1
  }

  /** Distinct keeps exactly the elements of its input, each once, ordered by
      their first appearance in the input. */
  lemma {:induction false} DistinctFirstAppearance(xs: seq<string>)
    ensures forall x :: x in Distinct(xs) <==> x in xs
    ensures forall i, j :: 0 <= i < j < |Distinct(xs)| ==> Distinct(xs)[i] != Distinct(xs)[j]
    ensures forall i, j :: 0 <= i < j < |Distinct(xs)| ==>
              FirstIndex(xs, Distinct(xs)[i]) < FirstIndex(xs, Distinct(xs)[j])
  {
    if xs != [] {
      var init := xs[..|xs| - 1];
      var last := xs[|xs| - 1];
      DistinctFirstAppearance(init);
      assert xs == init + [last];
      var d := Distinct(xs);
      forall x | x in init
        ensures FirstIndex(xs, x) == FirstIndex(init, x)
      {
        FirstIndexPrefix(init, last, x);
      }
      if last !in Distinct(init) {
        assert last !in init;
        assert FirstIndex(xs, last) == |init| by {
          assert xs[..|init|] == init;
        }
        forall i | 0 <= i < |Distinct(init)|
          ensures FirstIndex(xs, Distinct(init)[i]) < FirstIndex(xs, last)
        {
          assert Distinct(init)[i] in init;
        }
      }
    }
  }

  lemma FirstIndexPrefix(init: seq<string>, last: string, x: string)
    requires x in init
    ensures FirstIndex(init + [last], x) == FirstIndex(init, x)
  {
    if init[0] != x {
      assert (init + [last])[1..] == init[1..] + [last];
      FirstIndexPrefix(init[1..], last, x);
    }
  }

  /** The label shown above a provider's key input: the known label, else
      the provider name with its first character upper-cased. */
  function ProviderLabel(provider: string): string
  {
    match provider
    case "google" => "Google (Gemini)"
    case "openai" => "OpenAI (GPT)"
    case "anthropic" => "Anthropic (Claude)"
    case "meta" => "Meta (Llama)"
    case "deepseek" => "DeepSeek"
    case "ollama" => "Ollama (Local URL)"
    case _ => Capitalize(provider)
  }

  /** `s.charAt(0).toUpperCase() + s.slice(1)`. */
  function Capitalize(s: string): string
  {
    if s == [] then [] else [UpperAscii(s[0])] + s[1..]
  }

  /** toUpperCase on one character, for the ASCII letters. */
  function UpperAscii(c: char): char
  {
    if 'a' <= c <= 'z' then (c as int - 'a' as int + 'A' as int) as char else c
  }

  predicate IsKnownProvider(p: string) {
    p in {"google", "openai", "anthropic", "meta", "deepseek", "ollama"}
  }

  /** A provider without a known label is shown capitalised: same length,
      a lower-case first letter replaced by the same letter in upper case,
      anything else as given. */
  lemma UnknownProviderCapitalised(p: string)
    requires !IsKnownProvider(p)
    ensures ProviderLabel(p) == Capitalize(p)
    ensures |ProviderLabel(p)| == |p|
    ensures p != [] ==> ProviderLabel(p)[1..] == p[1..]
    ensures p != [] && 'a' <= p[0] <= 'z' ==>
      'A' <= ProviderLabel(p)[0] <= 'Z' && ProviderLabel(p)[0] as int - 'A' as int == p[0] as int - 'a' as int
    ensures p != [] && !('a' <= p[0] <= 'z') ==> ProviderLabel(p)[0] == p[0]
  {
  }

  /** For example, a provider "mistral" would be shown as "Mistral". */
  lemma MistralLabel()
    ensures ProviderLabel("mistral") == "Mistral"
  {
    UnknownProviderCapitalised("mistral");
    assert "mistral"[1..] == "istral";
  }

  /** One key input group of the configuration panel. */
  datatype KeyInput = KeyInput(provider: string, caption: string, placeholder: string)

  /** The providers of the models, in order. */
  function Providers(models: seq<ModelDescriptor>): (ps: seq<string>)
    ensures |ps| == |models| && forall i :: 0 <= i < |models| ==> ps[i] == models[i].provider
  {
    seq(|models|, i requires 0 <= i < |models| => models[i].provider)
  }

  /** generateAPIKeyInputs: one group per distinct provider, in order of
      first appearance. */
  function KeyInputs(models: seq<ModelDescriptor>): seq<KeyInput>
  {
    var ps := Distinct(Providers(models));
    seq(|ps|, i requires 0 <= i < |ps| =>
      KeyInput(ps[i], ProviderLabel(ps[i]),
               if ps[i] == "ollama" then "http://localhost:11434" else "Enter API key"))
  }

  /** The providers of the input groups, in order. */
  function InputProviders(ks: seq<KeyInput>): seq<string>
  {
    seq(|ks|, i requires 0 <= i < |ks| => ks[i].provider)
  }

  /** There is one input group for each provider that some model has, no
      provider twice, and the groups are ordered by each provider's first
      model. */
  lemma KeyInputsPerProvider(models: seq<ModelDescriptor>)
    ensures var ps := Providers(models);
      var qs := InputProviders(KeyInputs(models));
      (forall p :: p in qs <==> p in ps)
      && (forall i, j :: 0 <= i < j < |qs| ==> qs[i] != qs[j])
      && (forall i, j :: 0 <= i < j < |qs| ==> FirstIndex(ps, qs[i]) < FirstIndex(ps, qs[j]))
  {
    var ps := Providers(models);
    DistinctFirstAppearance(ps);
    assert InputProviders(KeyInputs(models)) == Distinct(ps);
  }

  // ---------------------------------------------------------------------
  // The page

  /** The order of the git buttons in updateButtonStates. */
  const ButtonCount: nat := 8
  const InitButton: nat := 0

  const RepositoryInitialized: string := "Repository Initialized"
  const InitializeRepository: string := "Initialize Repository"

  /** The label updateButtonStates gives the init button: it keeps its label
      while no directory is set. */
  function InitLabel(directorySet: bool, gitRepo: bool, previous: string): string
  {
    if directorySet && gitRepo then RepositoryInitialized
    else if directorySet then InitializeRepository
    else previous
  }

  /** What the request for a help reply is. */
  function HelpRequest(errorMessage: string, context: string): Request
  {
    Post("/api/get-ai-help", [("error_message", errorMessage), ("context", context)])
  }

  /** The module globals of the script, the git buttons' disabled flags (in
      the order initRepo, status, addFiles, commit, addRemote, setBranch,
      push, pull), the init button's label, the directory status line, the
      current assistant answer and the output log. */
  class Page {
    var isDirectorySet: bool
    var isGitRepo: bool
    var isAIConfigured: bool
    var currentModel: Option<string>
    var availableModels: seq<ModelDescriptor>
    const disabled: array<bool>
    var initLabel: string
    var directoryStatus: Option<Line>
    var aiAnswer: Option<string>
    var output: seq<Line>

    ghost predicate Valid()
      reads this
    {
      disabled.Length == ButtonCount
    }

    /** The buttons show the session flags as updateButtonStates sets them,
        the init label having been `previous` before. */
    ghost predicate ButtonsReflect(previous: string)
      reads this, disabled
      requires Valid()
    {
      (forall i :: 0 <= i < ButtonCount && i != InitButton ==> disabled[i] == !isDirectorySet)
      && disabled[InitButton] == (!isDirectorySet || isGitRepo)
      && initLabel == InitLabel(isDirectorySet, isGitRepo, previous)
    }

    /** The page once its load handler has run: the two greeting lines are
        logged, the buttons are updated (so, with no directory, every git
        button is disabled and the init label is kept), and the models are
        loaded by the start-up request. `currentLabel` is the init button's
        label in the page as served. */
    constructor (currentLabel: string, startup: Transport)
      ensures Valid() && fresh(disabled)
      ensures !isDirectorySet && !isGitRepo
      ensures ButtonsReflect(currentLabel) && initLabel == currentLabel
      ensures forall i :: 0 <= i < ButtonCount ==> disabled[i]
      ensures directoryStatus == None && aiAnswer == None
      ensures output == [Line(Success, "Git GUI Web Interface loaded successfully!"),
                         Line(Info, "Select a directory to begin Git operations.")]
      ensures var r := MakeRequest(startup);
        if r.success then
          var s := FindSelected(r.models);
          availableModels == r.models
          && isAIConfigured == (s.Some? && s.value.configured)
          && currentModel == (if s.Some? then Some(s.value.name) else None)
        else
          availableModels == [] && !isAIConfigured && currentModel == None
    {
      isDirectorySet, isGitRepo, isAIConfigured := false, false, false;
      currentModel, availableModels := None, [];
      disabled := new bool[ButtonCount](_ => true);
      initLabel := currentLabel;
      directoryStatus, aiAnswer := None, None;
      output := [];
      new;
      output := output + [Line(Success, "Git GUI Web Interface loaded successfully!")];
      output := output + [Line(Info, "Select a directory to begin Git operations.")];
      UpdateButtonStates();
      LoadModels(startup);
    }

    /** updateButtonStates: every git button is enabled exactly when a
        directory is set, except that the init button is disabled and labelled
        "Repository Initialized" when the directory already is a repository,
        and enabled and labelled "Initialize Repository" when it is not. */
    method UpdateButtonStates()
      requires Valid()
      modifies disabled, this`initLabel
      ensures ButtonsReflect(old(initLabel))
    {
      for i := 0 to disabled.Length
        invariant forall j :: 0 <= j < i ==> disabled[j] == !isDirectorySet
        invariant initLabel == old(initLabel)
      {
        disabled[i] := !isDirectorySet;
      }
      if isDirectorySet && isGitRepo {
        disabled[InitButton] := true;
        initLabel := RepositoryInitialized;
      } else if isDirectorySet && !isGitRepo {
        disabled[InitButton] := false;
        initLabel := InitializeRepository;
      }
    }

    /** The set-directory handler. A blank path is refused locally with no
        request. Otherwise the trimmed path is sent; success sets the
        directory flag and takes the repository flag from the reply, failure
        clears both; the buttons are then updated. */
    method SetDirectoryClicked(value: string, t: Transport) returns (sent: Option<Request>)
      requires Valid()
      modifies this, disabled
      ensures Valid()
      ensures var dir := Trim(JavaScript, value);
        if dir == "" then
          sent == None && directoryStatus == Some(Line(Error, "Please enter a directory path"))
          && isDirectorySet == old(isDirectorySet) && isGitRepo == old(isGitRepo)
          && output == old(output) && initLabel == old(initLabel) && disabled[..] == old(disabled[..])
        else
          var r := MakeRequest(t);
          sent == Some(Post("/api/set-directory", [("directory", dir)]))
          && isDirectorySet == r.success && isGitRepo == (r.success && r.isGitRepo)
          && directoryStatus == Some(Line(if r.success then Success else Error, r.message))
          && output == old(output) +
               (if !r.success then [Line(Error, "Failed to set directory: " + r.message)]
                else [Line(Success, "Directory set: " + dir)]
                     + (if r.isGitRepo then [Line(Info, "Existing Git repository detected")] else []))
          && ButtonsReflect(old(initLabel))
      ensures isAIConfigured == old(isAIConfigured) && currentModel == old(currentModel)
      ensures availableModels == old(availableModels) && aiAnswer == old(aiAnswer)
    {
      var directory := Trim(JavaScript, value);
      if directory == "" {
        directoryStatus := Some(Line(Error, "Please enter a directory path"));
        return None;
      }
      sent := Some(Post("/api/set-directory", [("directory", directory)]));
      var result := MakeRequest(t);
      if result.success {
        isDirectorySet := true;
        isGitRepo := result.isGitRepo;
        directoryStatus := Some(Line(Success, result.message));
        output := output + [Line(Success, "Directory set: " + directory)];
        if isGitRepo {
          output := output + [Line(Info, "Existing Git repository detected")];
        }
      } else {
        isDirectorySet := false;
        isGitRepo := false;
        directoryStatus := Some(Line(Error, result.message));
        output := output + [Line(Error, "Failed to set directory: " + result.message)];
      }
      UpdateButtonStates();
    }

    /** getAIHelp: refused with a log line when no configured model is
        selected; otherwise the failure and its context are sent and the
        reply is shown and logged. */
    method GetAIHelp(errorMessage: string, context: string, t: Transport) returns (sent: Option<Request>)
      modifies this`output, this`aiAnswer
      ensures !isAIConfigured ==> sent == None && output == old(output) + [Line(Error, NotConfigured)]
                                   && aiAnswer == old(aiAnswer)
      ensures isAIConfigured ==> (sent == Some(HelpRequest(errorMessage, context))
        && output == old(output) + [HelpReplyLine(MakeRequest(t), currentModel)]
        && aiAnswer == (if MakeRequest(t).success then Some(MakeRequest(t).answer) else old(aiAnswer)))
    {
      if !isAIConfigured {
        output := output + [Line(Error, NotConfigured)];
        return None;
      }
      sent := Some(HelpRequest(errorMessage, context));
      var result := MakeRequest(t);
      if result.success {
        aiAnswer := Some(result.answer);
        var shown := if result.model != "" then result.model else ModelText(currentModel);
        output := output + [Line(Success, "AI assistance received from " + shown)];
      } else {
        output := output + [Line(Error, "AI Help Error: " + result.message)];
      }
    }

    /** The handlers of the eight git buttons. A blank commit message or
        remote URL is refused locally with no request. Otherwise the request
        is sent; on success the success line is logged (and the init handler
        records the repository and updates the buttons); on failure the
        failure line is logged and the assistant-help flow is started with
        the backend's message and the operation's description. */
    method Perform(op: Operation, value: string, t: Transport, helpT: Transport)
      returns (sent: Option<Request>, helpSent: Option<Request>)
      requires Valid()
      modifies this, disabled
      ensures Valid()
      ensures isDirectorySet == old(isDirectorySet) && isAIConfigured == old(isAIConfigured)
      ensures currentModel == old(currentModel) && availableModels == old(availableModels)
      ensures directoryStatus == old(directoryStatus)
      ensures Argument(op, value).Err? ==>
        sent == None && helpSent == None
        && output == old(output) + [Line(Error, Argument(op, value).message)]
        && isGitRepo == old(isGitRepo) && initLabel == old(initLabel)
        && disabled[..] == old(disabled[..]) && aiAnswer == old(aiAnswer)
      ensures Argument(op, value).Ok? ==>
        var arg := Argument(op, value).value;
        var r := MakeRequest(t);
        sent == Some(RequestFor(op, arg))
        && (r.success ==>
              helpSent == None && aiAnswer == old(aiAnswer)
              && output == old(output) + [SuccessLine(op, arg, r.message)]
              && (op == InitRepo ==> isGitRepo && ButtonsReflect(old(initLabel)))
              && (op != InitRepo ==> isGitRepo == old(isGitRepo) && initLabel == old(initLabel)
                                     && disabled[..] == old(disabled[..])))
        && (!r.success ==>
              isGitRepo == old(isGitRepo) && initLabel == old(initLabel) && disabled[..] == old(disabled[..])
              && (!old(isAIConfigured) ==>
                    helpSent == None && aiAnswer == old(aiAnswer)
                    && output == old(output) + [FailureLine(op, r.message), Line(Error, NotConfigured)])
              && (old(isAIConfigured) ==>
                    helpSent == Some(HelpRequest(r.message, HelpContext(op, arg)))
                    && output == old(output) + [FailureLine(op, r.message), HelpReplyLine(MakeRequest(helpT), currentModel)]
                    && aiAnswer == (if MakeRequest(helpT).success then Some(MakeRequest(helpT).answer) else old(aiAnswer))))
    {
      var argument := Argument(op, value);
      if argument.Err? {
        output := output + [Line(Error, argument.message)];
        return None, None;
      }
      var arg := argument.value;
      sent := Some(RequestFor(op, arg));
      var result := MakeRequest(t);
      if result.success {
        output := output + [SuccessLine(op, arg, result.message)];
        if op == InitRepo {
          isGitRepo := true;
          UpdateButtonStates();
        }
        helpSent := None;
      } else {
        output := output + [FailureLine(op, result.message)];
        helpSent := GetAIHelp(result.message, HelpContext(op, arg), helpT);
      }
    }

    /** populateModelSelect: the current model name becomes that of the last
        selected model in the list, if there is one. */
    method PopulateModelSelect()
      modifies this`currentModel
      ensures currentModel == (if LastSelectedName(availableModels).Some?
                               then LastSelectedName(availableModels) else old(currentModel))
    {
      for i := 0 to |availableModels|
        invariant currentModel == (if LastSelectedName(availableModels[..i]).Some?
                                  then LastSelectedName(availableModels[..i]) else old(currentModel))
      {
        assert availableModels[..i + 1][..i] == availableModels[..i];
        if availableModels[i].selected {
          currentModel := Some(availableModels[i].name);
        }
      }
      assert availableModels[..|availableModels|] == availableModels;
    }

    /** updateAIStatus: the assistant counts as configured exactly when some
        model is selected and the first selected one is configured; the
        current model name becomes that model's, and is kept when none is
        selected. */
    method UpdateAIStatus()
      modifies this`isAIConfigured, this`currentModel
      ensures var s := FindSelected(availableModels);
        isAIConfigured == (s.Some? && s.value.configured)
        && currentModel == (if s.Some? then Some(s.value.name) else old(currentModel))
    {
      var selected := FindSelected(availableModels);
      if selected.Some? {
        currentModel := Some(selected.value.name);
        isAIConfigured := selected.value.configured;
      } else {
        isAIConfigured := false;
      }
    }

    /** loadModels: a successful reply replaces the model list and refreshes
        the select and the status; a failed one changes nothing. */
    method LoadModels(t: Transport)
      modifies this`availableModels, this`isAIConfigured, this`currentModel
      ensures var r := MakeRequest(t);
        if r.success then
          availableModels == r.models
          && var s := FindSelected(r.models);
             isAIConfigured == (s.Some? && s.value.configured)
             && currentModel == (if s.Some? then Some(s.value.name) else old(currentModel))
        else
          availableModels == old(availableModels) && isAIConfigured == old(isAIConfigured)
          && currentModel == old(currentModel)
    {
      var result := MakeRequest(t);
      if result.success {
        availableModels := result.models;
        PopulateModelSelect();
        UpdateAIStatus();
        LastSelectedAgreesWithFirst(availableModels);
      }
    }

    /** The model list after a reload: the reply's list when the reload
        succeeds, and the previous list otherwise. */
    function ReloadedModels(previous: seq<ModelDescriptor>, reload: Transport): seq<ModelDescriptor>
    {
      if MakeRequest(reload).success then MakeRequest(reload).models else previous
    }

    /** The set-model handler: the placeholder is refused locally; a
        successful reply is logged, the models are reloaded and the status is
        recomputed from the list the reload leaves (the previous one when the
        reload fails); a failed one is logged. */
    method SetModelClicked(value: string, t: Transport, reload: Transport) returns (sent: Option<Request>)
      modifies this`output, this`availableModels, this`isAIConfigured, this`currentModel
      ensures ModelArgument(value).Err? ==>
        sent == None && output == old(output) + [Line(Error, "Please select a model")]
        && availableModels == old(availableModels) && isAIConfigured == old(isAIConfigured)
        && currentModel == old(currentModel)
      ensures ModelArgument(value).Ok? ==>
        sent == Some(Post("/api/set-model", [("model", value)]))
        && var r := MakeRequest(t);
        if r.success then
          output == old(output) + [Line(Success, r.message)]
          && var ms := ReloadedModels(old(availableModels), reload);
             var s := FindSelected(ms);
             availableModels == ms
             && isAIConfigured == (s.Some? && s.value.configured)
             && currentModel == (if s.Some? then Some(s.value.name) else old(currentModel))
        else
          output == old(output) + [Line(Error, "Error: " + r.message)]
          && availableModels == old(availableModels) && isAIConfigured == old(isAIConfigured)
          && currentModel == old(currentModel)
    {
      var choice := ModelArgument(value);
      if choice.Err? {
        output := output + [Line(Error, choice.message)];
        return None;
      }
      sent := Some(Post("/api/set-model", [("model", value)]));
      var result := MakeRequest(t);
      if result.success {
        output := output + [Line(Success, result.message)];
        LoadModels(reload);
        UpdateAIStatus();
      } else {
        output := output + [Line(Error, "Error: " + result.message)];
      }
    }

    /** The save-key handler of one provider: a blank key is refused locally;
        otherwise the trimmed key is sent, and a successful reply is logged
        and the models are reloaded. */
    method SaveApiKeyClicked(provider: string, value: string, t: Transport, reload: Transport)
      returns (sent: Option<Request>)
      modifies this`output, this`availableModels, this`isAIConfigured, this`currentModel
      ensures ApiKeyArgument(value).Err? ==>
        sent == None && output == old(output) + [Line(Error, "Please enter an API key")]
        && availableModels == old(availableModels) && isAIConfigured == old(isAIConfigured)
        && currentModel == old(currentModel)
      ensures ApiKeyArgument(value).Ok? ==>
        sent == Some(Post("/api/set-api-key", [("provider", provider), ("api_key", ApiKeyArgument(value).value)]))
        && var r := MakeRequest(t);
        if r.success then
          output == old(output) + [Line(Success, r.message)]
          && if MakeRequest(reload).success then
               var s := FindSelected(MakeRequest(reload).models);
               availableModels == MakeRequest(reload).models
               && isAIConfigured == (s.Some? && s.value.configured)
               && currentModel == (if s.Some? then Some(s.value.name) else old(currentModel))
             else
               availableModels == old(availableModels) && isAIConfigured == old(isAIConfigured)
               && currentModel == old(currentModel)
        else
          output == old(output) + [Line(Error, "Error: " + r.message)]
          && availableModels == old(availableModels) && isAIConfigured == old(isAIConfigured)
          && currentModel == old(currentModel)
    {
      var key := ApiKeyArgument(value);
      if key.Err? {
        output := output + [Line(Error, key.message)];
        return None;
      }
      sent := Some(Post("/api/set-api-key", [("provider", provider), ("api_key", key.value)]));
      var result := MakeRequest(t);
      if result.success {
        output := output + [Line(Success, result.message)];
        LoadModels(reload);
      } else {
        output := output + [Line(Error, "Error: " + result.message)];
      }
    }
  }

  /** When some model is selected, a last selected one exists too, so
      populateModelSelect's choice is always overridden by updateAIStatus's. */
  lemma {:induction false} LastSelectedAgreesWithFirst(models: seq<ModelDescriptor>)
    ensures LastSelectedName(models).Some? <==> FindSelected(models).Some?
  {
    if models != [] {
      var init := models[..|models| - 1];
      LastSelectedAgreesWithFirst(init);
      assert forall i :: 0 <= i < |init| ==> init[i] == models[i];
    }
  }
}

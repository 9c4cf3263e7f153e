/** The assistant side of the Flask backend (app.py): the AIAssistant
    object, which keeps the selected model key and one API key per provider,
    its guard chain for help requests, and the assistant routes. The settings
    file is read into the constructor's parameters; the providers' HTTP and
    SDK calls are an oracle. */
module Assistant {
  import opened Wrappers
  import opened Catalog
  import GitOps
  import Text

  const NoModelSelected: string := "No AI model selected. Please configure an AI model first."

  /** What is sent to a provider for one help request: the provider, the
      provider's model identifier, the credential used, and the failure and
      context as the prompt shows them. */
  datatype AskRequest = AskRequest(
    provider: string, modelId: string, credential: string, errorMessage: string, context: string)

  /** A provider's answer text, or the message of the exception its call
      raised. */
  type Ask = AskRequest -> Result<string>

  /** The providers get_git_help dispatches to. */
  predicate IsDispatched(provider: string) {
    provider == "google" || provider == "openai" || provider == "anthropic" || provider == "ollama"
  }

  /** What get_git_help returns (its text) or raises (a KeyError, carrying
      its str()), and the provider request it made, if any. */
  datatype HelpOutcome = HelpOutcome(result: Result<string>, asked: Option<AskRequest>)

  /** Python's repr of a string: between single quotes, or between double
      quotes when the string holds a single quote and no double quote, with
      the chosen quote, the backslash and the non-printable characters
      escaped. */
  function Repr(s: string): (r: string)
    ensures |r| >= 2 && r[0] == ReprQuote(s) && r[|r| - 1] == ReprQuote(s)
  {
    [ReprQuote(s)] + ReprBody(s, ReprQuote(s)) + [ReprQuote(s)]
  }

  function ReprQuote(s: string): char
  {
    if '\'' in s && '"' !in s then '"' else '\''
  }

  function ReprBody(s: string, quote: char): string
  {
    if s == [] then [] else ReprChar(s[0], quote) + ReprBody(s[1..], quote)
  }

  /** The characters up to U+00FF that Python does not print as they are:
      the C0 and C1 controls, DEL, the no-break space and the soft hyphen. */
  predicate Unprintable(c: char)
  {
    c as int < 0x20 || (0x7F <= c as int <= 0xA0) || c as int == 0xAD
  }

  function HexDigit(d: int): char
    requires 0 <= d < 16
  {
    "0123456789abcdef"[d]
  }

  /** One character of a repr: the quote and the backslash behind a
      backslash, tab, newline and carriage return by their escapes, the
      other unprintable characters as `\x` and two hex digits. */
  function ReprChar(c: char, quote: char): string
  {
    if c == quote || c == '\\' then ['\\', c]
    else if c == '\t' then "\\t"
    else if c == '\n' then "\\n"
    else if c == '\r' then "\\r"
    else if Unprintable(c) then "\\x" + [HexDigit(c as int / 16), HexDigit(c as int % 16)]
    else [c]
  }

  /** A character that repr keeps as it is. */
  predicate Plain(c: char)
  {
    c != '\'' && c != '"' && c != '\\' && !Unprintable(c)
  }

  /** A key of plain characters is shown between single quotes as it is. */
  lemma {:induction false} ReprPlain(s: string)
    requires forall i :: 0 <= i < |s| ==> Plain(s[i])
    ensures Repr(s) == "'" + s + "'"
  {
    assert '\'' !in s by {
      assert forall i :: 0 <= i < |s| ==> s[i] != '\'';
    }
    ReprBodyPlain(s, '\'');
  }

  lemma {:induction false} ReprBodyPlain(s: string, quote: char)
    requires quote == '\'' || quote == '"'
    requires forall i :: 0 <= i < |s| ==> Plain(s[i])
    ensures ReprBody(s, quote) == s
  {
    if s != [] {
      assert Plain(s[0]);
      ReprBodyPlain(s[1..], quote);
    }
  }

  /** A key with a single quote and no double quote is shown between double
      quotes; a key with both has its single quotes escaped. */
  lemma ReprQuoting()
    ensures Repr("it's") == "\"it's\""
    ensures Repr("a'\"") == "'a\\'\"'"
  {
    assert ReprBody("it's", '"') == "it's" by {
      ReprBodyPlain("s", '"');
      assert "it's"[3..] == "s";
    }
    assert ReprQuote("a'\"") == '\'';
    assert ReprBody("a'\"", '\'') == "a\\'\"" by {
      assert "a'\""[1..] == "'\"" && "a'\""[1..][1..] == "\"";
    }
  }

  // ---------------------------------------------------------------------
  // Saving the settings file

  /** `value.replace('%%', '')`: every escaped percent sign, paired from
      the left, is dropped. */
  function DropEscapes(s: string): (r: string)
    ensures |r| <= |s|
    ensures forall c :: c in r ==> c in s
  {
    if |s| >= 2 && s[0] == '%' && s[1] == '%' then DropEscapes(s[2..])
    else if s == [] then [] else [s[0]] + DropEscapes(s[1..])
  }

  /** The first `)` at or after `i`, or the end of `s`. */
  function CloseParen(s: string, i: nat): (j: nat)
    requires i <= |s|
    ensures i <= j <= |s|
    ensures j < |s| ==> s[j] == ')'
    ensures forall k :: i <= k < j ==> s[k] != ')'
    decreases |s| - i
  {
    if i == |s| || s[i] == ')' then i else CloseParen(s, i + 1)
  }

  /** The length of the interpolation reference `%(name)s` (a non-empty
      name without `)`) that `s` starts with, or 0 when it starts with none. */
  function ReferenceLength(s: string): (n: nat)
    ensures n == 0 || (4 <= n <= |s| && s[0] == '%' && s[1] == '(' && s[n - 2] == ')' && s[n - 1] == 's')
    ensures n > 0 ==> forall k :: 2 <= k < n - 2 ==> s[k] != ')'
  {
    if |s| >= 2 && s[0] == '%' && s[1] == '(' then
      var j := CloseParen(s, 2);
      if j > 2 && j + 1 < |s| && s[j + 1] == 's' then j + 2 else 0
    else 0
  }

  /** The substitution of the empty string for every reference, scanning
      from the left as a regular-expression substitution does. */
  function DropReferences(s: string): (r: string)
    ensures |r| <= |s|
    ensures forall c :: c in r ==> c in s
    decreases |s|
  {
    if s == [] then []
    else
      var n := ReferenceLength(s);
      if n > 0 then DropReferences(s[n..]) else [s[0]] + DropReferences(s[1..])
  }

  /** What is left of a value once its escapes and references are dropped. */
  function Unreferenced(v: string): string
  {
    DropReferences(DropEscapes(v))
  }

  /** Basic interpolation accepts a value to be stored exactly when no
      percent sign is left outside an escape or a reference. */
  predicate Interpolable(v: string) {
    '%' !in Unreferenced(v)
  }

  /** The position of the first `c` in `s`, or -1 (`str.find`). */
  function Find(s: string, c: char): (i: int)
    ensures -1 <= i < |s|
    ensures i >= 0 <==> c in s
    ensures i >= 0 ==> s[i] == c && forall k :: 0 <= k < i ==> s[k] != c
  {
    if s == [] then -1
    else if s[0] == c then 0
    else var j := Find(s[1..], c); if j < 0 then -1 else j + 1
  }

  /** The text of the ValueError raised for a value that is not
      interpolable: the value's repr and where the stray percent sign sits
      in what is left of it. */
  function InterpolationError(v: string): (e: string)
    requires !Interpolable(v)
  {
    var at := Find(Unreferenced(v), '%');
    "invalid interpolation syntax in " + Repr(v) + " at position " + Text.Decimal(at)
  }

  /** configparser's default option transform, `str.lower`, on ASCII
      letters. */
  function OptionName(s: string): (r: string)
    ensures |r| == |s|
    ensures forall i :: 0 <= i < |s| ==> ('A' <= s[i] <= 'Z' ==> r[i] as int == s[i] as int + 32)
    ensures forall i :: 0 <= i < |s| ==> (!('A' <= s[i] <= 'Z') ==> r[i] == s[i])
  {
    if s == [] then []
    else [if 'A' <= s[0] <= 'Z' then (s[0] as int + 32) as char else s[0]] + OptionName(s[1..])
  }

  /** The text of the DuplicateOptionError raised when a second provider
      maps to the option name `option` of the API_KEYS section. */
  function DuplicateOptionError(option: string): string
  {
    "While reading from '<dict>': option " + Repr(option) + " in section 'API_KEYS' already exists"
  }

  /** `p` shares its option name with another stored provider. */
  predicate Clashes(keys: map<string, string>, p: string) {
    exists q :: q in keys && q != p && OptionName(q) == OptionName(p)
  }

  /** save_config completes exactly when the parser it builds takes every
      entry: no two providers share an option name, and every stored key and
      the saved model are interpolable. */
  predicate ConfigSaves(keys: map<string, string>, model: string) {
    (forall p :: p in keys ==> !Clashes(keys, p))
    && (forall p :: p in keys ==> Interpolable(keys[p]))
    && Interpolable(model)
  }

  /** What save_config raises when the entry for `p` was the last one added
      and everything before it was accepted. */
  function SaveError(keys: map<string, string>, p: string): (e: string)
    requires p in keys && (Clashes(keys, p) || !Interpolable(keys[p]))
  {
    if Clashes(keys, p) then DuplicateOptionError(OptionName(p)) else InterpolationError(keys[p])
  }

  lemma {:induction false} DropEscapesPercentFree(s: string)
    requires '%' !in s
    ensures DropEscapes(s) == s
  {
    if s != [] {
      DropEscapesPercentFree(s[1..]);
      assert [s[0]] + s[1..] == s;
    }
  }

  lemma {:induction false} DropReferencesPercentFree(s: string)
    requires '%' !in s
    ensures DropReferences(s) == s
  {
    if s != [] {
      assert ReferenceLength(s) == 0;
      DropReferencesPercentFree(s[1..]);
      assert [s[0]] + s[1..] == s;
    }
  }

  /** A value without a percent sign is stored as it is. */
  lemma PercentFreeInterpolable(v: string)
    requires '%' !in v
    ensures Unreferenced(v) == v && Interpolable(v)
  {
    DropEscapesPercentFree(v);
    DropReferencesPercentFree(v);
  }

  lemma LonePercentLeft()
    ensures Unreferenced("ab%c") == "ab%c" && Find("ab%c", '%') == 2
  {
    var v := "ab%c";
    assert v[1..] == "b%c" && v[2..] == "%c" && v[3..] == "c";
    assert DropEscapes("%c") == "%c";
    assert DropEscapes(v) == v;
    assert ReferenceLength("%c") == 0;
    assert DropReferences("%c") == "%c";
    assert DropReferences(v) == v;
    assert Find("%c", '%') == 0;
  }

  /** A lone percent sign is refused, with its position in the message. */
  lemma LonePercentRefused()
    ensures !Interpolable("ab%c")
    ensures InterpolationError("ab%c") == "invalid interpolation syntax in " + "'ab%c'" + " at position " + "2"
  {
    LonePercentLeft();
    assert Text.Decimal(2) == "2";
    ReprPlain("ab%c");
  }

  /** An escaped percent sign and a reference are taken. */
  lemma EscapeAndReferenceTaken()
    ensures Interpolable("1%%") && Interpolable("%(h)s")
  {
    assert "1%%"[1..] == "%%" && "%%"[2..] == [];
    assert DropEscapes("1%%") == "1";
    PercentFreeInterpolable("1");
    assert DropEscapes("%(h)s") == "%(h)s" by {
      var v := "%(h)s";
      assert v[1..] == "(h)s" && v[1..][1..] == "h)s" && v[1..][1..][1..] == ")s";
      assert DropEscapes("s") == "s";
      assert DropEscapes(")s") == ")s";
      assert DropEscapes("h)s") == "h)s";
      assert DropEscapes("(h)s") == "(h)s";
    }
    assert CloseParen("%(h)s", 2) == 3;
    assert ReferenceLength("%(h)s") == 5;
    assert "%(h)s"[5..] == [];
  }

  /** A reference needs a name and the closing `)s`. */
  lemma IncompleteReferenceRefused()
    ensures !Interpolable("%(h)") && !Interpolable("%()s")
  {
    assert ReferenceLength("%(h)") == 0 by {
      assert CloseParen("%(h)", 2) == 3;
    }
    assert ReferenceLength("%()s") == 0 by {
      assert CloseParen("%()s", 2) == 2;
    }
    assert DropEscapes("%(h)")[0] == '%' by {
      assert "%(h)"[1] == '(';
    }
    assert DropEscapes("%()s")[0] == '%' by {
      assert "%()s"[1] == '(';
    }
  }

  /** Once a refused key is stored, every later save raises too, whatever
      the model. */
  lemma StoredRefusedKeyFailsSaves(keys: map<string, string>, p: string, model: string)
    requires p in keys && !Interpolable(keys[p])
    ensures !ConfigSaves(keys, model)
  {
  }

  /** When the keys saved before, a failure after storing `v` for `p` is the
      new entry's: `p` clashes with another provider or `v` is refused. */
  lemma NewEntryFails(keys: map<string, string>, p: string, v: string, model: string)
    requires ConfigSaves(keys, model) && !ConfigSaves(keys[p := v], model)
    ensures Clashes(keys[p := v], p) || !Interpolable(v)
  {
    var after := keys[p := v];
    if !Clashes(after, p) && Interpolable(v) {
      forall q | q in after && q != p
        ensures !Clashes(after, q)
      {
        assert !Clashes(keys, q);
      }
    }
  }

  /** Choosing a model of the table never makes a save fail. */
  lemma ModelKeysInterpolable(key: string)
    requires IsModelKey(key)
    ensures Interpolable(key)
  {
    var i :| 0 <= i < |AiModels| && AiModels[i].key == key;
    if i == 0 {
      assert '%' !in "gemini-1.5-flash";
    } else if i == 1 {
      assert '%' !in "gemini-pro";
    } else if i == 2 {
      assert '%' !in "gpt-4";
    } else if i == 3 {
      assert '%' !in "gpt-3.5-turbo";
    } else if i == 4 {
      assert '%' !in "claude-3-sonnet";
    } else if i == 5 {
      assert '%' !in "llama-2-70b";
    } else if i == 6 {
      assert '%' !in "deepseek-coder";
    } else {
      assert key == "ollama-codellama";
      assert '%' !in "ollama-codellama";
    }
    PercentFreeInterpolable(key);
  }

  /** With the stored keys accepted, choosing a model of the table saves. */
  lemma ModelChoiceSaves(keys: map<string, string>, key: string)
    requires forall p :: p in keys ==> !Clashes(keys, p) && Interpolable(keys[p])
    requires IsModelKey(key)
    ensures ConfigSaves(keys, key)
  {
    ModelKeysInterpolable(key);
  }

  class AIAssistant {
    var currentModel: Option<string>
    var apiKeys: map<string, string>

    /** The assistant as load_config leaves it: the keys and model read from
        the settings file (none when it has no such section). */
    constructor (savedKeys: map<string, string>, savedModel: Option<string>)
      ensures apiKeys == savedKeys && currentModel == savedModel
    {
      apiKeys := savedKeys;
      currentModel := savedModel;
    }

    /** The model save_config writes: the current one, or the default when
        there is none. */
    function SavedModel(): (m: string)
      reads this
      ensures currentModel.Some? && currentModel.value != "" ==> m == currentModel.value
      ensures currentModel.None? || currentModel.value == "" ==> m == DefaultModel
    {
      if currentModel.Some? && currentModel.value != "" then currentModel.value else DefaultModel
    }

    /** Whether save_config completes for the current state. */
    predicate SaveSucceeds()
      reads this
    {
      ConfigSaves(apiKeys, SavedModel())
    }

    /** set_api_key: the provider's key becomes `key`; every other
        provider's key and the model stay as they were. The key is stored
        before save_config runs, so it stays stored when the save raises. */
    method SetApiKey(provider: string, key: string) returns (raised: bool)
      modifies this
      ensures apiKeys == old(apiKeys)[provider := key]
      ensures currentModel == old(currentModel)
      ensures raised <==> !SaveSucceeds()
    {
      apiKeys := apiKeys[provider := key];
      raised := !SaveSucceeds();
    }

    /** set_model: only a key of the model table is accepted; anything else
        is refused and changes nothing. An accepted key is the current model
        before save_config runs, so it stays current when the save raises. */
    method SetModel(key: Option<string>) returns (accepted: bool, raised: bool)
      modifies this
      ensures accepted <==> key.Some? && IsModelKey(key.value)
      ensures accepted ==> currentModel == key && (raised <==> !SaveSucceeds())
      ensures !accepted ==> currentModel == old(currentModel) && !raised
      ensures apiKeys == old(apiKeys)
    {
      if key.Some? && IsModelKey(key.value) {
        currentModel := key;
        return true, !SaveSucceeds();
      }
      return false, false;
    }

    /** The descriptor get_available_models reports for one table entry. */
    function Describe(e: Entry): ModelDescriptor
      reads this
    {
      ModelDescriptor(e.key, e.config.name, e.config.provider,
                      e.config.provider in apiKeys, Some(e.key) == currentModel)
    }

    /** The descriptors of the first `n` table entries. */
    function DescriptorsUpTo(n: nat): (ds: seq<ModelDescriptor>)
      requires n <= |AiModels|
      reads this
      ensures |ds| == n && forall i :: 0 <= i < n ==> ds[i] == Describe(AiModels[i])
    {
      if n == 0 then [] else DescriptorsUpTo(n - 1) + [Describe(AiModels[n - 1])]
    }

    /** get_available_models: builds the list entry by entry. */
    method GetAvailableModels() returns (models: seq<ModelDescriptor>)
      ensures models == DescriptorsUpTo(|AiModels|)
    {
      models := [];
      for i := 0 to |AiModels|
        invariant models == DescriptorsUpTo(i)
      {
        var entry := AiModels[i];
        models := models + [ModelDescriptor(entry.key, entry.config.name, entry.config.provider,
                                            entry.config.provider in apiKeys, Some(entry.key) == currentModel)];
      }
    }

    /** get_git_help: the guard chain, then the dispatch on the provider.
        An unknown model key raises before the guarded call is tried. */
    function GetGitHelp(errorMessage: string, context: string, ask: Ask): HelpOutcome
      reads this
    {
      if currentModel.None? || currentModel.value == "" then HelpOutcome(Ok(NoModelSelected), None)
      else match Lookup(currentModel.value)
        // str(KeyError(key)) is the repr of the key
        case None => HelpOutcome(Err(Repr(currentModel.value)), None)
        case Some(config) =>
          if config.provider !in apiKeys then
            HelpOutcome(Ok("API key not configured for " + config.name + ". Please set your API key first."), None)
          else if IsDispatched(config.provider) then
            var request := AskRequest(config.provider, config.modelId, apiKeys[config.provider], errorMessage, context);
            match ask(request)
            case Ok(text) => HelpOutcome(Ok(text), Some(request))
            case Err(e) => HelpOutcome(Ok("Error getting AI assistance: " + e), Some(request))
          else HelpOutcome(Ok("Provider " + config.provider + " not yet implemented."), None)
    }
  }

  /** The list has one descriptor per table entry, in table order; an entry
      is configured exactly when its provider has a key and selected exactly
      when its key is the current model, so at most one is selected. */
  lemma DescriptorsMeaning(a: AIAssistant)
    ensures var ds := a.DescriptorsUpTo(|AiModels|);
      |ds| == |AiModels|
      && (forall i :: 0 <= i < |ds| ==>
            ds[i].key == AiModels[i].key && ds[i].name == AiModels[i].config.name
            && ds[i].provider == AiModels[i].config.provider
            && (ds[i].configured <==> AiModels[i].config.provider in a.apiKeys)
            && (ds[i].selected <==> a.currentModel == Some(AiModels[i].key)))
      && (forall i, j :: 0 <= i < j < |ds| && ds[i].selected ==> !ds[j].selected)
  {
    KeysDistinct();
  }

  /** A selected descriptor exists exactly when the current model is a
      table key. */
  lemma SelectedIffKnownModel(a: AIAssistant)
    ensures var ds := a.DescriptorsUpTo(|AiModels|);
      (exists i :: 0 <= i < |ds| && ds[i].selected) <==> a.currentModel.Some? && IsModelKey(a.currentModel.value)
  {
    var ds := a.DescriptorsUpTo(|AiModels|);
    forall i | 0 <= i < |ds| && ds[i].selected
      ensures a.currentModel.Some? && IsModelKey(a.currentModel.value)
    {
      assert ds[i] == a.Describe(AiModels[i]);
    }
    if a.currentModel.Some? && IsModelKey(a.currentModel.value) {
      var i :| 0 <= i < |AiModels| && AiModels[i].key == a.currentModel.value;
      assert ds[i].selected;
    }
  }

  /** The guards of get_git_help, in order: no model; a model key outside
      the table (raising); no key for its provider; then only the four
      dispatched providers are asked, once, with the table's model id and
      the provider's key, and their failures are reported as text; the other
      providers are not implemented. */
  lemma HelpGuardChain(a: AIAssistant, errorMessage: string, context: string, ask: Ask)
    ensures var h := a.GetGitHelp(errorMessage, context, ask);
      (a.currentModel.None? || a.currentModel.value == "" ==> h == HelpOutcome(Ok(NoModelSelected), None))
      && (a.currentModel.Some? && a.currentModel.value != "" && !IsModelKey(a.currentModel.value) ==>
            h == HelpOutcome(Err(Repr(a.currentModel.value)), None))
      && (a.currentModel.Some? && IsModelKey(a.currentModel.value)
          && Lookup(a.currentModel.value).value.provider !in a.apiKeys ==>
            h == HelpOutcome(Ok("API key not configured for " + Lookup(a.currentModel.value).value.name
                                + ". Please set your API key first."), None))
      && (a.currentModel.Some? && IsModelKey(a.currentModel.value)
          && Lookup(a.currentModel.value).value.provider in a.apiKeys
          && !IsDispatched(Lookup(a.currentModel.value).value.provider) ==>
            h == HelpOutcome(Ok("Provider " + Lookup(a.currentModel.value).value.provider
                                + " not yet implemented."), None))
      && (h.asked.Some? <==>
            a.currentModel.Some? && IsModelKey(a.currentModel.value)
            && Lookup(a.currentModel.value).value.provider in a.apiKeys
            && IsDispatched(Lookup(a.currentModel.value).value.provider))
      && (h.asked.Some? ==>
            var c := Lookup(a.currentModel.value).value;
            h.asked.value == AskRequest(c.provider, c.modelId, a.apiKeys[c.provider], errorMessage, context)
            && h.result == Ok(match ask(h.asked.value)
                              case Ok(text) => text
                              case Err(e) => "Error getting AI assistance: " + e))
  {
    if a.currentModel.Some? && a.currentModel.value != "" && !IsModelKey(a.currentModel.value) {
      assert Lookup(a.currentModel.value).None?;
    }
  }

  /** With a key for its provider, a model of a provider that is not
      dispatched gets the not-implemented message; without one, the
      key-not-configured message naming the model. */
  lemma UnimplementedProviders(a: AIAssistant, errorMessage: string, context: string, ask: Ask)
    requires a.currentModel == Some("llama-2-70b") || a.currentModel == Some("deepseek-coder")
    ensures var c := Lookup(a.currentModel.value).value;
      a.GetGitHelp(errorMessage, context, ask) ==
        if c.provider in a.apiKeys then HelpOutcome(Ok("Provider " + c.provider + " not yet implemented."), None)
        else HelpOutcome(Ok("API key not configured for " + c.name + ". Please set your API key first."), None)
    ensures a.currentModel == Some("llama-2-70b") ==> Lookup(a.currentModel.value).value.provider == "meta"
    ensures a.currentModel == Some("deepseek-coder") ==> Lookup(a.currentModel.value).value.provider == "deepseek"
  {
    assert AiModels[5].key == "llama-2-70b" && AiModels[6].key == "deepseek-coder";
  }


  // ---------------------------------------------------------------------
  // Routes

  /** The JSON reply of an assistant route, or the server error Flask
      answers with when the route raises. */
  datatype RouteReply = RouteReply(success: bool, message: string) | ServerError

  /** /api/set-model: accepted keys are confirmed by the model's name; a
      failing save is not caught, so the route raises with the model
      already changed. */
  method SetModelRoute(a: AIAssistant, key: Option<string>) returns (reply: RouteReply)
    modifies a
    ensures key.Some? && IsModelKey(key.value) ==>
      a.currentModel == key
      && (a.SaveSucceeds() ==> reply == RouteReply(true, "Model set to " + Lookup(key.value).value.name))
      && (!a.SaveSucceeds() ==> reply == ServerError)
    ensures !(key.Some? && IsModelKey(key.value)) ==>
      a.currentModel == old(a.currentModel) && reply == RouteReply(false, "Invalid model selected")
    ensures a.apiKeys == old(a.apiKeys)
  {
    var accepted, raised := a.SetModel(key);
    if raised {
      reply := ServerError;
    } else if accepted {
      reply := RouteReply(true, "Model set to " + Lookup(key.value).value.name);
    } else {
      reply := RouteReply(false, "Invalid model selected");
    }
  }

  /** /api/set-api-key: both the provider and the key must be present and
      non-empty. A failing save is caught and reported, with the key
      already stored. When the state before saved cleanly, the reported
      error is the one the new entry causes: a provider name clash first,
      else the key's stray percent sign. */
  method SetApiKeyRoute(a: AIAssistant, provider: Option<string>, key: Option<string>) returns (reply: RouteReply)
    modifies a
    ensures var given := provider.Some? && provider.value != "" && key.Some? && key.value != "";
      reply.RouteReply?
      && (reply.success <==> given && a.SaveSucceeds())
      && (given ==> a.apiKeys == old(a.apiKeys)[provider.value := key.value])
      && (reply.success ==> reply.message == "API key set for " + provider.value)
      && (given && !a.SaveSucceeds() ==> Text.StartsWith(reply.message, "Error setting API key: "))
      && (given && !a.SaveSucceeds() && old(a.SaveSucceeds()) ==>
            (Clashes(a.apiKeys, provider.value) || !Interpolable(key.value))
            && reply.message == "Error setting API key: " + SaveError(a.apiKeys, provider.value))
      && (!given ==> a.apiKeys == old(a.apiKeys) && reply.message == "Provider and API key are required")
    ensures a.currentModel == old(a.currentModel)
  {
    if provider.Some? && provider.value != "" && key.Some? && key.value != "" {
      var before := a.SaveSucceeds();
      var raised := a.SetApiKey(provider.value, key.value);
      if raised {
        var error;
        if before {
          NewEntryFails(old(a.apiKeys), provider.value, key.value, a.SavedModel());
          error := SaveError(a.apiKeys, provider.value);
        } else if exists q :: q in a.apiKeys && (Clashes(a.apiKeys, q) || !Interpolable(a.apiKeys[q])) {
          // some refused entry; which one is raised first depends on the
          // dictionary's insertion order
          var q :| q in a.apiKeys && (Clashes(a.apiKeys, q) || !Interpolable(a.apiKeys[q]));
          error := SaveError(a.apiKeys, q);
        } else {
          error := InterpolationError(a.SavedModel());
        }
        reply := RouteReply(false, "Error setting API key: " + error);
      } else {
        reply := RouteReply(true, "API key set for " + provider.value);
      }
    } else {
      reply := RouteReply(false, "Provider and API key are required");
    }
  }

  /** The reply of /api/get-ai-help: the help text and the model's name, or
      the raised error's message. */
  datatype HelpReply = HelpReply(success: bool, response: string, model: string, message: string)

  /** The name the help route reports: the current model's, or "Unknown". */
  function ModelName(current: Option<string>): string
  {
    if current.Some? && Lookup(current.value).Some? then Lookup(current.value).value.name else "Unknown"
  }

  /** /api/get-ai-help: the guard messages are successful replies; only a
      model key outside the table makes the reply fail. */
  function GetAiHelpRoute(a: AIAssistant, errorMessage: GitOps.Field, context: GitOps.Field, ask: Ask): HelpReply
    reads a
  {
    var h := a.GetGitHelp(PromptText(errorMessage, None), PromptText(context, Some("")), ask);
    match h.result
    case Ok(text) => HelpReply(true, text, ModelName(a.currentModel), "")
    case Err(e) => HelpReply(false, "", "", "Error getting AI help: " + e)
  }

  /** How the prompt shows a request field read with `data.get` and the
      given default: a null, or a missing field without default, as None. */
  function PromptText(f: GitOps.Field, default: Option<string>): string
  {
    GitOps.Show(GitOps.Get(f, default))
  }

  /** The help route fails exactly when a model key outside the table is
      selected, and then names the key; otherwise it reports the model's
      name, or "Unknown" when none is selected. */
  lemma HelpRouteFailsOnlyOnUnknownKey(a: AIAssistant, errorMessage: GitOps.Field, context: GitOps.Field, ask: Ask)
    ensures var r := GetAiHelpRoute(a, errorMessage, context, ask);
      (!r.success <==> a.currentModel.Some? && a.currentModel.value != "" && !IsModelKey(a.currentModel.value))
      && (!r.success ==> r.message == "Error getting AI help: " + Repr(a.currentModel.value))
      && (r.success ==> r.model == (if a.currentModel.Some? && IsModelKey(a.currentModel.value)
                                    then Lookup(a.currentModel.value).value.name else "Unknown"))
  {
    HelpGuardChain(a, PromptText(errorMessage, None), PromptText(context, Some("")), ask);
  }

  /** The prompt shows a missing context as empty, and a null one as None;
      a missing or null failure text is shown as None. */
  lemma HelpPromptFields(a: AIAssistant, ask: Ask)
    requires a.currentModel.Some? && IsModelKey(a.currentModel.value)
    requires Lookup(a.currentModel.value).value.provider in a.apiKeys
    requires IsDispatched(Lookup(a.currentModel.value).value.provider)
    ensures a.GetGitHelp(PromptText(GitOps.Absent, None), PromptText(GitOps.Absent, Some("")), ask).asked.value.context == ""
    ensures a.GetGitHelp(PromptText(GitOps.Null, None), PromptText(GitOps.Null, Some("")), ask).asked.value.context == "None"
    ensures a.GetGitHelp(PromptText(GitOps.Absent, None), PromptText(GitOps.Str("c"), Some("")), ask).asked.value.errorMessage == "None"
  {
    HelpGuardChain(a, "None", "", ask);
    HelpGuardChain(a, "None", "None", ask);
    HelpGuardChain(a, "None", "c", ask);
  }
}

/** The backend's table of assistant models (the AI_MODELS dictionary of
    app.py) and the model descriptor the backend derives from it and the
    browser script consumes. */
module Catalog {
  import opened Wrappers

  /** One row of the table: display name, provider and the provider's own
      model identifier. */
  datatype ModelConfig = ModelConfig(name: string, provider: string, modelId: string)

  /** One entry of the table under its key. */
  datatype Entry = Entry(key: string, config: ModelConfig)

  /** The table in insertion order (Python dictionaries iterate in that order). */
  const AiModels: seq<Entry> := [
    Entry("gemini-1.5-flash", ModelConfig("Gemini 1.5 Flash", "google", "gemini-1.5-flash")),
    Entry("gemini-pro", ModelConfig("Gemini Pro", "google", "gemini-pro")),
    Entry("gpt-4", ModelConfig("GPT-4", "openai", "gpt-4")),
    Entry("gpt-3.5-turbo", ModelConfig("GPT-3.5 Turbo", "openai", "gpt-3.5-turbo")),
    Entry("claude-3-sonnet", ModelConfig("Claude 3 Sonnet", "anthropic", "claude-3-sonnet-20240229")),
    Entry("llama-2-70b", ModelConfig("Llama 2 70B", "meta", "llama-2-70b-chat")),
    Entry("deepseek-coder", ModelConfig("DeepSeek Coder", "deepseek", "deepseek-coder")),
    Entry("ollama-codellama", ModelConfig("Ollama CodeLlama", "ollama", "codellama"))
  ]

  /** The model written to the settings file when none is selected. */
  const DefaultModel: string := "gemini-1.5-flash"

  /** `key in AI_MODELS`. */
  predicate IsModelKey(key: string) {
    exists i :: 0 <= i < |AiModels| && AiModels[i].key == key
  }

  /** The keys of the table are pairwise different, as a dictionary's are. */
  lemma KeysDistinct()
    ensures forall i, j :: 0 <= i < j < |AiModels| ==> AiModels[i].key != AiModels[j].key
  {
  }

  /** `AI_MODELS[key]`, or None where Python would raise KeyError. */
  function Lookup(key: string): (r: Option<ModelConfig>)
    ensures r.Some? <==> IsModelKey(key)
    ensures forall i :: 0 <= i < |AiModels| && AiModels[i].key == key ==> r == Some(AiModels[i].config)
  {
    KeysDistinct();
    LookupIn(AiModels, key)
  }

  /** The first row of `entries` under `key`. */
  function LookupIn(entries: seq<Entry>, key: string): (r: Option<ModelConfig>)
    ensures r.Some? <==> exists i :: 0 <= i < |entries| && entries[i].key == key
    ensures r.Some? ==> exists i :: 0 <= i < |entries| && entries[i].key == key && entries[i].config == r.value
    ensures forall i :: (0 <= i < |entries| && entries[i].key == key
                         && forall j :: 0 <= j < i ==> entries[j].key != key)
                        ==> r == Some(entries[i].config)
  {
    if entries == [] then None
    else if entries[0].key == key then Some(entries[0].config)
    else
      var r := LookupIn(entries[1..], key);
      assert forall i :: 1 <= i < |entries| ==> entries[i] == entries[1..][i - 1];
      r
  }

  /** What the backend reports about one model for the configuration panel. */
  datatype ModelDescriptor = ModelDescriptor(
    key: string, name: string, provider: string, configured: bool, selected: bool)
}

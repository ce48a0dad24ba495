/** The application settings: their defaults and the list of model names
    derived from the language-to-model table. Reading the settings from the
    environment is not modelled; a configuration is a value. */
module AppConfiguration {
  import opened Wrappers

  /** The language-to-model table, as an ordered dictionary: pairs of
      (language code, model name) in insertion order. */
  type LanguageModels = seq<(string, string)>

  /** No language appears twice, as in a Python dictionary. */
  ghost predicate DistinctLanguages(table: LanguageModels)
  {
    forall i, j :: 0 <= i < j < |table| ==> table[i].0 != table[j].0
  }

  datatype AppConfig = AppConfig(
    version: string,
    dataDir: string,
    defaultModelForLanguage: LanguageModels,
    apiKey: Option<string>,
    chunksEmbeddingAtOnce: int,
    chunkingRequestsTopic: Option<string>,
    chunkingResponsesTopic: Option<string>,
    chunkEmbeddingRequestsTopic: string)

  const PolishModel := "ipipan/silver-retriever-base-v1.1"
  const EnglishModel := "Qwen/Qwen3-Embedding-0.6B"
  const DefaultEmbeddingRequestsTopic := "chunker-embeddings-requests"

  /** The settings with every field at its default. The package version is
      read from a module outside this model, so it is a parameter. */
  function Defaults(version: string): (c: AppConfig)
    ensures c.version == version
    ensures c.dataDir == "./data"
    ensures c.defaultModelForLanguage == [("pl", PolishModel), ("en", EnglishModel)]
    ensures c.apiKey.None?
    ensures c.chunksEmbeddingAtOnce == 4
    ensures c.chunkingRequestsTopic.None? && c.chunkingResponsesTopic.None?
    ensures c.chunkEmbeddingRequestsTopic == "chunker-embeddings-requests"
  {
    AppConfig(
      version, "./data", [("pl", PolishModel), ("en", EnglishModel)], None,
      4, None, None, DefaultEmbeddingRequestsTopic)
  }

  /** `list(default_model_for_language.values())`: the model names, one per
      language, in the table's order. */
  function ValuesOf(table: LanguageModels): (names: seq<string>)
    ensures |names| == |table|
    ensures forall i :: 0 <= i < |table| ==> names[i] == table[i].1
  {
    if table == [] then [] else [table[0].1] + ValuesOf(table[1..])
  }

  function ModelNames(c: AppConfig): (names: seq<string>)
    ensures |names| == |c.defaultModelForLanguage|
    ensures forall i :: 0 <= i < |names| ==> names[i] == c.defaultModelForLanguage[i].1
  {
    ValuesOf(c.defaultModelForLanguage)
  }

  /** The dictionary lookup `default_model_for_language.get(language)`. */
  function ModelForLanguage(table: LanguageModels, language: string): (m: Option<string>)
    ensures m.None? <==> forall i :: 0 <= i < |table| ==> table[i].0 != language
    ensures m.Some? ==>
              exists i :: 0 <= i < |table| && table[i] == (language, m.value) &&
                          (forall j :: 0 <= j < i ==> table[j].0 != language)
  {
    if table == [] then None
    else if table[0].0 == language then Some(table[0].1)
    else ModelForLanguage(table[1..], language)
  }

  /** Every model the table assigns to a language is among `model_names`,
      and every listed name is assigned to some language. */
  lemma {:induction false} ModelNamesCoverTable(table: LanguageModels, language: string)
    ensures ModelForLanguage(table, language).Some? ==>
              ModelForLanguage(table, language).value in ValuesOf(table)
    ensures forall m :: m in ValuesOf(table) ==>
              exists i :: 0 <= i < |table| && table[i].1 == m
  {
    if table != [] && table[0].0 != language {
      ModelNamesCoverTable(table[1..], language);
    }
  }

  /** With the defaults, `model_names` lists the Polish model, then the
      English one, and the lookup sends `pl` and `en` to them. */
  lemma DefaultModelNames(version: string)
    ensures ModelNames(Defaults(version)) == [PolishModel, EnglishModel]
    ensures ModelForLanguage(Defaults(version).defaultModelForLanguage, "pl") == Some(PolishModel)
    ensures ModelForLanguage(Defaults(version).defaultModelForLanguage, "en") == Some(EnglishModel)
    ensures DistinctLanguages(Defaults(version).defaultModelForLanguage)
  {
    var t := Defaults(version).defaultModelForLanguage;
    assert t[1..][1..] == [];
  }
}

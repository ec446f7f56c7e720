/** The translator: one tokenizer and one sequence-to-sequence model per
    direction in the configured table, loaded eagerly, and a dispatch that
    returns the text unchanged when no translation is needed or no model
    exists for the requested direction. */
module Translation {
  import opened Base

  /** `TRANSLATION_MODELS`: model key to checkpoint name, in insertion order. */
  const TRANSLATION_MODELS: seq<(string, string)> := [
    ("en-hi", "Helsinki-NLP/opus-mt-en-hi"),
    ("hi-en", "Helsinki-NLP/opus-mt-hi-en"),
    ("en-mr", "Helsinki-NLP/opus-mt-en-mr"),
    ("mr-en", "Helsinki-NLP/opus-mt-mr-en")
  ]

  /** Handles to what the model hub returns for a checkpoint; their insides are not modelled. */
  datatype Tokenizer = Tokenizer(checkpoint: string)
  datatype Seq2SeqModel = Seq2SeqModel(checkpoint: string)

  /** The key the dispatch looks up: `f"{source_lang}-{target_lang}"`. */
  function ModelKey(sourceLang: string, targetLang: string): (key: string)
    ensures |key| == |sourceLang| + 1 + |targetLang|
    ensures key[|sourceLang|] == '-' && key[..|sourceLang|] == sourceLang && key[|sourceLang| + 1..] == targetLang
  {
    sourceLang + "-" + targetLang
  }

  /** For source codes without a dash, a key names one direction only. */
  lemma ModelKeyInjective(a: string, b: string, c: string, d: string)
    requires '-' !in a && '-' !in c
    requires ModelKey(a, b) == ModelKey(c, d)
    ensures a == c && b == d
  {
  }

  function TableKeys(table: seq<(string, string)>): set<string>
  {
    set i | 0 <= i < |table| :: table[i].0
  }

  predicate DistinctKeys(table: seq<(string, string)>)
  {
    forall i, j :: 0 <= i < j < |table| ==> table[i].0 != table[j].0
  }

  datatype Loaded = Loaded(tokenizers: map<string, Tokenizer>, models: map<string, Seq2SeqModel>)

  /** What the loading loop ends with: entry by entry, tokenizer first, then
      model; the first failure aborts with its message. */
  function LoadTable(table: seq<(string, string)>,
                     loadTokenizer: string -> Result<Tokenizer, string>,
                     loadModel: string -> Result<Seq2SeqModel, string>): (r: Result<Loaded, string>)
    ensures r.Success? ==> r.value.tokenizers.Keys == r.value.models.Keys
    ensures r.Failure? ==>
      exists i :: 0 <= i < |table| && (loadTokenizer(table[i].1) == Failure(r.error) || loadModel(table[i].1) == Failure(r.error))
    decreases |table|
  {
    if |table| == 0 then Success(Loaded(map[], map[]))
    else
      var prev := LoadTable(table[..|table| - 1], loadTokenizer, loadModel);
      var key, name := table[|table| - 1].0, table[|table| - 1].1;
      if prev.Failure? then prev
      else if loadTokenizer(name).Failure? then Failure(loadTokenizer(name).error)
      else if loadModel(name).Failure? then Failure(loadModel(name).error)
      else Success(Loaded(prev.value.tokenizers[key := loadTokenizer(name).value],
                          prev.value.models[key := loadModel(name).value]))
  }

  predicate AllLoad(table: seq<(string, string)>,
                    loadTokenizer: string -> Result<Tokenizer, string>,
                    loadModel: string -> Result<Seq2SeqModel, string>)
  {
    forall i :: 0 <= i < |table| ==> loadTokenizer(table[i].1).Success? && loadModel(table[i].1).Success?
  }

  /** Construction succeeds exactly when every checkpoint loads. */
  lemma {:induction false} LoadSucceedsIff(table: seq<(string, string)>,
                                           loadTokenizer: string -> Result<Tokenizer, string>,
                                           loadModel: string -> Result<Seq2SeqModel, string>)
    ensures LoadTable(table, loadTokenizer, loadModel).Success? <==> AllLoad(table, loadTokenizer, loadModel)
    decreases |table|
  {
    if |table| > 0 {
      var init := table[..|table| - 1];
      LoadSucceedsIff(init, loadTokenizer, loadModel);
      assert forall i :: 0 <= i < |init| ==> init[i] == table[i];
    }
  }

  lemma TableKeysSnoc(table: seq<(string, string)>)
    requires |table| > 0
    ensures TableKeys(table) == TableKeys(table[..|table| - 1]) + {table[|table| - 1].0}
  {
    var init := table[..|table| - 1];
    forall x | x in TableKeys(table) ensures x in TableKeys(init) + {table[|table| - 1].0} {
      var i :| 0 <= i < |table| && table[i].0 == x;
      if i < |init| {
        assert init[i].0 == x;
      }
    }
  }

  /** After a successful load both dictionaries have exactly the table's keys. */
  lemma {:induction false} LoadedKeys(table: seq<(string, string)>,
                                      loadTokenizer: string -> Result<Tokenizer, string>,
                                      loadModel: string -> Result<Seq2SeqModel, string>)
    requires LoadTable(table, loadTokenizer, loadModel).Success?
    ensures var l := LoadTable(table, loadTokenizer, loadModel).value;
      l.tokenizers.Keys == TableKeys(table) && l.models.Keys == TableKeys(table)
    decreases |table|
  {
    if |table| > 0 {
      var init := table[..|table| - 1];
      LoadedKeys(init, loadTokenizer, loadModel);
      TableKeysSnoc(table);
    }
  }

  /** After a successful load each key holds what was loaded for its own checkpoint. */
  lemma {:induction false} LoadedValues(table: seq<(string, string)>,
                                        loadTokenizer: string -> Result<Tokenizer, string>,
                                        loadModel: string -> Result<Seq2SeqModel, string>)
    requires DistinctKeys(table)
    requires LoadTable(table, loadTokenizer, loadModel).Success?
    ensures var l := LoadTable(table, loadTokenizer, loadModel).value;
      forall i :: 0 <= i < |table| ==>
        && table[i].0 in l.tokenizers && table[i].0 in l.models
        && loadTokenizer(table[i].1) == Success(l.tokenizers[table[i].0])
        && loadModel(table[i].1) == Success(l.models[table[i].0])
    decreases |table|
  {
    if |table| > 0 {
      var n := |table| - 1;
      var init := table[..n];
      assert DistinctKeys(init);
      LoadedValues(init, loadTokenizer, loadModel);
      var prev := LoadTable(init, loadTokenizer, loadModel).value;
      var key, name := table[n].0, table[n].1;
      var l := LoadTable(table, loadTokenizer, loadModel).value;
      assert l.tokenizers == prev.tokenizers[key := loadTokenizer(name).value];
      assert l.models == prev.models[key := loadModel(name).value];
      forall i | 0 <= i < n
        ensures table[i].0 in l.tokenizers && table[i].0 in l.models
        ensures loadTokenizer(table[i].1) == Success(l.tokenizers[table[i].0])
        ensures loadModel(table[i].1) == Success(l.models[table[i].0])
      {
        assert init[i] == table[i];
        assert table[i].0 != key;
      }
    }
  }

  /** A failure in a prefix of the table is the failure of the whole table. */
  lemma {:induction false} LoadFailurePersists(table: seq<(string, string)>, n: nat,
                                               loadTokenizer: string -> Result<Tokenizer, string>,
                                               loadModel: string -> Result<Seq2SeqModel, string>)
    requires n <= |table| && LoadTable(table[..n], loadTokenizer, loadModel).Failure?
    ensures LoadTable(table, loadTokenizer, loadModel) == LoadTable(table[..n], loadTokenizer, loadModel)
    decreases |table| - n
  {
    if n == |table| {
      assert table[..n] == table;
    } else {
      assert table[..|table| - 1][..n] == table[..n];
      LoadFailurePersists(table[..|table| - 1], n, loadTokenizer, loadModel);
    }
  }

  class Translator {
    var models: map<string, Seq2SeqModel>
    var tokenizers: map<string, Tokenizer>

    /** The tokenizer of a direction is loaded before its model, so every
        model key also has a tokenizer. */
    predicate Valid()
      reads this
    {
      models.Keys <= tokenizers.Keys
    }

    /** The two empty dictionaries the constructor starts from. */
    constructor ()
      ensures models == map[] && tokenizers == map[]
      ensures Valid()
    {
      models := map[];
      tokenizers := map[];
    }

    /** The loading loop of the constructor: on failure the error is re-raised
        (returned here), with the dictionaries as far as they got. */
    method LoadModels(table: seq<(string, string)>,
                      loadTokenizer: string -> Result<Tokenizer, string>,
                      loadModel: string -> Result<Seq2SeqModel, string>) returns (error: Option<string>)
      requires models == map[] && tokenizers == map[]
      modifies this
      ensures Valid()
      ensures error.None? <==> LoadTable(table, loadTokenizer, loadModel).Success?
      ensures error.None? ==> Loaded(tokenizers, models) == LoadTable(table, loadTokenizer, loadModel).value
      ensures error.Some? ==> LoadTable(table, loadTokenizer, loadModel) == Failure(error.value)
    {
      var i := 0;
      while i < |table|
        invariant 0 <= i <= |table|
        invariant Valid()
        invariant LoadTable(table[..i], loadTokenizer, loadModel) == Success(Loaded(tokenizers, models))
      {
        var key, modelName := table[i].0, table[i].1;
        assert table[..i + 1][..i] == table[..i];
        var tokenizer := loadTokenizer(modelName);
        if tokenizer.Failure? {
          LoadFailurePersists(table, i + 1, loadTokenizer, loadModel);
          return Some(tokenizer.error);
        }
        tokenizers := tokenizers[key := tokenizer.value];
        var model := loadModel(modelName);
        if model.Failure? {
          LoadFailurePersists(table, i + 1, loadTokenizer, loadModel);
          return Some(model.error);
        }
        models := models[key := model.value];
        i := i + 1;
      }
      assert table[..i] == table;
      error := None;
    }

    /** `translate(text, source_lang, target_lang)`; `generate` stands for
        tokenizing, beam-search generation and decoding with the pair's
        tokenizer and model. */
    function Translate(text: string, sourceLang: string, targetLang: string,
                       generate: (Tokenizer, Seq2SeqModel, string) -> string): (r: string)
      reads this
      requires Valid()
      ensures sourceLang == targetLang ==> r == text
      ensures ModelKey(sourceLang, targetLang) !in models ==> r == text
      ensures sourceLang != targetLang && ModelKey(sourceLang, targetLang) in models ==>
        r == generate(tokenizers[ModelKey(sourceLang, targetLang)], models[ModelKey(sourceLang, targetLang)], text)
    {
      if sourceLang == targetLang then text
      else
        var modelKey := ModelKey(sourceLang, targetLang);
        if modelKey !in models then text
        else generate(tokenizers[modelKey], models[modelKey], text)
    }
  }

  /** Building a translator: the constructor's empty dictionaries, then the
      loading loop over `TRANSLATION_MODELS`; any loading error aborts the
      construction. */
  method NewTranslator(loadTokenizer: string -> Result<Tokenizer, string>,
                       loadModel: string -> Result<Seq2SeqModel, string>) returns (r: Result<Translator, string>)
    ensures r.Success? <==> AllLoad(TRANSLATION_MODELS, loadTokenizer, loadModel)
    ensures r.Success? ==> fresh(r.value) && r.value.Valid()
    ensures r.Success? ==> r.value.models.Keys == r.value.tokenizers.Keys == TableKeys(TRANSLATION_MODELS)
    ensures r.Failure? ==> LoadTable(TRANSLATION_MODELS, loadTokenizer, loadModel) == Failure(r.error)
  {
    var t := new Translator();
    var error := t.LoadModels(TRANSLATION_MODELS, loadTokenizer, loadModel);
    LoadSucceedsIff(TRANSLATION_MODELS, loadTokenizer, loadModel);
    if error.Some? {
      return Failure(error.value);
    }
    LoadedKeys(TRANSLATION_MODELS, loadTokenizer, loadModel);
    r := Success(t);
  }

  const SUPPORTED_LANGUAGES: set<string> := {"en", "hi", "mr"}

  /** The configured directions, as keys. */
  lemma ConfiguredKeys()
    ensures TableKeys(TRANSLATION_MODELS) == {"en-hi", "hi-en", "en-mr", "mr-en"}
  {
    var t := TRANSLATION_MODELS;
    assert t[0].0 == "en-hi" && t[1].0 == "hi-en" && t[2].0 == "en-mr" && t[3].0 == "mr-en";
  }

  /** With the configured table, between two supported languages a model is
      consulted exactly when the languages differ and one of them is English;
      Hindi to Marathi and back return the text unchanged, with no pivot
      through English. */
  lemma ConfiguredRouting(t: Translator, text: string, s: string, g: string,
                          generate: (Tokenizer, Seq2SeqModel, string) -> string)
    requires t.Valid() && t.models.Keys == TableKeys(TRANSLATION_MODELS)
    requires s in SUPPORTED_LANGUAGES && g in SUPPORTED_LANGUAGES
    ensures ModelKey(s, g) in t.models <==> s != g && (s == "en" || g == "en")
    ensures !(s != g && (s == "en" || g == "en")) ==> t.Translate(text, s, g, generate) == text
    ensures (s == "hi" && g == "mr") || (s == "mr" && g == "hi") ==> t.Translate(text, s, g, generate) == text
  {
    ConfiguredKeys();
    assert ModelKey("en", "hi") == "en-hi" && ModelKey("hi", "en") == "hi-en";
    assert ModelKey("en", "mr") == "en-mr" && ModelKey("mr", "en") == "mr-en";
    var k := ModelKey(s, g);
    if k in TableKeys(TRANSLATION_MODELS) {
      var c, d: string;
      if k == "en-hi" { c, d := "en", "hi"; }
      else if k == "hi-en" { c, d := "hi", "en"; }
      else if k == "en-mr" { c, d := "en", "mr"; }
      else { c, d := "mr", "en"; }
      ModelKeyInjective(s, g, c, d);
    }
  }
}

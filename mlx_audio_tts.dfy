/**
 * The voice catalogue and model cache of say/mlx_audio_tts.py: the language and voice
 * tables, the lookups with their defaults, the constructor's validation, and the pipeline
 * cache that reloads only when the language changes. Loading the Kokoro model and running
 * its pipeline are foreign calls: a load is a new model number, and the audio chunks the
 * pipeline yields are an input.
 */
module MlxAudioTts {
  import opened Wrappers
  import opened Samples

  datatype Language = Language(code: string, name: string)
  datatype Voice = Voice(id: string, name: string)

  const LANGUAGES: seq<Language> := [
    Language("a", "American English"), Language("b", "British English"), Language("e", "Spanish"),
    Language("f", "French"), Language("h", "Hindi"), Language("i", "Italian"),
    Language("p", "Portuguese (Brazilian)"), Language("j", "Japanese"), Language("z", "Mandarin Chinese")]

  const AMERICAN: seq<Voice> := [
    Voice("af_heart", "Heart (Female)"), Voice("af_alloy", "Alloy (Female)"),
    Voice("af_aoede", "Aoede (Female)"), Voice("af_bella", "Bella (Female)"),
    Voice("af_jessica", "Jessica (Female)"), Voice("af_kore", "Kore (Female)"),
    Voice("af_nicole", "Nicole (Female)"), Voice("af_nova", "Nova (Female)"),
    Voice("af_river", "River (Female)"), Voice("af_sarah", "Sarah (Female)"),
    Voice("af_sky", "Sky (Female)"), Voice("am_adam", "Adam (Male)"), Voice("am_echo", "Echo (Male)"),
    Voice("am_eric", "Eric (Male)"), Voice("am_fenrir", "Fenrir (Male)"), Voice("am_liam", "Liam (Male)"),
    Voice("am_michael", "Michael (Male)"), Voice("am_onyx", "Onyx (Male)"), Voice("am_puck", "Puck (Male)"),
    Voice("am_santa", "Santa (Male)")]

  const BRITISH: seq<Voice> := [
    Voice("bf_alice", "Alice (Female)"), Voice("bf_emma", "Emma (Female)"),
    Voice("bf_isabella", "Isabella (Female)"), Voice("bf_lily", "Lily (Female)"),
    Voice("bm_daniel", "Daniel (Male)"), Voice("bm_fable", "Fable (Male)"),
    Voice("bm_george", "George (Male)"), Voice("bm_lewis", "Lewis (Male)")]

  const SPANISH: seq<Voice> := [
    Voice("ef_dora", "Dora (Female)"), Voice("em_alex", "Alex (Male)"), Voice("em_santa", "Santa (Male)")]

  const FRENCH: seq<Voice> := [
    Voice("ff_siwis", "Siwis (Female)")]

  const HINDI: seq<Voice> := [
    Voice("hf_alpha", "Alpha (Female)"), Voice("hf_beta", "Beta (Female)"),
    Voice("hm_omega", "Omega (Male)"), Voice("hm_psi", "Psi (Male)")]

  const ITALIAN: seq<Voice> := [
    Voice("if_sara", "Sara (Female)"), Voice("im_nicola", "Nicola (Male)")]

  const PORTUGUESE: seq<Voice> := [
    Voice("pf_dora", "Dora (Female)"), Voice("pm_alex", "Alex (Male)"), Voice("pm_santa", "Santa (Male)")]

  const JAPANESE: seq<Voice> := [
    Voice("jf_alpha", "Alpha (Female)"), Voice("jf_gongitsune", "Gongitsune (Female)"),
    Voice("jf_nezumi", "Nezumi (Female)"), Voice("jf_tebukuro", "Tebukuro (Female)"),
    Voice("jm_kumo", "Kumo (Male)")]

  const MANDARIN: seq<Voice> := [
    Voice("zf_xiaobei", "Xiaobei (Female)"), Voice("zf_xiaoni", "Xiaoni (Female)"),
    Voice("zf_xiaoxiao", "Xiaoxiao (Female)"), Voice("zf_xiaoyi", "Xiaoyi (Female)"),
    Voice("zm_yunjian", "Yunjian (Male)"), Voice("zm_yunxi", "Yunxi (Male)"),
    Voice("zm_yunxia", "Yunxia (Male)"), Voice("zm_yunyang", "Yunyang (Male)")]

  /** `VOICES_BY_LANGUAGE.get(lang)`. */
  function Table(lang: string): Option<seq<Voice>>
  {
    if lang == "a" then Some(AMERICAN)
    else if lang == "b" then Some(BRITISH)
    else if lang == "e" then Some(SPANISH)
    else if lang == "f" then Some(FRENCH)
    else if lang == "h" then Some(HINDI)
    else if lang == "i" then Some(ITALIAN)
    else if lang == "p" then Some(PORTUGUESE)
    else if lang == "j" then Some(JAPANESE)
    else if lang == "z" then Some(MANDARIN)
    else None
  }

  /** `VOICES`: the per-language tables merged in order. */
  const VOICES: seq<Voice> :=
    AMERICAN + BRITISH + SPANISH + FRENCH + HINDI + ITALIAN + PORTUGUESE + JAPANESE + MANDARIN

  /** `dict.get` on a table built by successive insertions: the last entry for `id` wins. */
  function Lookup(vs: seq<Voice>, id: string): Option<string>
  {
    if vs == [] then None
    else if vs[|vs| - 1].id == id then Some(vs[|vs| - 1].name)
    else Lookup(vs[..|vs| - 1], id)
  }

  /** Merging a table into another: the merged table answers from the later one first. */
  lemma {:induction false} LookupAppend(a: seq<Voice>, b: seq<Voice>, id: string)
    ensures Lookup(a + b, id) == if Lookup(b, id).Some? then Lookup(b, id) else Lookup(a, id)
  {
    if b != [] {
      assert (a + b)[..|a + b| - 1] == a + b[..|b| - 1];
      LookupAppend(a, b[..|b| - 1], id);
    } else {
      assert a + b == a;
    }
  }

  /** A table has an answer for `id` exactly when some entry has that id, and the answer
      is that entry's name. */
  lemma {:induction false} LookupFinds(vs: seq<Voice>, id: string)
    ensures Lookup(vs, id).Some? <==> exists i :: 0 <= i < |vs| && vs[i].id == id
    ensures Lookup(vs, id).Some? ==> exists i :: 0 <= i < |vs| && vs[i] == Voice(id, Lookup(vs, id).value)
  {
    if vs != [] {
      var init := vs[..|vs| - 1];
      LookupFinds(init, id);
      assert forall i :: 0 <= i < |init| ==> init[i] == vs[i];
      if Lookup(vs, id).Some? && vs[|vs| - 1].id != id {
        var i :| 0 <= i < |init| && init[i] == Voice(id, Lookup(init, id).value);
        assert vs[i] == init[i];
      }
    }
  }

  /** Every id in `vs` starts with `c`. */
  predicate Prefixed(vs: seq<Voice>, c: char)
  {
    forall i :: 0 <= i < |vs| ==> |vs[i].id| > 0 && vs[i].id[0] == c
  }

  /** A table whose ids all start with `c` has nothing for an id that does not. */
  lemma PrefixedMisses(vs: seq<Voice>, c: char, id: string)
    requires Prefixed(vs, c) && (id == "" || id[0] != c)
    ensures Lookup(vs, id) == None
  {
    LookupFinds(vs, id);
  }

  /** Every voice has a non-empty display name. */
  predicate Named(vs: seq<Voice>)
  {
    forall i :: 0 <= i < |vs| ==> vs[i].name != ""
  }

  lemma {:induction false} NamedAppend(a: seq<Voice>, b: seq<Voice>)
    requires Named(a) && Named(b)
    ensures Named(a + b)
  {
    assert forall i :: |a| <= i < |a + b| ==> (a + b)[i] == b[i - |a|];
  }

  /** Every voice id's first character is its language code, and every voice has a
      display name. */
  lemma EnglishTablesShape()
    ensures Prefixed(AMERICAN, 'a') && Prefixed(BRITISH, 'b')
    ensures Named(AMERICAN) && Named(BRITISH)
  {
  }

  lemma OtherTablesShape()
    ensures Prefixed(SPANISH, 'e') && Prefixed(FRENCH, 'f') && Prefixed(HINDI, 'h') && Prefixed(ITALIAN, 'i')
    ensures Prefixed(PORTUGUESE, 'p') && Prefixed(JAPANESE, 'j') && Prefixed(MANDARIN, 'z')
    ensures Named(SPANISH) && Named(FRENCH) && Named(HINDI) && Named(ITALIAN)
    ensures Named(PORTUGUESE) && Named(JAPANESE) && Named(MANDARIN)
  {
  }

  lemma TableCodes(lang: string)
    ensures Table(lang).Some? ==> |lang| == 1 && Prefixed(Table(lang).value, lang[0])
    ensures Table(lang).Some? <==> exists i :: 0 <= i < |LANGUAGES| && LANGUAGES[i].code == lang
  {
    EnglishTablesShape();
    OtherTablesShape();
    if Table(lang).Some? {
      var i := if lang == "a" then 0 else if lang == "b" then 1 else if lang == "e" then 2
        else if lang == "f" then 3 else if lang == "h" then 4 else if lang == "i" then 5
        else if lang == "p" then 6 else if lang == "j" then 7 else 8;
      assert LANGUAGES[i].code == lang;
    }
  }

  /** Merging nine tables whose ids start with nine different characters: an id is
      answered by the table of its first character alone. */
  lemma MergeByPrefix(a: seq<Voice>, b: seq<Voice>, e: seq<Voice>, f: seq<Voice>, h: seq<Voice>,
                      i: seq<Voice>, p: seq<Voice>, j: seq<Voice>, z: seq<Voice>, id: string)
    requires Prefixed(a, 'a') && Prefixed(b, 'b') && Prefixed(e, 'e') && Prefixed(f, 'f') && Prefixed(h, 'h')
    requires Prefixed(i, 'i') && Prefixed(p, 'p') && Prefixed(j, 'j') && Prefixed(z, 'z')
    ensures var c := if id == "" then ' ' else id[0];
      Lookup(a + b + e + f + h + i + p + j + z, id) ==
        if c == 'a' then Lookup(a, id) else if c == 'b' then Lookup(b, id) else if c == 'e' then Lookup(e, id)
        else if c == 'f' then Lookup(f, id) else if c == 'h' then Lookup(h, id) else if c == 'i' then Lookup(i, id)
        else if c == 'p' then Lookup(p, id) else if c == 'j' then Lookup(j, id) else if c == 'z' then Lookup(z, id)
        else None
  {
    var c := if id == "" then ' ' else id[0];
    if c != 'a' { PrefixedMisses(a, 'a', id); }
    if c != 'b' { PrefixedMisses(b, 'b', id); }
    if c != 'e' { PrefixedMisses(e, 'e', id); }
    if c != 'f' { PrefixedMisses(f, 'f', id); }
    if c != 'h' { PrefixedMisses(h, 'h', id); }
    if c != 'i' { PrefixedMisses(i, 'i', id); }
    if c != 'p' { PrefixedMisses(p, 'p', id); }
    if c != 'j' { PrefixedMisses(j, 'j', id); }
    if c != 'z' { PrefixedMisses(z, 'z', id); }
    LookupAppend(a, b, id);
    LookupAppend(a + b, e, id);
    LookupAppend(a + b + e, f, id);
    LookupAppend(a + b + e + f, h, id);
    LookupAppend(a + b + e + f + h, i, id);
    LookupAppend(a + b + e + f + h + i, p, id);
    LookupAppend(a + b + e + f + h + i + p, j, id);
    LookupAppend(a + b + e + f + h + i + p + j, z, id);
  }

  /** The merged table answers for an id what the table of the id's first character
      answers, and nothing for an id no language claims. */
  lemma VoicesIsUnion(id: string)
    ensures Lookup(VOICES, id) == if id != "" && Table([id[0]]).Some? then Lookup(Table([id[0]]).value, id) else None
  {
    EnglishTablesShape();
    OtherTablesShape();
    MergeByPrefix(AMERICAN, BRITISH, SPANISH, FRENCH, HINDI, ITALIAN, PORTUGUESE, JAPANESE, MANDARIN, id);
  }

  /** Every voice of the merged table has a display name. */
  lemma VoicesNamed()
    ensures Named(VOICES)
  {
    EnglishTablesShape();
    OtherTablesShape();
    NamedAppend(AMERICAN, BRITISH);
    NamedAppend(AMERICAN + BRITISH, SPANISH);
    NamedAppend(AMERICAN + BRITISH + SPANISH, FRENCH);
    NamedAppend(AMERICAN + BRITISH + SPANISH + FRENCH, HINDI);
    NamedAppend(AMERICAN + BRITISH + SPANISH + FRENCH + HINDI, ITALIAN);
    NamedAppend(AMERICAN + BRITISH + SPANISH + FRENCH + HINDI + ITALIAN, PORTUGUESE);
    NamedAppend(AMERICAN + BRITISH + SPANISH + FRENCH + HINDI + ITALIAN + PORTUGUESE, JAPANESE);
    NamedAppend(AMERICAN + BRITISH + SPANISH + FRENCH + HINDI + ITALIAN + PORTUGUESE + JAPANESE, MANDARIN);
  }

  /** `get_language_from_voice`: "a" for an empty id, else its first character. */
  function LanguageFromVoice(voiceId: string): (lang: string)
    ensures |lang| == 1
  {
    if voiceId == "" then "a" else [voiceId[0]]
  }

  /** The language of every catalogued voice is the table it is listed in. */
  lemma VoiceLanguage(lang: string, i: nat)
    requires Table(lang).Some? && i < |Table(lang).value|
    ensures LanguageFromVoice(Table(lang).value[i].id) == lang
  {
    TableCodes(lang);
  }

  /** `DEFAULT_VOICES.get(language, "af_heart")`. */
  function DefaultVoice(language: string): string
  {
    if language == "a" then "af_heart"
    else if language == "b" then "bf_emma"
    else if language == "e" then "ef_dora"
    else if language == "f" then "ff_siwis"
    else if language == "h" then "hf_alpha"
    else if language == "i" then "if_sara"
    else if language == "p" then "pf_dora"
    else if language == "j" then "jf_alpha"
    else if language == "z" then "zf_xiaoxiao"
    else "af_heart"
  }

  /** Each language's default voice is one of that language's voices; any other
      language falls back to "af_heart". */
  lemma DefaultsBelong(language: string)
    ensures Table(language).Some? ==>
      Lookup(Table(language).value, DefaultVoice(language)).Some? && LanguageFromVoice(DefaultVoice(language)) == language
    ensures Table(language).None? ==> DefaultVoice(language) == "af_heart"
  {
    if Table(language).Some? {
      var t := Table(language).value;
      var i := if language == "b" then 1 else if language == "z" then 2 else 0;
      assert t[i].id == DefaultVoice(language);
      LookupFinds(t, DefaultVoice(language));
    }
  }

  /** The voice is in `VOICES`. */
  predicate Supported(id: string)
  {
    Lookup(VOICES, id).Some?
  }

  /** `get_voice_name`: the display name, or the id itself when it is unknown. */
  function VoiceName(id: string): string
  {
    match Lookup(VOICES, id)
    case Some(name) => name
    case None => id
  }

  /** Known voices have a non-empty display name; unknown ones are answered with the id. */
  lemma VoiceNameShape(id: string)
    ensures Supported(id) ==> VoiceName(id) != "" && exists i :: 0 <= i < |VOICES| && VOICES[i] == Voice(id, VoiceName(id))
    ensures !Supported(id) ==> VoiceName(id) == id
  {
    LookupFinds(VOICES, id);
    if Supported(id) {
      VoicesNamed();
    }
  }

  /** `list_voices(language)`: that language's table ({} for an unknown one), or every
      voice when the language is absent or empty. */
  function ListVoices(language: Option<string>): seq<Voice>
  {
    if language.Some? && language.value != "" then
      (match Table(language.value) case Some(t) => t case None => [])
    else VOICES
  }

  /** Every voice listed for a language speaks it; asking for no language lists the
      merged table. */
  lemma ListVoicesShape(language: Option<string>)
    ensures language.Some? && language.value != "" ==>
      forall i :: 0 <= i < |ListVoices(language)| ==> LanguageFromVoice(ListVoices(language)[i].id) == language.value
    ensures language.Some? && language.value != "" && Table(language.value).None? ==> ListVoices(language) == []
    ensures language.None? || language.value == "" ==> ListVoices(language) == VOICES
  {
    if language.Some? && language.value != "" && Table(language.value).Some? {
      forall i | 0 <= i < |ListVoices(language)|
        ensures LanguageFromVoice(ListVoices(language)[i].id) == language.value
      {
        VoiceLanguage(language.value, i);
      }
    }
  }

  /** `list_languages`. */
  function ListLanguages(): seq<Language>
  {
    LANGUAGES
  }

  /** Why the constructor raises. */
  datatype InitError = MlxAudioMissing | UnsupportedVoice(voice: string) | SpeedOutOfRange(speed: real)

  /** The checks of `__init__`, in order. */
  function Validate(hasMlxAudio: bool, voice: string, speed: real): Outcome<InitError>
  {
    if !hasMlxAudio then Fail(MlxAudioMissing)
    else if !Supported(voice) then Fail(UnsupportedVoice(voice))
    else if !(0.5 <= speed <= 2.0) then Fail(SpeedOutOfRange(speed))
    else Pass
  }

  /** The catalogue facts the test suite relies on. */
  lemma CatalogueExamples()
    ensures Supported("af_heart") && Supported("am_adam")
    ensures !Supported("invalid") && !Supported("invalid_voice") && VoiceName("invalid") == "invalid"
    ensures VoiceName("af_heart") != ""
    ensures Validate(true, "af_heart", 1.0) == Pass && Validate(true, "am_adam", 1.5) == Pass
    ensures Validate(true, "invalid_voice", 1.0) == Fail(UnsupportedVoice("invalid_voice"))
    ensures Validate(true, "af_heart", 0.3).Fail? && Validate(true, "af_heart", 2.5).Fail?
    ensures forall s: real :: s in {0.5, 1.0, 1.5, 2.0} ==> Validate(true, "af_heart", s) == Pass
  {
    assert VOICES[0].id == "af_heart" && VOICES[11].id == "am_adam";
    LookupFinds(VOICES, "af_heart");
    LookupFinds(VOICES, "am_adam");
    VoicesIsUnion("invalid");
    VoicesIsUnion("invalid_voice");
    LookupFinds(ITALIAN, "invalid");
    LookupFinds(ITALIAN, "invalid_voice");
    VoiceNameShape("af_heart");
  }

  /** The model cache: which model is loaded, the language its pipeline speaks, and how
      many loads happened so far (each load is a new model, numbered by the count). */
  class MLXAudioTTS {
    const voice: string
    const speed: real
    const modelId: string
    const cacheModel: bool
    var model: Option<nat>
    var pipeline: Option<string>
    var currentLang: Option<string>
    var loads: nat

    ghost predicate Valid()
      reads this
    {
      && (pipeline.Some? <==> model.Some?)
      && currentLang == pipeline
      && (model.Some? ==> model.value <= loads)
    }

    constructor (voice: string, speed: real, modelId: string, cacheModel: bool)
      ensures Valid()
      ensures this.voice == voice && this.speed == speed && this.modelId == modelId && this.cacheModel == cacheModel
      ensures model.None? && pipeline.None? && currentLang.None? && loads == 0
    {
      this.voice := voice;
      this.speed := speed;
      this.modelId := modelId;
      this.cacheModel := cacheModel;
      model := None;
      pipeline := None;
      currentLang := None;
      loads := 0;
    }

    /** `MLXAudioTTS(...)`, which raises instead of answering a failure. */
    static method Create(hasMlxAudio: bool, voice: string, speed: real, modelId: string, cacheModel: bool)
      returns (r: Result<MLXAudioTTS, InitError>)
      ensures r.Failure? <==> Validate(hasMlxAudio, voice, speed).Fail?
      ensures r.Failure? ==> r.error == Validate(hasMlxAudio, voice, speed).error
      ensures r.Success? ==> fresh(r.value) && r.value.Valid() && r.value.voice == voice && r.value.speed == speed
      ensures r.Success? ==> r.value.model.None? && r.value.pipeline.None? && r.value.currentLang.None?
    {
      var v := Validate(hasMlxAudio, voice, speed);
      if v.Fail? {
        return Failure(v.error);
      }
      var t := new MLXAudioTTS(voice, speed, modelId, cacheModel);
      r := Success(t);
    }

    /** `_load_model`: the language defaults to the voice's; the model and pipeline are
        (re)loaded only when there is no pipeline or it speaks another language. */
    method LoadModel(langCode: Option<string>) returns (p: string)
      requires Valid()
      modifies this`model, this`pipeline, this`currentLang, this`loads
      ensures Valid()
      ensures p == (if langCode.Some? then langCode.value else LanguageFromVoice(voice))
      ensures pipeline == Some(p) && currentLang == Some(p) && model.Some?
      ensures old(pipeline).Some? && old(currentLang) == Some(p) ==> model == old(model) && loads == old(loads)
      ensures old(pipeline).None? || old(currentLang) != Some(p) ==>
        loads == old(loads) + 1 && model == Some(loads) && model != old(model)
    {
      p := if langCode.Some? then langCode.value else LanguageFromVoice(voice);
      if pipeline.None? || currentLang != Some(p) {
        loads := loads + 1;
        model := Some(loads);
        pipeline := Some(p);
        currentLang := Some(p);
      }
    }

    /** `synthesize`: the voice defaults to the instance's; the pipeline for its
        language is loaded, and the chunks it yields (`chunks`) are concatenated. No
        chunk at all is an error. The rate is Kokoro's 24 kHz. */
    method Synthesize(text: string, voiceOverride: Option<string>, chunks: seq<Chunk>)
      returns (r: Result<(seq<Sample>, nat), string>)
      requires Valid()
      modifies this`model, this`pipeline, this`currentLang, this`loads
      ensures Valid()
      ensures var v := if voiceOverride.Some? && voiceOverride.value != "" then voiceOverride.value else voice;
        pipeline == Some(LanguageFromVoice(v)) &&
        (old(pipeline) == Some(LanguageFromVoice(v)) ==> model == old(model) && loads == old(loads))
      ensures chunks == [] ==> r == Failure("Failed to synthesize: " + text)
      ensures chunks != [] ==> r == Success((Concat(chunks), 24000))
    {
      var v := if voiceOverride.Some? && voiceOverride.value != "" then voiceOverride.value else voice;
      var _ := LoadModel(Some(LanguageFromVoice(v)));
      if chunks == [] {
        return Failure("Failed to synthesize: " + text);
      }
      r := Success((Concat(chunks), 24000));
    }

    /** `unload_model`. */
    method UnloadModel()
      modifies this`model, this`pipeline, this`currentLang
      ensures Valid()
      ensures model.None? && pipeline.None? && currentLang.None?
    {
      model := None;
      pipeline := None;
      currentLang := None;
    }
  }
}

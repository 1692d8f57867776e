/** The knob store (src/lib/stores/knobs.svelte.ts): two knob lists kept in
    memory and mirrored, after every change, to the browser storage key
    `cognitive-knobs`; and the sampling parameters derived from the LLM knobs. */
module Knobs {
  import opened Wrappers
  import opened Seqs
  import opened Types

  /** The cognitive knobs a fresh session starts with. */
  const DefaultCognitiveKnobs: seq<CognitiveKnob> := [
    CognitiveKnob("abstraction", "Abstraction",
      "Move from concrete examples to theoretical frameworks",
      50.0, Some("Concrete"), Some("Abstract")),
    CognitiveKnob("ridiculousness", "Ridiculousness",
      "Adjust the level of absurdity and implausibility in the content",
      50.0, None, None),
    CognitiveKnob("accessibility", "Accessibility",
      "Adjust language complexity for different audiences",
      50.0, Some("Expert"), Some("General"))
  ]

  /** The LLM knobs a fresh session starts with; none of them drives a penalty. */
  const DefaultLLMKnobs: seq<LLMKnob> := [
    LLMKnob("temp", "Temperature",
      "Controls randomness: 0 = focused & deterministic, 2 = creative & diverse",
      0.7, 0.0, 2.0, 0.1, Temperature),
    LLMKnob("tokens", "Max Tokens",
      "Maximum response length (higher = longer responses)",
      1000.0, 50.0, 4000.0, 50.0, MaxTokens),
    LLMKnob("topp", "Top P",
      "Nucleus sampling: lower = focused, higher = diverse token choices",
      0.9, 0.0, 1.0, 0.05, TopP)
  ]

  const DefaultSystemPrompt: string :=
    "You are a helpful assistant that transforms text according to specified cognitive parameters."

  /** What the storage key `cognitive-knobs` holds, once JSON is parsed:
      nothing (or the empty string), text that does not parse, or an object
      whose two fields are each present (`Some`) or missing or falsy (`None`). */
  datatype KnobStorage =
    | Absent
    | Corrupt
    | Parsed(cognitiveKnobs: Option<seq<CognitiveKnob>>, llmKnobs: Option<seq<LLMKnob>>)

  /** What `saveKnobs` writes: both lists. Loading it back gives both lists,
      the empty list included (an empty array is truthy, so it does not fall
      back to the defaults). */
  function Snapshot(cognitiveKnobs: seq<CognitiveKnob>, llmKnobs: seq<LLMKnob>): (r: KnobStorage)
    ensures LoadCognitiveKnobs(true, r) == cognitiveKnobs
    ensures LoadLLMKnobs(true, r) == llmKnobs
  {
    Parsed(Some(cognitiveKnobs), Some(llmKnobs))
  }

  /** `loadCognitiveKnobs`: the stored list when running in a browser and the
      storage holds one; the defaults in every other case. */
  function LoadCognitiveKnobs(browser: bool, storage: KnobStorage): (r: seq<CognitiveKnob>)
    ensures browser && storage.Parsed? && storage.cognitiveKnobs.Some? ==>
              r == storage.cognitiveKnobs.value
    ensures r == DefaultCognitiveKnobs || (browser && storage.Parsed? && storage.cognitiveKnobs == Some(r))
  {
    if !browser then DefaultCognitiveKnobs
    else match storage
      case Parsed(Some(knobs), _) => knobs
      case _ => DefaultCognitiveKnobs
  }

  /** `loadLLMKnobs`: the same fallback, for the LLM list. */
  function LoadLLMKnobs(browser: bool, storage: KnobStorage): (r: seq<LLMKnob>)
    ensures browser && storage.Parsed? && storage.llmKnobs.Some? ==>
              r == storage.llmKnobs.value
    ensures r == DefaultLLMKnobs || (browser && storage.Parsed? && storage.llmKnobs == Some(r))
  {
    if !browser then DefaultLLMKnobs
    else match storage
      case Parsed(_, Some(knobs)) => knobs
      case _ => DefaultLLMKnobs
  }

  /** The list `removeCognitiveKnob` leaves: every knob whose id differs. */
  function WithoutKnob(knobs: seq<CognitiveKnob>, id: string): (r: seq<CognitiveKnob>)
    ensures |r| <= |knobs|
    ensures forall i | 0 <= i < |r| :: r[i].id != id && r[i] in knobs
    ensures forall i | 0 <= i < |knobs| && knobs[i].id != id :: knobs[i] in r
  {
    Filter(knobs, (k: CognitiveKnob) => k.id != id)
  }

  /** Removing keeps the survivors in their relative order. */
  lemma WithoutKnobAppend(a: seq<CognitiveKnob>, b: seq<CognitiveKnob>, id: string)
    ensures WithoutKnob(a + b, id) == WithoutKnob(a, id) + WithoutKnob(b, id)
  {
    FilterAppend(a, b, (k: CognitiveKnob) => k.id != id);
  }

  /** Removing the same id twice is removing it once. */
  lemma WithoutKnobIdempotent(knobs: seq<CognitiveKnob>, id: string)
    ensures WithoutKnob(WithoutKnob(knobs, id), id) == WithoutKnob(knobs, id)
  {
    FilterIdempotent(knobs, (k: CognitiveKnob) => k.id != id);
  }

  /** Removing an id no knob carries changes nothing. */
  lemma WithoutAbsentKnob(knobs: seq<CognitiveKnob>, id: string)
    requires forall i | 0 <= i < |knobs| :: knobs[i].id != id
    ensures WithoutKnob(knobs, id) == knobs
  {
    FilterKeepsAll(knobs, (k: CognitiveKnob) => k.id != id);
  }

  /** Some cognitive knob has the id (`find` would return it). */
  predicate HasCognitiveKnob(knobs: seq<CognitiveKnob>, id: string)
  {
    exists i | 0 <= i < |knobs| :: knobs[i].id == id
  }

  /** Some LLM knob has the id. */
  predicate HasLLMKnob(knobs: seq<LLMKnob>, id: string)
  {
    exists i | 0 <= i < |knobs| :: knobs[i].id == id
  }

  /** The list `updateCognitiveKnob` leaves: the first knob with the id gets
      the new value and keeps every other field; nothing else moves. */
  function WithCognitiveValue(knobs: seq<CognitiveKnob>, id: string, value: real): (r: seq<CognitiveKnob>)
    ensures |r| == |knobs|
    ensures !HasCognitiveKnob(knobs, id) ==> r == knobs
    ensures forall i | 0 <= i < |knobs| && knobs[i].id == id && (forall j | 0 <= j < i :: knobs[j].id != id) ::
              r == knobs[i := knobs[i].(value := value)]
  {
    UpdateFirst(knobs, (k: CognitiveKnob) => k.id == id, (k: CognitiveKnob) => k.(value := value))
  }

  /** The list `updateLLMKnob` leaves, by the same rule. */
  function WithLLMValue(knobs: seq<LLMKnob>, id: string, value: real): (r: seq<LLMKnob>)
    ensures |r| == |knobs|
    ensures !HasLLMKnob(knobs, id) ==> r == knobs
    ensures forall i | 0 <= i < |knobs| && knobs[i].id == id && (forall j | 0 <= j < i :: knobs[j].id != id) ::
              r == knobs[i := knobs[i].(value := value)]
  {
    UpdateFirst(knobs, (k: LLMKnob) => k.id == id, (k: LLMKnob) => k.(value := value))
  }

  /** The derived `parameters` record sent with every request. */
  datatype SamplingParameters = SamplingParameters(
    temperature: real,
    maxTokens: real,
    topP: real,
    frequencyPenalty: real,
    presencePenalty: real)

  /** The value of the first LLM knob that drives `p`, or `fallback` when no
      knob does (`find(...)?.value ?? fallback`). */
  function ParameterValue(knobs: seq<LLMKnob>, p: ParameterName, fallback: real): (v: real)
    ensures (forall i | 0 <= i < |knobs| :: knobs[i].parameter != p) ==> v == fallback
    ensures forall i | 0 <= i < |knobs| && knobs[i].parameter == p && (forall j | 0 <= j < i :: knobs[j].parameter != p) ::
              v == knobs[i].value
  {
    match FindFirst(knobs, (k: LLMKnob) => k.parameter == p)
    case Some(i) => knobs[i].value
    case None => fallback
  }

  /** The `parameters` derivation, with its documented defaults. */
  function Parameters(llmKnobs: seq<LLMKnob>): SamplingParameters
  {
    SamplingParameters(
      ParameterValue(llmKnobs, Temperature, 0.7),
      ParameterValue(llmKnobs, MaxTokens, 1000.0),
      ParameterValue(llmKnobs, TopP, 0.9),
      ParameterValue(llmKnobs, FrequencyPenalty, 0.0),
      ParameterValue(llmKnobs, PresencePenalty, 0.0))
  }

  /** With the default LLM knobs the three knobs supply their values and,
      since no default knob names them, both penalties are 0. */
  lemma DefaultParameters()
    ensures Parameters(DefaultLLMKnobs) == SamplingParameters(0.7, 1000.0, 0.9, 0.0, 0.0)
  {
    var k := DefaultLLMKnobs;
    ThreeKnobParameters(k[0], k[1], k[2]);
    assert k == [k[0], k[1], k[2]];
  }

  /** Three knobs driving temperature, max tokens and top-p, in that order,
      supply those three values and leave both penalties at 0. */
  lemma ThreeKnobParameters(a: LLMKnob, b: LLMKnob, c: LLMKnob)
    requires a.parameter == Temperature && b.parameter == MaxTokens && c.parameter == TopP
    ensures Parameters([a, b, c]) == SamplingParameters(a.value, b.value, c.value, 0.0, 0.0)
  {
    var k := [a, b, c];
    assert k[0] == a && k[1] == b && k[2] == c;
    assert ParameterValue(k, Temperature, 0.7) == a.value;
    assert ParameterValue(k, MaxTokens, 1000.0) == b.value;
    assert ParameterValue(k, TopP, 0.9) == c.value;
    assert ParameterValue(k, FrequencyPenalty, 0.0) == 0.0;
  }

  /** With no LLM knobs at all every field takes its default. */
  lemma EmptyParameters()
    ensures Parameters([]) == SamplingParameters(0.7, 1000.0, 0.9, 0.0, 0.0)
  {
  }

  /** Updating the first knob that drives `p` moves `p`'s parameter to the
      new value. */
  lemma UpdateReachesParameter(knobs: seq<LLMKnob>, i: nat, value: real, fallback: real)
    requires i < |knobs|
    requires forall j | 0 <= j < i :: knobs[j].id != knobs[i].id && knobs[j].parameter != knobs[i].parameter
    ensures ParameterValue(WithLLMValue(knobs, knobs[i].id, value), knobs[i].parameter, fallback) == value
  {
    var r := WithLLMValue(knobs, knobs[i].id, value);
    assert r == knobs[i := knobs[i].(value := value)];
    assert r[i].parameter == knobs[i].parameter;
    assert forall j | 0 <= j < i :: r[j] == knobs[j];
  }

  /** The store's module-level state. `stored` is what the storage key holds;
      outside a browser the store never touches it. */
  class KnobStore {
    const browser: bool
    var cognitiveKnobs: seq<CognitiveKnob>
    var llmKnobs: seq<LLMKnob>
    var systemPrompt: string
    var sourceText: string
    var response: string
    var isGenerating: bool
    var error: string
    var stored: KnobStorage

    /** Both lists are loaded from storage, with the defaults as fallback. */
    constructor (browser: bool, stored: KnobStorage)
      ensures this.browser == browser && this.stored == stored
      ensures cognitiveKnobs == LoadCognitiveKnobs(browser, stored)
      ensures llmKnobs == LoadLLMKnobs(browser, stored)
      ensures systemPrompt == DefaultSystemPrompt
      ensures sourceText == "" && response == "" && !isGenerating && error == ""
    {
      this.browser := browser;
      this.stored := stored;
      cognitiveKnobs := LoadCognitiveKnobs(browser, stored);
      llmKnobs := LoadLLMKnobs(browser, stored);
      systemPrompt := DefaultSystemPrompt;
      sourceText := "";
      response := "";
      isGenerating := false;
      error := "";
    }

    /** Storage holds exactly the current lists (vacuously, outside a browser). */
    ghost predicate InSync()
      reads this
    {
      browser ==> stored == Snapshot(cognitiveKnobs, llmKnobs)
    }

    /** `saveKnobs`: in a browser, write both lists. A failed write
        (`writeOk` false) leaves the storage as it was and raises to the
        caller, since nothing here catches it. */
    method SaveKnobs(writeOk: bool) returns (threw: bool)
      modifies this`stored
      ensures threw == (browser && !writeOk)
      ensures stored == if browser && writeOk then Snapshot(cognitiveKnobs, llmKnobs) else old(stored)
      ensures !threw ==> InSync()
    {
      threw := false;
      if browser {
        if writeOk {
          stored := Snapshot(cognitiveKnobs, llmKnobs);
        } else {
          threw := true;
        }
      }
    }

    /** `addCognitiveKnob`: append, then save. */
    method AddCognitiveKnob(knob: CognitiveKnob, writeOk: bool) returns (threw: bool)
      modifies this`cognitiveKnobs, this`stored
      ensures cognitiveKnobs == old(cognitiveKnobs) + [knob]
      ensures llmKnobs == old(llmKnobs)
      ensures threw == (browser && !writeOk)
      ensures stored == if browser && writeOk then Snapshot(cognitiveKnobs, llmKnobs) else old(stored)
      ensures !threw ==> InSync()
    {
      cognitiveKnobs := cognitiveKnobs + [knob];
      threw := SaveKnobs(writeOk);
    }

    /** `removeCognitiveKnob`: drop every knob with the id, then save. */
    method RemoveCognitiveKnob(id: string, writeOk: bool) returns (threw: bool)
      modifies this`cognitiveKnobs, this`stored
      ensures cognitiveKnobs == WithoutKnob(old(cognitiveKnobs), id)
      ensures !HasCognitiveKnob(cognitiveKnobs, id)
      ensures !HasCognitiveKnob(old(cognitiveKnobs), id) ==> cognitiveKnobs == old(cognitiveKnobs)
      ensures llmKnobs == old(llmKnobs)
      ensures threw == (browser && !writeOk)
      ensures stored == if browser && writeOk then Snapshot(cognitiveKnobs, llmKnobs) else old(stored)
      ensures !threw ==> InSync()
    {
      if !HasCognitiveKnob(cognitiveKnobs, id) {
        WithoutAbsentKnob(cognitiveKnobs, id);
      }
      cognitiveKnobs := Filter(cognitiveKnobs, (k: CognitiveKnob) => k.id != id);
      threw := SaveKnobs(writeOk);
    }

    /** `updateCognitiveKnob`: set the value of the first knob with the id and
        save; when no knob has the id, nothing happens, not even a save. */
    method UpdateCognitiveKnob(id: string, value: real, writeOk: bool) returns (threw: bool)
      modifies this`cognitiveKnobs, this`stored
      ensures cognitiveKnobs == WithCognitiveValue(old(cognitiveKnobs), id, value)
      ensures llmKnobs == old(llmKnobs)
      ensures threw == (HasCognitiveKnob(old(cognitiveKnobs), id) && browser && !writeOk)
      ensures HasCognitiveKnob(old(cognitiveKnobs), id) ==>
                stored == if browser && writeOk then Snapshot(cognitiveKnobs, llmKnobs) else old(stored)
      ensures !HasCognitiveKnob(old(cognitiveKnobs), id) ==>
                cognitiveKnobs == old(cognitiveKnobs) && stored == old(stored)
      ensures !threw && old(InSync()) ==> InSync()
    {
      var found := FindFirst(cognitiveKnobs, (k: CognitiveKnob) => k.id == id);
      match found
      case Some(i) =>
        cognitiveKnobs := cognitiveKnobs[i := cognitiveKnobs[i].(value := value)];
        threw := SaveKnobs(writeOk);
      case None =>
        threw := false;
    }

    /** `updateLLMKnob`: the same, on the LLM list. */
    method UpdateLLMKnob(id: string, value: real, writeOk: bool) returns (threw: bool)
      modifies this`llmKnobs, this`stored
      ensures llmKnobs == WithLLMValue(old(llmKnobs), id, value)
      ensures cognitiveKnobs == old(cognitiveKnobs)
      ensures threw == (HasLLMKnob(old(llmKnobs), id) && browser && !writeOk)
      ensures HasLLMKnob(old(llmKnobs), id) ==>
                stored == if browser && writeOk then Snapshot(cognitiveKnobs, llmKnobs) else old(stored)
      ensures !HasLLMKnob(old(llmKnobs), id) ==>
                llmKnobs == old(llmKnobs) && stored == old(stored)
      ensures !threw && old(InSync()) ==> InSync()
    {
      var found := FindFirst(llmKnobs, (k: LLMKnob) => k.id == id);
      match found
      case Some(i) =>
        llmKnobs := llmKnobs[i := llmKnobs[i].(value := value)];
        threw := SaveKnobs(writeOk);
      case None =>
        threw := false;
    }

    /** `resetCognitiveKnobs`: a fresh copy of the defaults, then save. */
    method ResetCognitiveKnobs(writeOk: bool) returns (threw: bool)
      modifies this`cognitiveKnobs, this`stored
      ensures cognitiveKnobs == DefaultCognitiveKnobs
      ensures llmKnobs == old(llmKnobs)
      ensures threw == (browser && !writeOk)
      ensures stored == if browser && writeOk then Snapshot(cognitiveKnobs, llmKnobs) else old(stored)
      ensures !threw ==> InSync()
    {
      cognitiveKnobs := DefaultCognitiveKnobs;
      threw := SaveKnobs(writeOk);
    }

    /** `resetLLMKnobs`: a fresh copy of the defaults, then save. */
    method ResetLLMKnobs(writeOk: bool) returns (threw: bool)
      modifies this`llmKnobs, this`stored
      ensures llmKnobs == DefaultLLMKnobs
      ensures cognitiveKnobs == old(cognitiveKnobs)
      ensures threw == (browser && !writeOk)
      ensures stored == if browser && writeOk then Snapshot(cognitiveKnobs, llmKnobs) else old(stored)
      ensures !threw ==> InSync()
    {
      llmKnobs := DefaultLLMKnobs;
      threw := SaveKnobs(writeOk);
    }
  }
}

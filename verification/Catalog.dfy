// Regenerating one provider's models from the registry and the shipped catalog
// (scripts/update_models.py, scripts/model_variants.py).
//
// Models are values: the scripts copy before they change. Regular expressions on names are
// parameters (`Patterns`), request patches are symbolic constants.
module Catalog {
  import opened Options
  import opened ModelNames

  datatype Field =
    | RealName | MaxInput | MaxOutput | RequireMax | InputPrice | OutputPrice | CacheRead | CacheWrite
    | Vision | ToolUse | Patches | Endpoint | Type | MaxTokensPerChunk | DefaultChunkSize | MaxBatchSize
    | SystemPromptPrefix

  datatype Value = Number(number: real) | Flag(flag: bool) | Text(text: string) | Texts(texts: seq<string>)

  datatype Model = Model(name: string, fields: map<Field, Value>)

  // What the registry says of one model: its fields, and whether it lists /v1/responses and reasoning.
  datatype Entry = Entry(model: Model, responses: bool, reasoning: bool)

  datatype Patterns = Patterns(
    adaptive: string -> bool, requiresMaxTokens: string -> bool, geminiThinker: string -> bool)

  // The registry's entries, the Bedrock card corrections, and the name patterns in force.
  datatype Sources = Sources(registry: map<string, Entry>, cards: map<string, map<Field, Value>>, patterns: Patterns)

  predicate HarnxOnly(f: Field) {
    match f
    case Patches | Endpoint | RequireMax | RealName | SystemPromptPrefix => true
    case MaxTokensPerChunk | DefaultChunkSize | MaxBatchSize => true
    case _ => false
  }

  predicate Capability(f: Field) {
    f.Vision? || f.ToolUse?
  }

  predicate Inherited(f: Field) {
    match f
    case MaxInput | InputPrice | OutputPrice | CacheRead | CacheWrite | Vision | ToolUse | Endpoint => true
    case _ => false
  }

  const GEMINI_THOUGHTS := "gemini thoughts"
  const GEMINI_SAMPLING_THOUGHTS := "gemini sampling thoughts"
  const ARGON_REQUEST := "argon request"
  const CLAUDE_THINKING := "claude thinking"
  const BEDROCK_THINKING := "bedrock thinking"
  const OPENAI_SUMMARY := "openai summary"
  const OPENAI_NO_SAMPLING := "openai no sampling"

  const OPENAI_FIXED: seq<string> := [
    "gpt-5.6-sol", "gpt-5.6-terra", "gpt-5.6-luna", "gpt-6-astra", "gpt-6-sol", "gpt-6.1-sol", "gpt-6.1-terra",
    "gpt-6-luna"
  ]

  function Get(model: Model, f: Field): Option<Value> {
    if f in model.fields then Some(model.fields[f]) else None
  }

  function With(model: Model, f: Field, v: Value): Model {
    model.(fields := model.fields[f := v])
  }

  function WithPatch(model: Model, patch: string): Model {
    With(model, Patches, Texts([patch]))
  }

  predicate Truthy(v: Value) {
    match v
    case Number(n) => n != 0.0
    case Flag(b) => b
    case Text(s) => s != ""
    case Texts(s) => s != []
  }

  // ----- What the registry's models take from the shipped catalog, and the defaults they get -----

  function MergeOld(model: Model, shipped: Option<Model>): Model {
    if shipped.None? then model
    else
      var was := shipped.value.fields;
      model.(fields :=
        (map f | f in was && (HarnxOnly(f) || (Capability(f) && Truthy(was[f]))) ::
           if HarnxOnly(f) then was[f] else Flag(true))
        + model.fields)
  }

  function WithEndpoint(model: Model, provider: string, entry: Entry): Model {
    if provider != "openai" || Type in model.fields || Endpoint in model.fields || !entry.responses then model
    else With(model, Endpoint, Text("responses"))
  }

  function WithSummary(model: Model, provider: string, entry: Entry): Model {
    if provider != "openai" || Get(model, Endpoint) != Some(Text("responses")) || !entry.reasoning
       || Patches in model.fields
    then model
    else WithPatch(model, OPENAI_SUMMARY)
  }

  function Corrected(model: Model, provider: string, cards: map<string, map<Field, Value>>): Model {
    if provider == "bedrock" && model.name in cards then model.(fields := model.fields + cards[model.name]) else model
  }

  function Refreshed(provider: string, entry: Entry, shipped: Option<Model>, sources: Sources): Model {
    var merged := MergeOld(entry.model, shipped);
    Corrected(WithSummary(WithEndpoint(merged, provider, entry), provider, entry), provider, sources.cards)
  }

  function Lookup(models: map<string, Model>, name: string): Option<Model> {
    if name in models then Some(models[name]) else None
  }

  // Bedrock lists `vendor.model` only without its `us.` twin.
  predicate Kept(provider: string, name: string, registry: map<string, Entry>) {
    name in registry && !(provider == "bedrock" && "us." + name in registry)
  }

  function Fetched(provider: string, sources: Sources, shipped: map<string, Model>): map<string, Model> {
    map name | name in sources.registry && Kept(provider, name, sources.registry) ::
      Refreshed(provider, sources.registry[name], Lookup(shipped, name), sources)
  }

  // ----- Provider rules for base models -----

  predicate DropsThinking(name: string) {
    "claude-fable-5-1" <= name || "claude-haiku-5-5" <= name
  }

  predicate AdaptiveOnly(name: string, patterns: Patterns) {
    patterns.adaptive(name) || DropsThinking(name)
  }

  predicate IsAnthropic(provider: string) {
    provider == "claude" || provider == "vertexai"
  }

  function AdaptivePatch(name: string, effort: string, provider: string): string {
    "adaptive " + effort + if IsAnthropic(provider) && DropsThinking(name) then " drop_block" else ""
  }

  function BaseThinking(model: Model, provider: string, patterns: Patterns): Model {
    if !IsAnthropic(provider) || IsGenerated(provider, model.name) then model
    else
      var effort := if "claude-opus-5-5" <= model.name || "claude-haiku-5-5" <= model.name then "medium" else "high";
      var adapted :=
        if "claude-" <= model.name && AdaptiveOnly(model.name, patterns)
        then With(WithPatch(model, AdaptivePatch(model.name, effort, provider)), RequireMax, Flag(true))
        else model;
      if patterns.requiresMaxTokens(model.name) then With(adapted, RequireMax, Flag(true)) else adapted
  }

  function OpenAiPatches(model: Model, provider: string): Model {
    if provider == "openai" && model.name in OPENAI_FIXED
    then WithPatch(model, OPENAI_NO_SAMPLING + OPENAI_SUMMARY)
    else model
  }

  predicate GeminiThinks(model: Model, patterns: Patterns) {
    && (Type !in model.fields || model.fields[Type] == Text("chat"))
    && patterns.geminiThinker(
         if RealName in model.fields && model.fields[RealName].Text? then model.fields[RealName].text else model.name)
  }

  function WithoutOwned(patches: seq<string>): seq<string> {
    if patches == [] then []
    else
      (if patches[0] in [GEMINI_THOUGHTS, GEMINI_SAMPLING_THOUGHTS, ARGON_REQUEST] then [] else [patches[0]])
      + WithoutOwned(patches[1..])
  }

  function PatchesOf(model: Model): seq<string> {
    if Patches in model.fields && model.fields[Patches].Texts? then model.fields[Patches].texts else []
  }

  function WithLimits(model: Model, maxInput: real, maxOutput: real): Model {
    With(With(With(model, MaxInput, Number(maxInput)), MaxOutput, Number(maxOutput)), RequireMax, Flag(true))
  }

  function ArgonLimits(model: Model): Model {
    With(WithLimits(model, 983040.0, 65536.0), Patches, Texts(WithoutOwned(PatchesOf(model)) + [ARGON_REQUEST]))
  }

  function GeminiThoughts(model: Model, provider: string, patterns: Patterns): Model {
    if provider != "gemini" && provider != "vertexai" then model
    else if provider == "gemini" && model.name == "gemini-4-argon" then ArgonLimits(model)
    else if provider == "gemini" && model.name == "gemini-3.8-flash" then WithPatch(model, GEMINI_SAMPLING_THOUGHTS)
    else if Patches !in model.fields && GeminiThinks(model, patterns) then WithPatch(model, GEMINI_THOUGHTS)
    else model
  }

  function OtherPatches(model: Model, provider: string): Model {
    if provider == "bedrock" && model.name == "us.zai.glm-5.3" then WithPatch(model, "bedrock glm effort")
    else if provider == "zai" && model.name == "glm-5.3" then WithPatch(model, "zai thinking")
    else if provider == "minimax" && model.name == "MiniMax-M3.1-Flash"
    then WithPatch(WithLimits(model, 868928.0, 131072.0), "minimax thinking")
    else model
  }

  // apply_base_model_rules
  function Ruled(model: Model, provider: string, patterns: Patterns): Model {
    OtherPatches(GeminiThoughts(ThinkingRuled(model, provider, patterns), provider, patterns), provider)
  }

  function ThinkingRuled(model: Model, provider: string, patterns: Patterns): Model {
    OpenAiPatches(BaseThinking(model, provider, patterns), provider)
  }

  // ----- Generated variants -----

  // One variant to generate: its alias suffix, its patch, and the output limit it gets.
  datatype Plan = Plan(suffix: string, patch: string, maxOutput: Option<Value>, requireMax: bool)

  function Variant(base: Model, plan: Plan): Model {
    var inherited := map f | f in base.fields && Inherited(f) :: base.fields[f];
    var realName := if RealName in base.fields then base.fields[RealName] else Text(base.name);
    var limit := if plan.maxOutput.Some? then map[MaxOutput := plan.maxOutput.value] else map[];
    var required := if plan.requireMax then map[RequireMax := Flag(true)] else map[];
    Model(Alias(base.name, plan.suffix),
          inherited + limit + required + map[RealName := realName, Patches := Texts([plan.patch])])
  }

  function ThinkingPlans(base: Model, provider: string, patterns: Patterns): seq<Plan> {
    var name := base.name;
    var fixed := Some(Number(24000.0));
    if IsGenerated(provider, name) then []
    else if IsAnthropic(provider) && "claude-" <= name then
      if "claude-haiku-5-5" <= name then [Plan("thinking", AdaptivePatch(name, "medium", provider), fixed, true)]
      else if AdaptiveOnly(name, patterns) then
        [Plan("xhigh", AdaptivePatch(name, "xhigh", provider), Get(base, MaxOutput), true),
         Plan("max", AdaptivePatch(name, "max", provider), Get(base, MaxOutput), true)]
      else [Plan("thinking", CLAUDE_THINKING, fixed, true)]
    else if provider == "bedrock" && "us.anthropic.claude-" <= name && !patterns.adaptive(name)
    then [Plan("thinking", BEDROCK_THINKING + name, fixed, true)]
    else []
  }

  function EffortPlans(base: Model, provider: string): seq<Plan> {
    if provider != "openai" || base.name !in OPENAI_EFFORTS then []
    else
      var efforts := OPENAI_EFFORTS[base.name];
      seq(|efforts|, i requires 0 <= i < |efforts| =>
        Plan(efforts[i], OPENAI_NO_SAMPLING + efforts[i], Get(base, MaxOutput), false))
  }

  // model_variants
  function Plans(base: Model, provider: string, patterns: Patterns): seq<Plan> {
    ThinkingPlans(base, provider, patterns) + EffortPlans(base, provider)
  }

  // ----- The rebuilt catalog -----

  function Merged(provider: string, shipped: map<string, Model>, fetched: map<string, Model>): map<string, Model> {
    (map name | name in fetched && !IsGenerated(provider, name) :: fetched[name])
    + (map name | name in shipped && name !in fetched && !IsGenerated(provider, name) :: shipped[name])
  }

  function Bases(provider: string, merged: map<string, Model>, patterns: Patterns): map<string, Model> {
    map name | name in merged :: Ruled(merged[name], provider, patterns)
  }

  // `rebuilt` holds the bases named in `done`, their variants, and nothing else.
  ghost predicate Holds(
    rebuilt: map<string, Model>, done: set<string>, bases: map<string, Model>, provider: string, patterns: Patterns)
    requires done <= bases.Keys
  {
    && HoldsBases(rebuilt, done, bases)
    && HoldsVariants(rebuilt, done, bases, provider, patterns)
    && HoldsNoMore(rebuilt, done, bases, provider, patterns)
  }

  ghost predicate HoldsBases(rebuilt: map<string, Model>, done: set<string>, bases: map<string, Model>)
    requires done <= bases.Keys
  {
    forall name :: name in done ==> name in rebuilt && rebuilt[name] == bases[name]
  }

  ghost predicate HoldsVariants(
    rebuilt: map<string, Model>, done: set<string>, bases: map<string, Model>, provider: string, patterns: Patterns)
    requires done <= bases.Keys
  {
    forall name, plan :: name in done && plan in Plans(bases[name], provider, patterns) ==>
      HoldsVariant(rebuilt, bases[name], plan)
  }

  ghost predicate HoldsNoMore(
    rebuilt: map<string, Model>, done: set<string>, bases: map<string, Model>, provider: string, patterns: Patterns)
    requires done <= bases.Keys
  {
    forall key :: key in rebuilt ==> key in done || IsVariantKey(key, done, bases, provider, patterns)
  }

  ghost predicate HoldsVariant(rebuilt: map<string, Model>, base: Model, plan: Plan) {
    Alias(base.name, plan.suffix) in rebuilt && rebuilt[Alias(base.name, plan.suffix)] == Variant(base, plan)
  }

  ghost predicate IsVariantKey(
    key: string, done: set<string>, bases: map<string, Model>, provider: string, patterns: Patterns)
    requires done <= bases.Keys
  {
    exists name, plan :: name in done && plan in Plans(bases[name], provider, patterns)
                         && key == Alias(bases[name].name, plan.suffix)
  }

  // What regenerate_provider_models makes of the old and the fetched models.
  ghost predicate IsRebuilt(
    rebuilt: map<string, Model>, provider: string, shipped: map<string, Model>, fetched: map<string, Model>,
    patterns: Patterns)
  {
    if fetched == map[] then rebuilt == shipped
    else
      var bases := Bases(provider, Merged(provider, shipped, fetched), patterns);
      Holds(rebuilt, bases.Keys, bases, provider, patterns)
  }

  function Names(models: seq<Model>): (names: seq<string>)
    ensures |names| == |models| && forall i :: 0 <= i < |models| ==> names[i] == models[i].name
  {
    seq(|models|, i requires 0 <= i < |models| => models[i].name)
  }

  ghost predicate Lists(list: seq<Model>, models: map<string, Model>) {
    && Ascending(Names(list))
    && (forall name :: name in Names(list) <==> name in models)
    && (forall i :: 0 <= i < |list| ==> list[i].name in models && models[list[i].name] == list[i])
  }

  // ----- Ownership -----

  lemma ThinkingSuffixes(base: Model, provider: string, patterns: Patterns, plan: Plan)
    requires plan in ThinkingPlans(base, provider, patterns)
    ensures provider == "bedrock" || IsAnthropic(provider)
    ensures if provider == "bedrock" then plan.suffix == "thinking" && "us.anthropic.claude-" <= base.name
            else plan.suffix in CLAUDE_SUFFIXES && "claude-" <= base.name
    ensures ':' !in plan.suffix
  {}

  lemma EffortSuffixes(base: Model, provider: string, plan: Plan)
    requires plan in EffortPlans(base, provider)
    ensures provider == "openai" && base.name in OPENAI_EFFORTS && plan.suffix in OPENAI_EFFORTS[base.name]
    ensures ':' !in plan.suffix
  {}

  // Every name the generator produces is one it owns, and says which base and which plan it is for.
  lemma PlansAreOwned(base: Model, provider: string, patterns: Patterns, plan: Plan)
    requires plan in Plans(base, provider, patterns)
    ensures IsGenerated(provider, Alias(base.name, plan.suffix)) && ':' !in plan.suffix
  {
    if plan in ThinkingPlans(base, provider, patterns) {
      ThinkingSuffixes(base, provider, patterns, plan);
      AliasParts(base.name, plan.suffix);
    } else {
      EffortSuffixes(base, provider, plan);
    }
  }

  lemma PlansAreDistinct(base: Model, provider: string, patterns: Patterns, p: Plan, q: Plan)
    requires p in Plans(base, provider, patterns) && q in Plans(base, provider, patterns)
    requires p.suffix == q.suffix
    ensures p == q
  {}

  // ----- One model is a fixed point -----

  lemma {:induction false} OwnedPatchesGoOnce(patches: seq<string>)
    ensures WithoutOwned(WithoutOwned(patches)) == WithoutOwned(patches)
    ensures WithoutOwned(WithoutOwned(patches) + [ARGON_REQUEST]) == WithoutOwned(patches)
  {
    if patches != [] {
      var rest := WithoutOwned(patches[1..]);
      OwnedPatchesGoOnce(patches[1..]);
      if patches[0] !in [GEMINI_THOUGHTS, GEMINI_SAMPLING_THOUGHTS, ARGON_REQUEST] {
        var kept := [patches[0]] + rest;
        assert kept[1..] == rest && (kept + [ARGON_REQUEST])[1..] == rest + [ARGON_REQUEST];
      } else {
        assert [] + rest == rest;
      }
    } else {
      assert WithoutOwned([ARGON_REQUEST]) == [];
    }
  }

  // Every field of `y` is as it is in `x` or as the rules leave it in `x`.
  ghost predicate Between(x: Model, y: Model, provider: string, patterns: Patterns) {
    && y.name == x.name
    && forall f :: Get(y, f) == Get(x, f) || Get(y, f) == Get(Ruled(x, provider, patterns), f)
  }

  // The rules absorb their own output, field by field.
  lemma RulesAbsorb(x: Model, y: Model, provider: string, patterns: Patterns)
    requires Between(x, y, provider, patterns)
    ensures Ruled(y, provider, patterns) == Ruled(x, provider, patterns)
  {
    forall f
      ensures Get(Ruled(y, provider, patterns), f) == Get(Ruled(x, provider, patterns), f)
    {
      FieldAbsorbed(x, y, provider, patterns, f);
    }
    FieldRuled(x, provider, patterns, Type);
    FieldRuled(y, provider, patterns, Type);
    SameFields(Ruled(y, provider, patterns), Ruled(x, provider, patterns));
  }

  lemma SameFields(a: Model, b: Model)
    requires a.name == b.name && forall f :: Get(a, f) == Get(b, f)
    ensures a == b
  {
    forall f
      ensures f in a.fields <==> f in b.fields
      ensures f in a.fields ==> a.fields[f] == b.fields[f]
    {
      assert Get(a, f) == Get(b, f);
    }
    assert a.fields == b.fields;
  }

  function Bare(name: string): Model {
    Model(name, map[])
  }

  function OrElse(a: Option<Value>, b: Option<Value>): Option<Value> {
    if a.Some? then a else b
  }

  // Fields no rule sets.
  predicate Unruled(f: Field) {
    f.RealName? || f.Type? || f.Endpoint? || f.Vision? || f.ToolUse?
  }

  // Apart from the patches, each rule sets a field by the model's name alone, or leaves it.
  lemma FieldThinking(x: Model, provider: string, patterns: Patterns, f: Field)
    requires f != Patches
    ensures Get(ThinkingRuled(x, provider, patterns), f)
         == OrElse(Get(ThinkingRuled(Bare(x.name), provider, patterns), f), Get(x, f))
    ensures ThinkingRuled(x, provider, patterns).name == x.name
    ensures Unruled(f) ==> Get(ThinkingRuled(Bare(x.name), provider, patterns), f) == None
  {
    FieldBase(x, provider, patterns, f);
    FieldOpenAi(BaseThinking(x, provider, patterns), provider, f);
    FieldOpenAi(BaseThinking(Bare(x.name), provider, patterns), provider, f);
  }

  lemma FieldBase(x: Model, provider: string, patterns: Patterns, f: Field)
    requires f != Patches
    ensures Get(BaseThinking(x, provider, patterns), f)
         == OrElse(Get(BaseThinking(Bare(x.name), provider, patterns), f), Get(x, f))
    ensures BaseThinking(x, provider, patterns).name == x.name
    ensures Unruled(f) ==> Get(BaseThinking(Bare(x.name), provider, patterns), f) == None
  {}

  lemma FieldOpenAi(x: Model, provider: string, f: Field)
    requires f != Patches
    ensures Get(OpenAiPatches(x, provider), f) == Get(x, f) && OpenAiPatches(x, provider).name == x.name
  {}

  lemma FieldGemini(x: Model, provider: string, patterns: Patterns, f: Field)
    requires f != Patches
    ensures Get(GeminiThoughts(x, provider, patterns), f)
         == OrElse(Get(GeminiThoughts(Bare(x.name), provider, patterns), f), Get(x, f))
    ensures GeminiThoughts(x, provider, patterns).name == x.name
    ensures Unruled(f) ==> Get(GeminiThoughts(Bare(x.name), provider, patterns), f) == None
  {}

  lemma FieldOther(x: Model, provider: string, f: Field)
    ensures Get(OtherPatches(x, provider), f) == OrElse(Get(OtherPatches(Bare(x.name), provider), f), Get(x, f))
    ensures OtherPatches(x, provider).name == x.name
    ensures Unruled(f) ==> Get(OtherPatches(Bare(x.name), provider), f) == None
  {}

  // What the rules set a field to, by the model's name.
  function Forced(name: string, provider: string, patterns: Patterns, f: Field): Option<Value> {
    OrElse(Get(OtherPatches(Bare(name), provider), f),
      OrElse(Get(GeminiThoughts(Bare(name), provider, patterns), f),
        Get(ThinkingRuled(Bare(name), provider, patterns), f)))
  }

  lemma FieldRuled(x: Model, provider: string, patterns: Patterns, f: Field)
    requires f != Patches
    ensures Get(Ruled(x, provider, patterns), f) == OrElse(Forced(x.name, provider, patterns, f), Get(x, f))
    ensures Ruled(x, provider, patterns).name == x.name
    ensures Unruled(f) ==> Get(Ruled(x, provider, patterns), f) == Get(x, f)
  {
    FieldThinking(x, provider, patterns, f);
    var a := ThinkingRuled(x, provider, patterns);
    FieldGemini(a, provider, patterns, f);
    FieldOther(GeminiThoughts(a, provider, patterns), provider, f);
  }

  // The patches the Claude and OpenAI rules set are set by name.
  lemma PatchesThinking(x: Model, provider: string, patterns: Patterns)
    ensures Get(ThinkingRuled(x, provider, patterns), Patches)
         == OrElse(Get(ThinkingRuled(Bare(x.name), provider, patterns), Patches), Get(x, Patches))
  {}

  lemma PatchesAbsorbed(x: Model, y: Model, provider: string, patterns: Patterns)
    requires x.name == y.name && Get(y, RealName) == Get(x, RealName) && Get(y, Type) == Get(x, Type)
    requires Get(y, Patches) == Get(x, Patches) || Get(y, Patches) == Get(Ruled(x, provider, patterns), Patches)
    ensures Get(Ruled(y, provider, patterns), Patches) == Get(Ruled(x, provider, patterns), Patches)
  {
    var a, b := ThinkingRuled(x, provider, patterns), ThinkingRuled(y, provider, patterns);
    var c, d := GeminiThoughts(a, provider, patterns), GeminiThoughts(b, provider, patterns);
    PatchesThinking(x, provider, patterns);
    PatchesThinking(y, provider, patterns);
    FieldThinking(x, provider, patterns, RealName);
    FieldThinking(y, provider, patterns, RealName);
    FieldThinking(x, provider, patterns, Type);
    FieldThinking(y, provider, patterns, Type);
    FieldOther(c, provider, Patches);
    FieldOther(d, provider, Patches);
    FieldGemini(a, provider, patterns, Type);
    FieldGemini(b, provider, patterns, Type);
    if Get(OtherPatches(Bare(x.name), provider), Patches).None? {
      GeminiAbsorbed(a, b, provider, patterns);
    }
  }

  lemma GeminiAbsorbed(a: Model, b: Model, provider: string, patterns: Patterns)
    requires a.name == b.name && Get(b, RealName) == Get(a, RealName) && Get(b, Type) == Get(a, Type)
    requires Get(b, Patches) == Get(a, Patches)
          || Get(b, Patches) == Get(GeminiThoughts(a, provider, patterns), Patches)
    ensures Get(GeminiThoughts(b, provider, patterns), Patches) == Get(GeminiThoughts(a, provider, patterns), Patches)
  {
    assert GeminiThinks(a, patterns) == GeminiThinks(b, patterns);
    OwnedPatchesGoOnce(PatchesOf(a));
  }

  lemma FieldAbsorbed(x: Model, y: Model, provider: string, patterns: Patterns, f: Field)
    requires Between(x, y, provider, patterns)
    ensures Get(Ruled(y, provider, patterns), f) == Get(Ruled(x, provider, patterns), f)
  {
    assert Get(y, f) == Get(x, f) || Get(y, f) == Get(Ruled(x, provider, patterns), f);
    FieldRuled(x, provider, patterns, RealName);
    FieldRuled(x, provider, patterns, Type);
    assert Get(y, RealName) == Get(x, RealName) && Get(y, Type) == Get(x, Type);
    if f == Patches {
      PatchesAbsorbed(x, y, provider, patterns);
    } else {
      FieldRuled(x, provider, patterns, f);
      FieldRuled(y, provider, patterns, f);
    }
  }

  // Refreshing a model that is already in the catalog gives, field by field, what the first refresh
  // gave or what the rules made of it.
  lemma RefreshedAgain(provider: string, entry: Entry, shipped: Option<Model>, sources: Sources)
    ensures var x := Refreshed(provider, entry, shipped, sources);
      Between(x, Refreshed(provider, entry, Some(Ruled(x, provider, sources.patterns)), sources), provider,
          sources.patterns)
  {
    var x := Refreshed(provider, entry, shipped, sources);
    var ruled := Ruled(x, provider, sources.patterns);
    var y := Refreshed(provider, entry, Some(ruled), sources);
    RulesKeepFields(x, provider, sources.patterns);
    forall f
      ensures Get(y, f) == Get(x, f) || Get(y, f) == Get(ruled, f)
    {
      FieldRefreshedAgain(provider, entry, shipped, sources, ruled, f);
    }
  }

  // The rules drop no field, and leave the endpoint and the capabilities alone.
  ghost predicate Extends(x: Model, y: Model) {
    && y.name == x.name
    && (forall f :: Get(x, f).Some? ==> Get(y, f).Some?)
    && (forall f :: Unruled(f) ==> Get(y, f) == Get(x, f))
  }

  lemma PatchesStay(x: Model, provider: string, patterns: Patterns)
    requires Get(x, Patches).Some?
    ensures Get(Ruled(x, provider, patterns), Patches).Some?
  {}

  lemma RulesKeepFields(x: Model, provider: string, patterns: Patterns)
    ensures Extends(x, Ruled(x, provider, patterns))
  {
    FieldRuled(x, provider, patterns, Endpoint);
    forall f
      ensures Get(x, f).Some? ==> Get(Ruled(x, provider, patterns), f).Some?
      ensures Unruled(f) ==> Get(Ruled(x, provider, patterns), f) == Get(x, f)
    {
      if f != Patches {
        FieldRuled(x, provider, patterns, f);
      } else if Get(x, Patches).Some? {
        PatchesStay(x, provider, patterns);
      }
    }
  }

  function Carried(shipped: Option<Model>, f: Field): Option<Value> {
    if shipped.None? || f !in shipped.value.fields then None
    else if HarnxOnly(f) then Get(shipped.value, f)
    else if Capability(f) && Truthy(shipped.value.fields[f]) then Some(Flag(true))
    else None
  }

  lemma FieldMerged(model: Model, shipped: Option<Model>, f: Field)
    ensures Get(MergeOld(model, shipped), f) == OrElse(Get(model, f), Carried(shipped, f))
    ensures MergeOld(model, shipped).name == model.name
  {}

  function Card(provider: string, name: string, f: Field, sources: Sources): Option<Value> {
    if provider == "bedrock" && name in sources.cards && f in sources.cards[name]
        then Some(sources.cards[name][f]) else None
  }

  function Defaulted(model: Model, provider: string, entry: Entry): Model {
    WithSummary(WithEndpoint(model, provider, entry), provider, entry)
  }

  lemma FieldRefreshed(provider: string, entry: Entry, shipped: Option<Model>, sources: Sources, f: Field)
    ensures var merged := MergeOld(entry.model, shipped);
      Get(Refreshed(provider, entry, shipped, sources), f)
      == OrElse(Card(provider, entry.model.name, f, sources), Get(Defaulted(merged, provider, entry), f))
  {}

  lemma FieldDefaulted(model: Model, provider: string, entry: Entry, f: Field)
    ensures Get(model, f).Some? || (f != Endpoint && f != Patches) || provider != "openai" ==>
              Get(Defaulted(model, provider, entry), f) == Get(model, f)
  {}

  lemma FieldRefreshedAgain(
    provider: string, entry: Entry, shipped: Option<Model>, sources: Sources, ruled: Model, f: Field)
    requires Extends(Refreshed(provider, entry, shipped, sources), ruled)
    ensures Get(Refreshed(provider, entry, Some(ruled), sources), f)
        == Get(Refreshed(provider, entry, shipped, sources), f)
         || Get(Refreshed(provider, entry, Some(ruled), sources), f) == Get(ruled, f)
  {
    var p, q := MergeOld(entry.model, shipped), MergeOld(entry.model, Some(ruled));
    FieldRefreshed(provider, entry, shipped, sources, f);
    FieldRefreshed(provider, entry, Some(ruled), sources, f);
    FieldMerged(entry.model, shipped, f);
    FieldMerged(entry.model, Some(ruled), f);
    FieldDefaulted(p, provider, entry, f);
    FieldDefaulted(q, provider, entry, f);
    if provider == "openai" && (f == Endpoint || f == Patches) {
      OpenAiAgain(entry, shipped, sources, ruled);
    }
  }

  lemma OpenAiEndpointAgain(entry: Entry, shipped: Option<Model>, sources: Sources, ruled: Model)
    requires Extends(Refreshed("openai", entry, shipped, sources), ruled)
    ensures Get(WithEndpoint(MergeOld(entry.model, Some(ruled)), "openai", entry), Endpoint) == Get(ruled, Endpoint)
    ensures Get(WithEndpoint(MergeOld(entry.model, shipped), "openai", entry), Endpoint) == Get(ruled, Endpoint)
  {}

  lemma OpenAiAgain(entry: Entry, shipped: Option<Model>, sources: Sources, ruled: Model)
    requires Extends(Refreshed("openai", entry, shipped, sources), ruled)
    ensures Get(Refreshed("openai", entry, Some(ruled), sources), Endpoint) == Get(ruled, Endpoint)
    ensures Get(Refreshed("openai", entry, Some(ruled), sources), Patches)
         == OrElse(Get(entry.model, Patches), Get(ruled, Patches))
  {
    var x := Refreshed("openai", entry, shipped, sources);
    assert Get(x, Patches).Some? ==> Get(ruled, Patches).Some?;
    OpenAiEndpointAgain(entry, shipped, sources, ruled);
    FieldMerged(entry.model, shipped, Patches);
    FieldMerged(entry.model, Some(ruled), Patches);
  }

  // ----- The catalog is a fixed point -----

  lemma OnlyBasesAreUnowned(
    rebuilt: map<string, Model>, bases: map<string, Model>, provider: string, patterns: Patterns, key: string)
    requires Holds(rebuilt, bases.Keys, bases, provider, patterns)
    requires key in rebuilt && !IsGenerated(provider, key)
    ensures key in bases && rebuilt[key] == bases[key]
  {
    if key !in bases {
      var name, plan :| name in bases && plan in Plans(bases[name], provider, patterns)
                        && key == Alias(bases[name].name, plan.suffix);
      PlansAreOwned(bases[name], provider, patterns, plan);
    }
  }

  lemma SameNamesAgain(
    rebuilt: map<string, Model>, provider: string, shipped: map<string, Model>, sources: Sources, name: string)
    requires Fetched(provider, sources, shipped) != map[]
    requires IsRebuilt(rebuilt, provider, shipped, Fetched(provider, sources, shipped), sources.patterns)
    ensures name in Merged(provider, shipped, Fetched(provider, sources, shipped))
            <==> name in Merged(provider, rebuilt, Fetched(provider, sources, rebuilt))
  {
    var first := Merged(provider, shipped, Fetched(provider, sources, shipped));
    var bases := Bases(provider, first, sources.patterns);
    assert name in first <==> name in bases;
    assert name in Fetched(provider, sources, shipped) <==> name in Fetched(provider, sources, rebuilt);
    if name in rebuilt && !IsGenerated(provider, name) {
      OnlyBasesAreUnowned(rebuilt, bases, provider, sources.patterns, name);
    }
  }

  lemma SameBaseAgain(
    rebuilt: map<string, Model>, provider: string, shipped: map<string, Model>, sources: Sources, name: string)
    requires name in Merged(provider, shipped, Fetched(provider, sources, shipped))
    requires name in Merged(provider, rebuilt, Fetched(provider, sources, rebuilt))
    requires name in rebuilt
    requires rebuilt[name]
          == Ruled(Merged(provider, shipped, Fetched(provider, sources, shipped))[name], provider, sources.patterns)
    ensures Ruled(Merged(provider, rebuilt, Fetched(provider, sources, rebuilt))[name], provider, sources.patterns)
         == rebuilt[name]
  {
    var x := Merged(provider, shipped, Fetched(provider, sources, shipped))[name];
    var y := Merged(provider, rebuilt, Fetched(provider, sources, rebuilt))[name];
    if Kept(provider, name, sources.registry) {
      var entry := sources.registry[name];
      assert x == Refreshed(provider, entry, Lookup(shipped, name), sources);
      assert y == Refreshed(provider, entry, Some(rebuilt[name]), sources);
      RefreshedAgain(provider, entry, Lookup(shipped, name), sources);
    } else {
      assert y == rebuilt[name];
      RulesKeepFields(x, provider, sources.patterns);
    }
    RulesAbsorb(x, y, provider, sources.patterns);
  }

  // The base models of one run, under their rules.
  function BasesOf(provider: string, shipped: map<string, Model>, sources: Sources): map<string, Model> {
    Bases(provider, Merged(provider, shipped, Fetched(provider, sources, shipped)), sources.patterns)
  }

  lemma BaseAgain(
    rebuilt: map<string, Model>, provider: string, shipped: map<string, Model>, sources: Sources, name: string)
    requires Fetched(provider, sources, shipped) != map[]
    requires IsRebuilt(rebuilt, provider, shipped, Fetched(provider, sources, shipped), sources.patterns)
    ensures Lookup(BasesOf(provider, rebuilt, sources), name) == Lookup(BasesOf(provider, shipped, sources), name)
  {
    SameNamesAgain(rebuilt, provider, shipped, sources, name);
    var bases := BasesOf(provider, shipped, sources);
    if name in bases {
      assert name in rebuilt && rebuilt[name] == bases[name];
      SameBaseAgain(rebuilt, provider, shipped, sources, name);
    }
  }

  // A second run has the same base models, whatever the first one kept, refreshed or generated.
  lemma SameBasesAgain(
    rebuilt: map<string, Model>, provider: string, shipped: map<string, Model>, sources: Sources)
    requires Fetched(provider, sources, shipped) != map[]
    requires IsRebuilt(rebuilt, provider, shipped, Fetched(provider, sources, shipped), sources.patterns)
    ensures BasesOf(provider, rebuilt, sources) == BasesOf(provider, shipped, sources)
  {
    forall name
      ensures Lookup(BasesOf(provider, rebuilt, sources), name) == Lookup(BasesOf(provider, shipped, sources), name)
    {
      BaseAgain(rebuilt, provider, shipped, sources, name);
    }
    SameLookups(BasesOf(provider, rebuilt, sources), BasesOf(provider, shipped, sources));
  }

  lemma SameLookups(a: map<string, Model>, b: map<string, Model>)
    requires forall name :: Lookup(a, name) == Lookup(b, name)
    ensures a == b
  {
    forall name
      ensures name in a <==> name in b
      ensures name in a ==> a[name] == b[name]
    {
      assert Lookup(a, name) == Lookup(b, name);
    }
  }

  lemma HoldsIsUnique(
    a: map<string, Model>, b: map<string, Model>, bases: map<string, Model>, provider: string, patterns: Patterns)
    requires Holds(a, bases.Keys, bases, provider, patterns) && Holds(b, bases.Keys, bases, provider, patterns)
    ensures a == b
  {}

  lemma ListsIsUnique(a: seq<Model>, b: seq<Model>, models: map<string, Model>)
    requires Lists(a, models) && Lists(b, models)
    ensures a == b
  {
    AscendingIsUnique(Names(a), Names(b));
    forall i | 0 <= i < |a|
      ensures a[i] == b[i]
    {
      assert Names(a)[i] == Names(b)[i];
    }
  }

  // Feeding the output back with the same registry data gives the same list.
  lemma FixedPoint(
    provider: string, shipped: map<string, Model>, sources: Sources,
    first: map<string, Model>, firstList: seq<Model>, second: map<string, Model>, secondList: seq<Model>)
    requires IsRebuilt(first, provider, shipped, Fetched(provider, sources, shipped), sources.patterns)
    requires Lists(firstList, first)
    requires IsRebuilt(second, provider, first, Fetched(provider, sources, first), sources.patterns)
    requires Lists(secondList, second)
    ensures second == first && secondList == firstList
  {
    var once, again := Fetched(provider, sources, shipped), Fetched(provider, sources, first);
    assert once.Keys == again.Keys;
    if once == map[] {
      assert again == map[];
    } else {
      assert again != map[];
      SameBasesAgain(first, provider, shipped, sources);
      HoldsIsUnique(first, second, Bases(provider, Merged(provider, shipped, once), sources.patterns), provider,
                    sources.patterns);
    }
    ListsIsUnique(firstList, secondList, first);
  }

  // Every name the generator does not own survives: the registry's as refreshed, others as they were,
  // each under its rules; no variant takes its place.
  lemma CuratedSurvives(
    provider: string, shipped: map<string, Model>, sources: Sources, rebuilt: map<string, Model>, name: string)
    requires IsRebuilt(rebuilt, provider, shipped, Fetched(provider, sources, shipped), sources.patterns)
    requires !IsGenerated(provider, name)
    ensures var fetched := Fetched(provider, sources, shipped);
      && (name in rebuilt <==> name in shipped || name in fetched)
      && (name in rebuilt && fetched == map[] ==> rebuilt[name] == shipped[name])
      && (name in fetched ==> rebuilt[name] == Ruled(fetched[name], provider, sources.patterns))
      && (name in shipped && name !in fetched && fetched != map[] ==>
            rebuilt[name] == Ruled(shipped[name], provider, sources.patterns))
  {
    var fetched := Fetched(provider, sources, shipped);
    if fetched != map[] {
      var merged := Merged(provider, shipped, fetched);
      var bases := Bases(provider, merged, sources.patterns);
      assert name in merged <==> name in bases;
      if name in rebuilt {
        OnlyBasesAreUnowned(rebuilt, bases, provider, sources.patterns, name);
      }
    }
  }

  // The patches of a base model that has its own, after the rules: set by the model's name, or for
  // Argon its own ones with the generator's replaced, or its own.
  function PatchesAfter(name: string, provider: string, patterns: Patterns, own: Value): Value {
    var other := Get(OtherPatches(Bare(name), provider), Patches);
    var thinking := Get(ThinkingRuled(Bare(name), provider, patterns), Patches);
    if other.Some? then other.value
    else if provider == "gemini" && name == "gemini-4-argon" then
      Texts(WithoutOwned(if own.Texts? then own.texts else []) + [ARGON_REQUEST])
    else if provider == "gemini" && name == "gemini-3.8-flash" then Texts([GEMINI_SAMPLING_THOUGHTS])
    else if thinking.Some? then thinking.value
    else own
  }

  lemma PatchesRuled(x: Model, provider: string, patterns: Patterns)
    requires Get(x, Patches).Some?
    ensures Get(Ruled(x, provider, patterns), Patches)
         == Some(PatchesAfter(x.name, provider, patterns, x.fields[Patches]))
  {
    var a := ThinkingRuled(x, provider, patterns);
    PatchesThinking(x, provider, patterns);
    FieldThinking(x, provider, patterns, Type);
    FieldOther(GeminiThoughts(a, provider, patterns), provider, Patches);
    GeminiPatches(a, provider, patterns);
    if provider == "gemini" { assert a == x; }
  }

  lemma GeminiPatches(a: Model, provider: string, patterns: Patterns)
    requires Get(a, Patches).Some?
    ensures GeminiThoughts(a, provider, patterns).name == a.name
    ensures Get(GeminiThoughts(a, provider, patterns), Patches) == Some(
      if provider == "gemini" && a.name == "gemini-4-argon" then Texts(WithoutOwned(PatchesOf(a)) + [ARGON_REQUEST])
      else if provider == "gemini" && a.name == "gemini-3.8-flash" then Texts([GEMINI_SAMPLING_THOUGHTS])
      else a.fields[Patches])
  {}

  // What the rules leave of a field a person set, when the registry and the cards say nothing of it.
  function Chosen(name: string, provider: string, patterns: Patterns, f: Field, own: Value): Value {
    if f == Patches then PatchesAfter(name, provider, patterns, own)
    else OrElse(Forced(name, provider, patterns, f), Some(own)).value
  }

  lemma ChosenRuled(x: Model, provider: string, patterns: Patterns, f: Field)
    requires Get(x, f).Some?
    ensures Get(Ruled(x, provider, patterns), f) == Some(Chosen(x.name, provider, patterns, f, x.fields[f]))
  {
    if f == Patches {
      PatchesRuled(x, provider, patterns);
    } else {
      FieldRuled(x, provider, patterns, f);
    }
  }

  // A field only people fill in, patches included, is kept as it was, but for what the rules make of it.
  lemma HumanChoicesSurvive(
    provider: string, shipped: map<string, Model>, sources: Sources, rebuilt: map<string, Model>, name: string,
    f: Field)
    requires IsRebuilt(rebuilt, provider, shipped, Fetched(provider, sources, shipped), sources.patterns)
    requires !IsGenerated(provider, name) && name in shipped && shipped[name].name == name
    requires HarnxOnly(f) && f in shipped[name].fields
    requires name in sources.registry ==>
               f !in sources.registry[name].model.fields && sources.registry[name].model.name == name
               && Card(provider, name, f, sources) == None
    ensures name in rebuilt
    ensures Fetched(provider, sources, shipped) == map[] ==> rebuilt[name] == shipped[name]
    ensures Fetched(provider, sources, shipped) != map[] ==>
              Get(rebuilt[name], f) == Some(Chosen(name, provider, sources.patterns, f, shipped[name].fields[f]))
  {
    CuratedSurvives(provider, shipped, sources, rebuilt, name);
    var fetched := Fetched(provider, sources, shipped);
    if name in fetched {
      var entry := sources.registry[name];
      ChoiceRefreshed(provider, entry, shipped[name], sources, f);
      ChosenRuled(fetched[name], provider, sources.patterns, f);
    } else if fetched != map[] {
      ChosenRuled(shipped[name], provider, sources.patterns, f);
    }
  }

  lemma ChoiceRefreshed(provider: string, entry: Entry, shipped: Model, sources: Sources, f: Field)
    requires HarnxOnly(f) && f in shipped.fields && f !in entry.model.fields
    requires Card(provider, entry.model.name, f, sources) == None
    ensures Get(Refreshed(provider, entry, Some(shipped), sources), f) == Get(shipped, f)
    ensures Refreshed(provider, entry, Some(shipped), sources).name == entry.model.name
  {
    FieldRefreshed(provider, entry, Some(shipped), sources, f);
    FieldMerged(entry.model, Some(shipped), f);
    FieldDefaulted(MergeOld(entry.model, Some(shipped)), provider, entry, f);
  }

  // ----- What each part puts into the catalog -----

  // Registry and cards have the first say on a field, people the next; a capability someone has once
  // confirmed outlives a silent registry; and the defaults apply to what is then still open.
  lemma RefreshedSpec(provider: string, entry: Entry, shipped: Option<Model>, sources: Sources, f: Field)
    ensures var x := Refreshed(provider, entry, shipped, sources);
      var card := Card(provider, entry.model.name, f, sources);
      && (card.Some? ==> Get(x, f) == card)
      && (card.None? && f in entry.model.fields ==> Get(x, f) == Get(entry.model, f))
      && (card.None? && f !in entry.model.fields ==>
            && (HarnxOnly(f) && shipped.Some? && f in shipped.value.fields ==> Get(x, f) == Get(shipped.value, f))
            && (Capability(f) ==>
                  Get(x, f) == if shipped.Some? && f in shipped.value.fields && Truthy(shipped.value.fields[f])
                               then Some(Flag(true)) else None)
            && (HarnxOnly(f) && (shipped.None? || f !in shipped.value.fields) ==>
                  f == Endpoint || f == Patches || Get(x, f) == None)
            && (!HarnxOnly(f) && !Capability(f) ==> Get(x, f) == None))
  {
    var merged := MergeOld(entry.model, shipped);
    FieldRefreshed(provider, entry, shipped, sources, f);
    FieldMerged(entry.model, shipped, f);
    FieldDefaulted(merged, provider, entry, f);
  }

  // Nobody's endpoint: OpenAI chat models the registry lists for it go to the Responses API, and ask for
  // summaries there if they reason and nobody has patched them.
  lemma DefaultsSpec(entry: Entry, shipped: Option<Model>, sources: Sources)
    requires Get(entry.model, Endpoint).None? && (shipped.None? || Get(shipped.value, Endpoint).None?)
    requires Get(entry.model, Patches).None? && (shipped.None? || Get(shipped.value, Patches).None?)
    ensures var x := Refreshed("openai", entry, shipped, sources);
      var responds := Get(entry.model, Type).None? && entry.responses;
      && Get(x, Endpoint) == (if responds then Some(Text("responses")) else None)
      && Get(x, Patches) == (if responds && entry.reasoning then Some(Texts([OPENAI_SUMMARY])) else None)
  {
    var merged := MergeOld(entry.model, shipped);
    FieldMerged(entry.model, shipped, Endpoint);
    FieldMerged(entry.model, shipped, Patches);
    FieldMerged(entry.model, shipped, Type);
    FieldRefreshed("openai", entry, shipped, sources, Endpoint);
    FieldRefreshed("openai", entry, shipped, sources, Patches);
  }

  // An adaptive Claude base asks for its effort and needs a token limit; a Gemini thinker nobody patched
  // asks for thought summaries; any other field is left to the registry and to people.
  lemma AdaptiveBaseSpec(x: Model, provider: string, patterns: Patterns)
    requires IsAnthropic(provider) && !IsGenerated(provider, x.name) && "claude-" <= x.name
    requires AdaptiveOnly(x.name, patterns)
    ensures var defaultsToMedium := "claude-opus-5-5" <= x.name || "claude-haiku-5-5" <= x.name;
      && Get(Ruled(x, provider, patterns), Patches)
         == Some(Texts([AdaptivePatch(x.name, if defaultsToMedium then "medium" else "high", provider)]))
      && Get(Ruled(x, provider, patterns), RequireMax) == Some(Flag(true))
  {
    var a := ThinkingRuled(x, provider, patterns);
    assert provider != "openai" && provider != "gemini" && provider != "bedrock";
    AdaptiveThinking(x, provider, patterns);
    FieldGemini(a, provider, patterns, RequireMax);
    GeminiPatches(a, provider, patterns);
    FieldOther(GeminiThoughts(a, provider, patterns), provider, RequireMax);
    FieldOther(GeminiThoughts(a, provider, patterns), provider, Patches);
  }

  lemma AdaptiveThinking(x: Model, provider: string, patterns: Patterns)
    requires IsAnthropic(provider) && !IsGenerated(provider, x.name) && "claude-" <= x.name
    requires AdaptiveOnly(x.name, patterns)
    ensures var defaultsToMedium := "claude-opus-5-5" <= x.name || "claude-haiku-5-5" <= x.name;
      var a := ThinkingRuled(x, provider, patterns);
      && Get(a, Patches)
         == Some(Texts([AdaptivePatch(x.name, if defaultsToMedium then "medium" else "high", provider)]))
      && Get(a, RequireMax) == Some(Flag(true)) && a.name == x.name
  {}

  lemma GeminiThinkerSpec(x: Model, patterns: Patterns)
    requires Patches !in x.fields && x.name != "gemini-4-argon" && x.name != "gemini-3.8-flash"
    ensures Get(Ruled(x, "gemini", patterns), Patches)
         == if (Type !in x.fields || x.fields[Type] == Text("chat")) && patterns.geminiThinker(CalledName(x))
            then Some(Texts([GEMINI_THOUGHTS])) else None
  {}

  // The name a model is called by.
  function CalledName(x: Model): string {
    if RealName in x.fields && x.fields[RealName].Text? then x.fields[RealName].text else x.name
  }

  // A Claude base that needs a token limit requires one, adaptive or not.
  lemma LimitIsRequired(x: Model, provider: string, patterns: Patterns)
    requires IsAnthropic(provider) && !IsGenerated(provider, x.name)
    requires patterns.requiresMaxTokens(x.name) || ("claude-" <= x.name && AdaptiveOnly(x.name, patterns))
    ensures Get(Ruled(x, provider, patterns), RequireMax) == Some(Flag(true))
  {
    var a := ThinkingRuled(x, provider, patterns);
    assert Get(a, RequireMax) == Some(Flag(true)) && a.name == x.name;
    FieldGemini(a, provider, patterns, RequireMax);
    FieldOther(GeminiThoughts(a, provider, patterns), provider, RequireMax);
  }

  // Whatever the registry lists is refreshed, but a Bedrock model that is also listed for the US.
  lemma RegistryIsFetched(provider: string, sources: Sources, shipped: map<string, Model>, name: string)
    ensures name in Fetched(provider, sources, shipped) <==>
              name in sources.registry && (provider == "bedrock" ==> "us." + name !in sources.registry)
    ensures name in Fetched(provider, sources, shipped) ==>
              Fetched(provider, sources, shipped)[name]
              == Refreshed(provider, sources.registry[name], Lookup(shipped, name), sources)
  {}

  // Only the rules' own patches are taken out, and the others keep their order.
  lemma {:induction false} CuratedInOrder(first: seq<string>, second: seq<string>)
    ensures WithoutOwned(first + second) == WithoutOwned(first) + WithoutOwned(second)
    ensures |first| == 1 ==>
              WithoutOwned(first)
              == if first[0] == GEMINI_THOUGHTS || first[0] == GEMINI_SAMPLING_THOUGHTS || first[0] == ARGON_REQUEST
                 then [] else first
  {
    if first == [] {
      assert first + second == second;
    } else {
      assert (first + second)[1..] == first[1..] + second;
      CuratedInOrder(first[1..], second);
    }
  }

  // Argon gets its limits, and its request patch once, behind the patches people gave it.
  lemma ArgonSpec(x: Model, patterns: Patterns)
    requires x.name == "gemini-4-argon"
    ensures var t := Ruled(x, "gemini", patterns);
      && t == With(WithLimits(x, 983040.0, 65536.0), Patches, t.fields[Patches])
      && t.fields[Patches] == Texts(WithoutOwned(PatchesOf(x)) + [ARGON_REQUEST])
      && WithoutOwned(PatchesOf(t)) == WithoutOwned(PatchesOf(x))
  {
    OwnedPatchesGoOnce(PatchesOf(x));
  }

  predicate IsNamed(provider: string, name: string) {
    || (provider == "openai" && name in OPENAI_FIXED)
    || (provider == "bedrock" && name == "us.zai.glm-5.3") || (provider == "zai" && name == "glm-5.3")
    || (provider == "minimax" && name == "MiniMax-M3.1-Flash")
  }

  // The other providers' rules replace the patches of the models they name, set the limits of one, and
  // leave every other model alone.
  lemma OnlyNamedModelsAreRuled(x: Model, provider: string, patterns: Patterns, f: Field)
    requires !IsAnthropic(provider) && provider != "gemini"
    ensures var t := Ruled(x, provider, patterns);
      && (!IsNamed(provider, x.name) ==> t == x)
      && (IsNamed(provider, x.name) && f == Patches ==> |PatchesOf(t)| == 1)
      && (f != Patches && (provider != "minimax" || f !in {MaxInput, MaxOutput, RequireMax}) ==> Get(t, f) == Get(x, f))
  {
    PlainlyRuled(x, provider, patterns);
    if provider == "openai" {
      OpenAiRuled(x, f);
    } else {
      OtherRuled(x, provider, f);
    }
  }

  lemma PlainlyRuled(x: Model, provider: string, patterns: Patterns)
    requires !IsAnthropic(provider) && provider != "gemini"
    ensures Ruled(x, provider, patterns) == OtherPatches(OpenAiPatches(x, provider), provider)
  {}

  lemma OpenAiRuled(x: Model, f: Field)
    ensures var t := OtherPatches(OpenAiPatches(x, "openai"), "openai");
      && (x.name !in OPENAI_FIXED ==> t == x)
      && (x.name in OPENAI_FIXED ==> |PatchesOf(t)| == 1) && (f != Patches ==> Get(t, f) == Get(x, f))
  {}

  lemma OtherRuled(x: Model, provider: string, f: Field)
    requires provider != "openai"
    ensures var t := OtherPatches(OpenAiPatches(x, provider), provider);
      && (!IsNamed(provider, x.name) ==> t == x)
      && (IsNamed(provider, x.name) ==> |PatchesOf(t)| == 1)
      && (f != Patches && (provider != "minimax" || f !in {MaxInput, MaxOutput, RequireMax}) ==> Get(t, f) == Get(x, f))
  {}

  // A variant holds its base's data and its plan's request, and nothing else.
  ghost predicate IsVariantOf(v: Model, base: Model, plan: Plan) {
    && v.name == base.name + ":" + plan.suffix
    && Get(v, RealName) == Some(if RealName in base.fields then base.fields[RealName] else Text(base.name))
    && Get(v, MaxInput) == Get(base, MaxInput)
    && Get(v, InputPrice) == Get(base, InputPrice) && Get(v, OutputPrice) == Get(base, OutputPrice)
    && Get(v, CacheRead) == Get(base, CacheRead) && Get(v, CacheWrite) == Get(base, CacheWrite)
    && Get(v, Vision) == Get(base, Vision) && Get(v, ToolUse) == Get(base, ToolUse)
    && Get(v, Endpoint) == Get(base, Endpoint)
    && Get(v, MaxOutput) == plan.maxOutput
    && Get(v, RequireMax) == (if plan.requireMax then Some(Flag(true)) else None)
    && Get(v, Patches) == Some(Texts([plan.patch]))
    && Get(v, Type) == None && Get(v, SystemPromptPrefix) == None && Get(v, MaxTokensPerChunk) == None
    && Get(v, DefaultChunkSize) == None && Get(v, MaxBatchSize) == None
  }

  lemma VariantSpec(base: Model, plan: Plan)
    ensures IsVariantOf(Variant(base, plan), base, plan)
  {
    VariantField(base, plan, RealName);
    VariantField(base, plan, MaxInput);
    VariantField(base, plan, MaxOutput);
    VariantField(base, plan, RequireMax);
    VariantField(base, plan, InputPrice);
    VariantField(base, plan, OutputPrice);
    VariantField(base, plan, CacheRead);
    VariantField(base, plan, CacheWrite);
    VariantField(base, plan, Vision);
    VariantField(base, plan, ToolUse);
    VariantField(base, plan, Patches);
    VariantField(base, plan, Endpoint);
    VariantField(base, plan, Type);
    VariantField(base, plan, MaxTokensPerChunk);
    VariantField(base, plan, DefaultChunkSize);
    VariantField(base, plan, MaxBatchSize);
    VariantField(base, plan, SystemPromptPrefix);
  }

  lemma VariantField(base: Model, plan: Plan, f: Field)
    ensures Get(Variant(base, plan), f) ==
      match f
      case RealName => Some(if RealName in base.fields then base.fields[RealName] else Text(base.name))
      case MaxOutput => plan.maxOutput
      case RequireMax => if plan.requireMax then Some(Flag(true)) else None
      case Patches => Some(Texts([plan.patch]))
      case MaxInput | InputPrice | OutputPrice | CacheRead | CacheWrite | Vision | ToolUse | Endpoint => Get(base, f)
      case _ => None
  {}

  // Every plan of every base model of a rebuilt catalog is in it as such a variant.
  lemma RebuiltVariants(
    provider: string, shipped: map<string, Model>, sources: Sources, rebuilt: map<string, Model>, name: string,
    plan: Plan)
    requires Fetched(provider, sources, shipped) != map[]
    requires IsRebuilt(rebuilt, provider, shipped, Fetched(provider, sources, shipped), sources.patterns)
    requires name in BasesOf(provider, shipped, sources)
    requires plan in Plans(BasesOf(provider, shipped, sources)[name], provider, sources.patterns)
    ensures name in rebuilt && rebuilt[name] == BasesOf(provider, shipped, sources)[name]
    ensures Alias(rebuilt[name].name, plan.suffix) in rebuilt
    ensures IsVariantOf(rebuilt[Alias(rebuilt[name].name, plan.suffix)], rebuilt[name], plan)
  {
    var base := BasesOf(provider, shipped, sources)[name];
    assert HoldsVariant(rebuilt, base, plan);
    VariantSpec(base, plan);
  }

  // Which variants a Claude base has: effort aliases that ask for the effort they are named after and
  // keep the base's output limit, or one thinking alias with the fixed one.
  lemma ClaudePlans(base: Model, provider: string, patterns: Patterns)
    requires IsAnthropic(provider) && !IsGenerated(provider, base.name) && "claude-" <= base.name
    ensures var plans := Plans(base, provider, patterns);
      if AdaptiveOnly(base.name, patterns) && !("claude-haiku-5-5" <= base.name) then
        && |plans| == 2 && plans[0].suffix == "xhigh" && plans[1].suffix == "max"
        && forall plan :: plan in plans ==>
             plan == Plan(plan.suffix, AdaptivePatch(base.name, plan.suffix, provider), Get(base, MaxOutput), true)
      else
        && |plans| == 1 && plans[0].suffix == "thinking" && plans[0].requireMax
        && plans[0].maxOutput == Some(Number(24000.0))
        && plans[0].patch == if "claude-haiku-5-5" <= base.name then AdaptivePatch(base.name, "medium", provider)
                             else CLAUDE_THINKING
  {}

  // An OpenAI base has one alias for each of its listed efforts, in order, which asks for that effort.
  lemma OpenAiPlans(base: Model, patterns: Patterns)
    ensures var plans := Plans(base, "openai", patterns);
      var efforts := if base.name in OPENAI_EFFORTS then OPENAI_EFFORTS[base.name] else [];
      && |plans| == |efforts|
      && forall i :: 0 <= i < |efforts| ==>
           plans[i] == Plan(efforts[i], OPENAI_NO_SAMPLING + efforts[i], Get(base, MaxOutput), false)
  {}

  // A Bedrock Claude base has one thinking alias with the fixed output limit unless it thinks by itself;
  // no other provider's models have variants.
  lemma BedrockPlans(base: Model, provider: string, patterns: Patterns)
    requires !IsAnthropic(provider) && provider != "openai"
    ensures var plans := Plans(base, provider, patterns);
      && (plans != [] <==>
            provider == "bedrock" && !IsGenerated(provider, base.name) && "us.anthropic.claude-" <= base.name
            && !patterns.adaptive(base.name))
      && (plans != [] ==>
            |plans| == 1 && plans[0].suffix == "thinking" && plans[0].maxOutput == Some(Number(24000.0))
            && plans[0].requireMax)
  {}

  // ----- The rebuild itself -----

  ghost predicate WellKeyed(models: map<string, Model>) {
    forall name :: name in models ==> models[name].name == name
  }

  // Two variants under one name are the same variant of the same base.
  lemma NoTwoVariantsCollide(
    bases: map<string, Model>, provider: string, patterns: Patterns, a: string, p: Plan, b: string, q: Plan)
    requires WellKeyed(bases) && a in bases && b in bases
    requires p in Plans(bases[a], provider, patterns) && q in Plans(bases[b], provider, patterns)
    requires Alias(bases[a].name, p.suffix) == Alias(bases[b].name, q.suffix)
    ensures a == b && p == q
  {
    PlansAreOwned(bases[a], provider, patterns, p);
    PlansAreOwned(bases[b], provider, patterns, q);
    AliasParts(bases[a].name, p.suffix);
    AliasParts(bases[b].name, q.suffix);
    PlansAreDistinct(bases[a], provider, patterns, p, q);
  }

  // As Holds, with only the first `n` variants of `name` generated yet.
  ghost predicate HoldsUpTo(
    rebuilt: map<string, Model>, done: set<string>, name: string, n: nat, bases: map<string, Model>, provider: string,
    patterns: Patterns)
    requires done <= bases.Keys && name in bases && n <= |Plans(bases[name], provider, patterns)|
  {
    && HoldsBases(rebuilt, done + {name}, bases)
    && HoldsVariants(rebuilt, done, bases, provider, patterns)
    && (forall i :: 0 <= i < n ==> HoldsVariant(rebuilt, bases[name], Plans(bases[name], provider, patterns)[i]))
    && HoldsNoMore(rebuilt, done + {name}, bases, provider, patterns)
  }

  lemma VariantStays(
    rebuilt: map<string, Model>, bases: map<string, Model>, provider: string, patterns: Patterns, a: string, p: Plan,
    b: string, q: Plan)
    requires WellKeyed(bases) && a in bases && b in bases
    requires p in Plans(bases[a], provider, patterns) && q in Plans(bases[b], provider, patterns)
    requires HoldsVariant(rebuilt, bases[a], p)
    ensures HoldsVariant(rebuilt[Variant(bases[b], q).name := Variant(bases[b], q)], bases[a], p)
  {
    if Alias(bases[a].name, p.suffix) == Alias(bases[b].name, q.suffix) {
      NoTwoVariantsCollide(bases, provider, patterns, a, p, b, q);
    }
  }

  lemma VariantIsNoBase(
    done: set<string>, name: string, plan: Plan, bases: map<string, Model>, provider: string, patterns: Patterns)
    requires done <= bases.Keys && name in done && plan in Plans(bases[name], provider, patterns)
    requires forall key :: key in bases ==> !IsGenerated(provider, key)
    ensures Variant(bases[name], plan).name !in bases
    ensures IsVariantKey(Variant(bases[name], plan).name, done, bases, provider, patterns)
  {
    PlansAreOwned(bases[name], provider, patterns, plan);
  }

  lemma BasesAfterVariant(
    rebuilt: map<string, Model>, done: set<string>, v: Model, bases: map<string, Model>, provider: string,
    patterns: Patterns)
    requires done <= bases.Keys && v.name !in bases && IsVariantKey(v.name, done, bases, provider, patterns)
    requires HoldsBases(rebuilt, done, bases) && HoldsNoMore(rebuilt, done, bases, provider, patterns)
    ensures HoldsBases(rebuilt[v.name := v], done, bases)
    ensures HoldsNoMore(rebuilt[v.name := v], done, bases, provider, patterns)
  {
    forall key | key in rebuilt[v.name := v]
      ensures key in done || IsVariantKey(key, done, bases, provider, patterns)
    {
      assert key in rebuilt || key == v.name;
    }
  }

  lemma VariantsAfterVariant(
    rebuilt: map<string, Model>, done: set<string>, name: string, plan: Plan, bases: map<string, Model>,
    provider: string, patterns: Patterns)
    requires done <= bases.Keys && name in bases && plan in Plans(bases[name], provider, patterns)
    requires WellKeyed(bases) && HoldsVariants(rebuilt, done, bases, provider, patterns)
    ensures var longer := rebuilt[Variant(bases[name], plan).name := Variant(bases[name], plan)];
      HoldsVariants(longer, done, bases, provider, patterns)
  {
    var longer := rebuilt[Variant(bases[name], plan).name := Variant(bases[name], plan)];
    forall key, p | key in done && p in Plans(bases[key], provider, patterns)
      ensures HoldsVariant(longer, bases[key], p)
    {
      VariantStays(rebuilt, bases, provider, patterns, key, p, name, plan);
    }
  }

  lemma GenerateOne(
    rebuilt: map<string, Model>, done: set<string>, name: string, n: nat, bases: map<string, Model>, provider: string,
    patterns: Patterns)
    requires done <= bases.Keys && name in bases && n < |Plans(bases[name], provider, patterns)|
    requires WellKeyed(bases) && (forall key :: key in bases ==> !IsGenerated(provider, key))
    requires HoldsUpTo(rebuilt, done, name, n, bases, provider, patterns)
    ensures var v := Variant(bases[name], Plans(bases[name], provider, patterns)[n]);
      HoldsUpTo(rebuilt[v.name := v], done, name, n + 1, bases, provider, patterns)
  {
    var plan := Plans(bases[name], provider, patterns)[n];
    VariantIsNoBase(done + {name}, name, plan, bases, provider, patterns);
    BasesAfterVariant(rebuilt, done + {name}, Variant(bases[name], plan), bases, provider, patterns);
    VariantsAfterVariant(rebuilt, done, name, plan, bases, provider, patterns);
    PlansAfterVariant(rebuilt, name, n, bases, provider, patterns);
  }

  lemma PlansAfterVariant(
    rebuilt: map<string, Model>, name: string, n: nat, bases: map<string, Model>, provider: string, patterns: Patterns)
    requires name in bases && n < |Plans(bases[name], provider, patterns)| && WellKeyed(bases)
    requires forall i :: 0 <= i < n ==> HoldsVariant(rebuilt, bases[name], Plans(bases[name], provider, patterns)[i])
    ensures var plans := Plans(bases[name], provider, patterns);
      var v := Variant(bases[name], plans[n]);
      forall i :: 0 <= i < n + 1 ==> HoldsVariant(rebuilt[v.name := v], bases[name], plans[i])
  {
    var plans := Plans(bases[name], provider, patterns);
    var v := Variant(bases[name], plans[n]);
    forall i | 0 <= i < n + 1
      ensures HoldsVariant(rebuilt[v.name := v], bases[name], plans[i])
    {
      if i < n {
        VariantStays(rebuilt, bases, provider, patterns, name, plans[i], name, plans[n]);
      }
    }
  }

  lemma StartOne(
    rebuilt: map<string, Model>, done: set<string>, name: string, bases: map<string, Model>, provider: string,
    patterns: Patterns)
    requires done <= bases.Keys && name in bases
    requires WellKeyed(bases) && (forall key :: key in bases ==> !IsGenerated(provider, key))
    requires Holds(rebuilt, done, bases, provider, patterns)
    ensures HoldsUpTo(rebuilt[name := bases[name]], done, name, 0, bases, provider, patterns)
  {
    forall key, plan | key in done && plan in Plans(bases[key], provider, patterns)
      ensures HoldsVariant(rebuilt[name := bases[name]], bases[key], plan)
    {
      assert HoldsVariant(rebuilt, bases[key], plan);
      PlansAreOwned(bases[key], provider, patterns, plan);
    }
    forall key | key in rebuilt && key !in done
      ensures IsVariantKey(key, done + {name}, bases, provider, patterns)
    {
      assert IsVariantKey(key, done, bases, provider, patterns);
    }
  }

  lemma FinishOne(
    rebuilt: map<string, Model>, done: set<string>, name: string, bases: map<string, Model>, provider: string,
    patterns: Patterns)
    requires done <= bases.Keys && name in bases
    requires HoldsUpTo(rebuilt, done, name, |Plans(bases[name], provider, patterns)|, bases, provider, patterns)
    ensures Holds(rebuilt, done + {name}, bases, provider, patterns)
  {}

  // The base `name` and then its variants.
  method AddModel(
    earlier: map<string, Model>, base: Model, provider: string, patterns: Patterns, ghost done: set<string>,
    ghost bases: map<string, Model>)
    returns (rebuilt: map<string, Model>)
    requires done <= bases.Keys && base.name in bases && bases[base.name] == base
    requires WellKeyed(bases) && (forall key :: key in bases ==> !IsGenerated(provider, key))
    requires Holds(earlier, done, bases, provider, patterns) && WellKeyed(earlier)
    ensures Holds(rebuilt, done + {base.name}, bases, provider, patterns) && WellKeyed(rebuilt)
  {
    StartOne(earlier, done, base.name, bases, provider, patterns);
    rebuilt := earlier[base.name := base];
    var plans := Plans(base, provider, patterns);
    for n := 0 to |plans|
      invariant HoldsUpTo(rebuilt, done, base.name, n, bases, provider, patterns) && WellKeyed(rebuilt)
    {
      var variant := Variant(base, plans[n]);
      GenerateOne(rebuilt, done, base.name, n, bases, provider, patterns);
      rebuilt := rebuilt[variant.name := variant];
    }
    FinishOne(rebuilt, done, base.name, bases, provider, patterns);
  }

  // Rules and variants, base by base in sorted order.
  method RegenerateVariants(provider: string, merged: map<string, Model>, patterns: Patterns)
    returns (rebuilt: map<string, Model>)
    requires WellKeyed(merged) && (forall name :: name in merged ==> !IsGenerated(provider, name))
    ensures Holds(rebuilt, merged.Keys, Bases(provider, merged, patterns), provider, patterns) && WellKeyed(rebuilt)
  {
    ghost var bases := Bases(provider, merged, patterns);
    RulesKeepNames(provider, merged, patterns);
    rebuilt := map[];
    var names := Sorted(merged.Keys);
    ghost var done: set<string> := {};
    for i := 0 to |names|
      invariant done <= bases.Keys && forall name :: name in done <==> name in names[..i]
      invariant Holds(rebuilt, done, bases, provider, patterns) && WellKeyed(rebuilt)
    {
      rebuilt := AddBase(rebuilt, names[i], provider, merged, patterns, done, bases);
      OneMoreDone(names, i, done);
      done := done + {names[i]};
    }
    AllDone(names, done, merged.Keys);
  }

  lemma OneMoreDone(names: seq<string>, i: nat, done: set<string>)
    requires i < |names| && forall name :: name in done <==> name in names[..i]
    ensures forall name :: name in done + {names[i]} <==> name in names[..i + 1]
  {
    assert names[..i + 1] == names[..i] + [names[i]];
  }

  lemma AllDone(names: seq<string>, done: set<string>, keys: set<string>)
    requires forall name :: name in done <==> name in names[..|names|]
    requires forall name :: name in names <==> name in keys
    ensures done == keys
  {
    assert names[..|names|] == names;
  }

  // One turn of the loop: a base under its rules, and its variants.
  method AddBase(
    earlier: map<string, Model>, name: string, provider: string, merged: map<string, Model>, patterns: Patterns,
    ghost done: set<string>, ghost bases: map<string, Model>)
    returns (rebuilt: map<string, Model>)
    requires name in merged && WellKeyed(merged) && bases == Bases(provider, merged, patterns)
    requires done <= bases.Keys && WellKeyed(bases) && (forall key :: key in bases ==> !IsGenerated(provider, key))
    requires Holds(earlier, done, bases, provider, patterns) && WellKeyed(earlier)
    ensures name in bases && Holds(rebuilt, done + {name}, bases, provider, patterns) && WellKeyed(rebuilt)
  {
    BaseOf(provider, merged, patterns, name);
    rebuilt := AddModel(earlier, Ruled(merged[name], provider, patterns), provider, patterns, done, bases);
  }

  lemma BaseOf(provider: string, merged: map<string, Model>, patterns: Patterns, name: string)
    requires WellKeyed(merged) && name in merged
    ensures var bases := Bases(provider, merged, patterns);
      name in bases && bases[name] == Ruled(merged[name], provider, patterns) && bases[name].name == name
  {
    RulesKeepNames(provider, merged, patterns);
  }

  lemma RulesKeepNames(provider: string, merged: map<string, Model>, patterns: Patterns)
    requires WellKeyed(merged)
    ensures WellKeyed(Bases(provider, merged, patterns))
  {
    forall name | name in merged
      ensures Ruled(merged[name], provider, patterns).name == name
    {
      FieldRuled(merged[name], provider, patterns, Type);
    }
  }

  method Listed(models: map<string, Model>) returns (list: seq<Model>)
    requires WellKeyed(models)
    ensures Lists(list, models)
  {
    var names := Sorted(models.Keys);
    list := [];
    for i := 0 to |names|
      invariant Names(list) == names[..i]
      invariant forall k :: 0 <= k < i ==> list[k] == models[names[k]]
    {
      list := list + [models[names[i]]];
    }
    assert Names(list) == names;
  }

  lemma MergedIsUnowned(provider: string, shipped: map<string, Model>, fetched: map<string, Model>)
    requires WellKeyed(shipped) && WellKeyed(fetched)
    ensures WellKeyed(Merged(provider, shipped, fetched))
    ensures forall name :: name in Merged(provider, shipped, fetched) ==> !IsGenerated(provider, name)
  {}

  method RegenerateProviderModels(
    provider: string, shipped: map<string, Model>, fetched: map<string, Model>, patterns: Patterns)
    returns (list: seq<Model>, rebuilt: map<string, Model>)
    requires WellKeyed(shipped) && WellKeyed(fetched)
    ensures IsRebuilt(rebuilt, provider, shipped, fetched, patterns) && Lists(list, rebuilt)
  {
    if fetched == map[] {
      list := Listed(shipped);
      return list, shipped;
    }
    MergedIsUnowned(provider, shipped, fetched);
    var merged := Merged(provider, shipped, fetched);
    var models := RegenerateVariants(provider, merged, patterns);
    assert Bases(provider, merged, patterns).Keys == merged.Keys;
    list := Listed(models);
    rebuilt := models;
  }
}

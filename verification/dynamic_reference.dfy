/**
 The reactive reference parameter: a parameter that only renders a
 reference widget from its script's output. Besides the shared choice
 cache it stores a choice type and whether the UI omits the hidden value
 field, patches its rendered HTML while rebuilding, and validates that a
 required form field is filled in.
 */
module DynamicReference {
  import opened Nullable
  import opened JavaStrings
  import opened ChoiceTypes
  import ChoiceCache

  /** The fields fixed at construction (`getChoiceType`, `getOmitValueField`). */
  datatype Config = Config(choiceType: string, omitValueField: bool)

  /** A parameter: its configuration and its choice cache. */
  datatype Parameter<K, V> = Parameter(config: Config, choices: ChoiceCache.State<K, V>)

  /** A parameter after a call that returns the choices, with what it returned. */
  datatype Answer<K, V> = Answer(param: Parameter<K, V>, choices: Option<ChoiceCache.ChoiceMap<K, V>>)

  /** Both constructors (the deprecated one without a random name and the
      data-bound one); they default the same two fields. */
  function New(choiceType: Option<string>, omitValueField: Option<bool>): (c: Config)
    ensures !IsBlank(Some(c.choiceType))
    ensures IsBlank(choiceType) ==> c.choiceType == SingleSelect
    ensures !IsBlank(choiceType) ==> Some(c.choiceType) == choiceType
    ensures omitValueField.None? ==> !c.omitValueField
    ensures omitValueField.Some? ==> c.omitValueField == omitValueField.value
  {
    Config(ChoiceTypeOrDefault(choiceType), omitValueField.GetOr(false))
  }

  /** A newly constructed parameter: the `choices` field has no initialiser,
      so nothing is cached yet and the script has not run; the flag is as the
      base class initialises it (`baseRebuilding`). */
  function Fresh<K, V>(config: Config, baseRebuilding: bool): (p: Parameter<K, V>)
    ensures p.config == config
    ensures p.choices.cache.None? && p.choices.evaluations == 0
    ensures p.choices.rebuilding == baseRebuilding
  {
    Parameter(config, ChoiceCache.Initial(baseRebuilding))
  }

  /** `getChoices`: only the cache changes, as the shared cache prescribes. */
  function GetChoices<K, V>(p: Parameter<K, V>, eval: ChoiceCache.Evaluator<K, V>): (r: Answer<K, V>)
    ensures r.param == p.(choices := r.param.choices)
    ensures ChoiceCache.Served(p.choices, eval, r.param.choices, r.choices)
  {
    var reply := ChoiceCache.GetChoices(p.choices, eval);
    Answer(p.(choices := reply.next), reply.choices)
  }

  /** `getChoicesToRebuild`: the flag is on afterwards, and the answer is the
      rebuilding-mode answer. */
  function GetChoicesToRebuild<K, V>(p: Parameter<K, V>, eval: ChoiceCache.Evaluator<K, V>): (r: Answer<K, V>)
    ensures r.param == p.(choices := r.param.choices)
    ensures r.param.choices.rebuilding
    ensures ChoiceCache.Served(p.choices.(rebuilding := true), eval, r.param.choices, r.choices)
  {
    var reply := ChoiceCache.GetChoicesToRebuild(p.choices, eval);
    Answer(p.(choices := reply.next), reply.choices)
  }

  /** `setChoices`: replaces the cached map and nothing else. */
  function SetChoices<K, V>(p: Parameter<K, V>, m: Option<ChoiceCache.ChoiceMap<K, V>>): (q: Parameter<K, V>)
    ensures q.choices.cache == m
    ensures q == p.(choices := q.choices)
    ensures q.choices.rebuilding == p.choices.rebuilding && q.choices.evaluations == p.choices.evaluations
  {
    p.(choices := ChoiceCache.SetChoices(p.choices, m))
  }

  /** `setRebuilding` (overridden only to log): writes the flag. */
  function SetRebuilding<K, V>(p: Parameter<K, V>, flag: bool): (q: Parameter<K, V>)
    ensures q.choices.rebuilding == flag
    ensures q == p.(choices := q.choices)
    ensures q.choices.cache == p.choices.cache && q.choices.evaluations == p.choices.evaluations
  {
    p.(choices := ChoiceCache.SetRebuilding(p.choices, flag))
  }

  // --- rendering for the UI

  /** The HTML surgery done with Jsoup: put `text` into the first
      `<textarea>` of `html` and return the whole document again, or null
      when `html` has no `<textarea>`. */
  type TextareaPatch = (string, string) -> Option<string>

  /** Whether the rendered choices are patched with the cached ones: only
      while rebuilding, with a non-empty cache, for formatted HTML. */
  predicate PatchApplies<K, V>(p: Parameter<K, V>) {
    && p.choices.rebuilding
    && p.choices.cache.Some? && |p.choices.cache.value| > 0
    && p.config.choiceType == FormattedHtml
  }

  /** `getChoicesAsStringForUI`. `rendered` is what the base class's
      `getChoicesAsString` produced for the current parameters, `show` is
      `toString` on a choice value. The result differs from `rendered` only
      when the patch applies and found a `<textarea>`, and then it is the
      document with the first cached value's text in it. */
  function ChoicesAsStringForUI<K, V>(p: Parameter<K, V>, rendered: string, show: V -> string, patch: TextareaPatch): (r: string)
    ensures !PatchApplies(p) ==> r == rendered
    ensures PatchApplies(p) && patch(rendered, show(p.choices.cache.value[0].1)).None? ==> r == rendered
    ensures PatchApplies(p) && patch(rendered, show(p.choices.cache.value[0].1)).Some? ==>
              r == patch(rendered, show(p.choices.cache.value[0].1)).value
  {
    if p.choices.rebuilding then
      if p.choices.cache.None? || |p.choices.cache.value| == 0 then
        rendered
      else if p.config.choiceType == FormattedHtml then
        var firstValue := p.choices.cache.value[0].1;
        match patch(rendered, show(firstValue))
        case Some(html) => html
        case None => rendered
      else
        rendered
    else
      rendered
  }

  /** A parameter that was just constructed renders its choices unpatched,
      whatever its choice type: nothing is cached yet. */
  lemma NewParameterRendersUnpatched<K, V>(choiceType: Option<string>, omitValueField: Option<bool>, baseRebuilding: bool,
                                         rendered: string, show: V -> string, patch: TextareaPatch)
    ensures ChoicesAsStringForUI(Fresh<K, V>(New(choiceType, omitValueField), baseRebuilding), rendered, show, patch) == rendered
  {
  }

  /** A parameter whose choice type was defaulted is never patched,
      whatever its cache holds: the default is the single-select type, not
      formatted HTML. */
  lemma DefaultedTypeNeverPatched<K, V>(choiceType: Option<string>, omitValueField: Option<bool>, choices: ChoiceCache.State<K, V>,
                                        rendered: string, show: V -> string, patch: TextareaPatch)
    requires IsBlank(choiceType)
    ensures ChoicesAsStringForUI(Parameter(New(choiceType, omitValueField), choices), rendered, show, patch) == rendered
  {
  }

  /** The injected choice keeps being rendered: after `setChoices(m)`,
      `getChoicesToRebuild` and any further reads, the UI string is still the
      document patched with m's first value. */
  lemma InjectedChoiceSurvivesReads<K, V>(p: Parameter<K, V>, m: ChoiceCache.ChoiceMap<K, V>, calls: seq<ChoiceCache.Call<K, V>>,
                                          eval: ChoiceCache.Evaluator<K, V>, rendered: string, show: V -> string, patch: TextareaPatch)
    requires p.config.choiceType == FormattedHtml && |m| > 0
    requires ChoiceCache.AllReads(calls)
    ensures var t := ChoiceCache.Run(p.choices, [ChoiceCache.SetChoicesCall(Some(m)), ChoiceCache.GetChoicesToRebuildCall] + calls, eval);
            ChoicesAsStringForUI(Parameter(p.config, t.last), rendered, show, patch)
              == patch(rendered, show(m[0].1)).GetOr(rendered)
  {
    ChoiceCache.InjectedChoicesAreServed(p.choices, m, calls, eval);
  }

  /** Switching the flag off turns the patch off. */
  lemma NotRebuildingRendersUnpatched<K, V>(p: Parameter<K, V>, rendered: string, show: V -> string, patch: TextareaPatch)
    ensures ChoicesAsStringForUI(SetRebuilding(p, false), rendered, show, patch) == rendered
  {
  }

  // --- form validation

  /** `FormValidation`: ok, or an error with its message. */
  datatype Validation = Ok | Error(message: string)

  /** `DescriptorImpl.doCheckRequired`: the value is stripped of whitespace
      and an error is reported exactly when nothing is left. A null value
      strips to null, which is not "", so it passes. */
  function CheckRequired(value: Option<string>): (r: Validation)
    ensures r.Error? <==> value.Some? && AllWhitespace(value.value)
    ensures r.Error? ==> r.message == "This field is required."
    ensures value.None? ==> r == Ok
  {
    var stripped := StripNullable(value);
    if stripped == Some("") then Error("This field is required.") else Ok
  }
}

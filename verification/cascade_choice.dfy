/**
 The reactive choice parameter: a select, check-box or radio list whose
 choices come from a script and follow the parameters it references.
 Besides the shared choice cache it stores a choice type, a nullable
 filter flag and a nullable filter length.
 */
module CascadeChoice {
  import opened Nullable
  import opened JavaStrings
  import opened ChoiceTypes
  import ChoiceCache

  /** A Java `Integer` value. */
  newtype Int32 = x: int | -0x8000_0000 <= x < 0x8000_0000

  /** The fields fixed at construction. */
  datatype Config = Config(choiceType: string, filterable: Option<bool>, filterLength: Option<Int32>)

  /** A parameter: its configuration and its choice cache. */
  datatype Parameter<K, V> = Parameter(config: Config, choices: ChoiceCache.State<K, V>)

  /** A parameter after a call that returns the choices, with what it returned. */
  datatype Answer<K, V> = Answer(param: Parameter<K, V>, choices: Option<ChoiceCache.ChoiceMap<K, V>>)

  /** The two deprecated constructors (without and with a random name): the
      choice type is defaulted, the filter flag kept as given, and no filter
      length is stored. */
  function NewDeprecated(choiceType: Option<string>, filterable: Option<bool>): (c: Config)
    ensures !IsBlank(Some(c.choiceType))
    ensures IsBlank(choiceType) ==> c.choiceType == SingleSelect
    ensures !IsBlank(choiceType) ==> Some(c.choiceType) == choiceType
    ensures c.filterable == filterable
    ensures c.filterLength.None?
  {
    Config(ChoiceTypeOrDefault(choiceType), filterable, None)
  }

  /** The data-bound constructor: as the deprecated ones, but the filter
      length is stored as given, null included. */
  function New(choiceType: Option<string>, filterable: Option<bool>, filterLength: Option<Int32>): (c: Config)
    ensures !IsBlank(Some(c.choiceType))
    ensures IsBlank(choiceType) ==> c.choiceType == SingleSelect
    ensures !IsBlank(choiceType) ==> Some(c.choiceType) == choiceType
    ensures c.filterable == filterable
    ensures c.filterLength == filterLength
  {
    Config(ChoiceTypeOrDefault(choiceType), filterable, filterLength)
  }

  /** `getFilterable`: the flag exactly as stored, possibly null. */
  function GetFilterable(c: Config): (r: Option<bool>)
    ensures r == c.filterable
  {
    c.filterable
  }

  /** `getFilterLength`: a missing length reads as 1. */
  function GetFilterLength(c: Config): (r: Int32)
    ensures c.filterLength.None? ==> r == 1
    ensures c.filterLength.Some? ==> r == c.filterLength.value
  {
    if c.filterLength.None? then 1 else c.filterLength.value
  }

  /** `getChoices`: only the cache changes, as the shared cache prescribes. */
  function GetChoices<K, V>(p: Parameter<K, V>, eval: ChoiceCache.Evaluator<K, V>): (r: Answer<K, V>)
    ensures r.param == p.(choices := r.param.choices)
    ensures ChoiceCache.Served(p.choices, eval, r.param.choices, r.choices)
  {
    var reply := ChoiceCache.GetChoices(p.choices, eval);
    Answer(p.(choices := reply.next), reply.choices)
  }

  /** `getChoicesToRebuild`: the flag is on afterwards, whatever it was,
      and the answer is the rebuilding-mode answer. */
  function GetChoicesToRebuild<K, V>(p: Parameter<K, V>, eval: ChoiceCache.Evaluator<K, V>): (r: Answer<K, V>)
    ensures r.param == p.(choices := r.param.choices)
    ensures r.param.choices.rebuilding
    ensures ChoiceCache.Served(p.choices.(rebuilding := true), eval, r.param.choices, r.choices)
  {
    var reply := ChoiceCache.GetChoicesToRebuild(p.choices, eval);
    Answer(p.(choices := reply.next), reply.choices)
  }

  /** `setChoices`: replaces the cached map; the flag, the choice type and
      the filter settings stay as they were. */
  function SetChoices<K, V>(p: Parameter<K, V>, m: Option<ChoiceCache.ChoiceMap<K, V>>): (q: Parameter<K, V>)
    ensures q.choices.cache == m
    ensures q.choices.rebuilding == p.choices.rebuilding && q.choices.evaluations == p.choices.evaluations
    ensures q.config == p.config
  {
    p.(choices := ChoiceCache.SetChoices(p.choices, m))
  }

  /** Both deprecated constructors leave the filter length to its default. */
  lemma DeprecatedFilterLengthIsOne(choiceType: Option<string>, filterable: Option<bool>)
    ensures GetFilterLength(NewDeprecated(choiceType, filterable)) == 1
  {
  }

  /** Construct-then-read: the filter settings read back as given, except
      that a null length reads as 1. */
  lemma FilterSettingsReadBack(choiceType: Option<string>, filterable: Option<bool>, filterLength: Option<Int32>)
    ensures GetFilterable(New(choiceType, filterable, filterLength)) == filterable
    ensures GetFilterLength(New(choiceType, filterable, filterLength)) == filterLength.GetOr(1)
  {
  }
}

# Active Choices reactive parameters — a Dafny model

This project models the two reactive parameter types of the Active Choices
build-parameter plugin:

- the **reactive choice parameter** (`CascadeChoiceParameter`), a choice list
  whose entries a script computes from the parameters it references, and
- the **reactive reference parameter** (`DynamicReferenceParameter`), which
  only renders a reference widget from its script's output.

Both keep a nullable cache of the last evaluated choice map next to the base
class's *rebuilding* flag. `getChoices` either serves that cache or runs the
script again. Which one it does depends on the flag. The two classes' cache methods are
identical in the source apart from logging. Both delegate here to one `ChoiceCache` module, so
their thin wrappers are identical too. The model states when the
script runs and what is returned, for single calls and for whole call
sequences. It also models:

- the constructor defaults (choice type, omit-value-field flag, filter
  settings) and the getters that read them. Each class keeps these in a
  `Config` record, next to its cache state. `getFilterable` is
  `CascadeChoice.GetFilterable`; `CascadeChoice.FilterSettingsReadBack`
  states what it returns;
- the branches of `getChoicesAsStringForUI`, which decide when the rendered
  HTML is patched with the cached choice;
- the `doCheckRequired` form validator.

Modules:

- `Nullable` — Java `null` as `Option`.
- `JavaStrings` — `Character.isWhitespace`, and `isBlank`, `defaultIfBlank`
  and `strip` from Apache Commons Lang.
- `ChoiceTypes` — the single-select default of the choice type, shared by
  both classes.
- `ChoiceCache` — the cache state machine and its call sequences.
- `DynamicReference` and `CascadeChoice` — one module per parameter class.

The script evaluator is an oracle `eval: nat -> Option<ChoiceMap>`. `eval(n)`
is what the (n+1)-th `super.getChoices()` call returns, and it may be null.
The state counts those calls, so the contracts can say when `getChoices`
runs the script. The evaluation done while rendering the choices as a string
is not counted. A choice map is a sequence of entries in its iteration order, because
the UI patch reads "the first entry". The Jsoup patch is an oracle too. It
returns the patched document, or null when the HTML has no `<textarea>`.

## Model

| member | source | states |
|---|---|---|
| JavaStrings.DefaultIfBlank | src/main/java/org/biouno/unochoice/DynamicReferenceParameter.java:101 | a null or whitespace-only string becomes the default; any other string is kept; a non-blank default gives a non-blank result |
| JavaStrings.StripStart | src/main/java/org/biouno/unochoice/DynamicReferenceParameter.java:245 | the result is a suffix of the input; everything dropped is whitespace; the result does not start with whitespace |
| JavaStrings.StripEnd | src/main/java/org/biouno/unochoice/DynamicReferenceParameter.java:245 | the result is a prefix of the input; everything dropped is whitespace; the result does not end with whitespace |
| JavaStrings.Strip | src/main/java/org/biouno/unochoice/DynamicReferenceParameter.java:245 | stripping gives "" exactly when the input is whitespace only; a non-empty result starts and ends with non-whitespace |
| JavaStrings.StripNullable | src/main/java/org/biouno/unochoice/DynamicReferenceParameter.java:245 | stripping null gives null, and a non-null string gives the non-null stripped string |
| JavaStrings.StripIsTrimmedSlice | src/main/java/org/biouno/unochoice/DynamicReferenceParameter.java:245 | the stripped string is a contiguous slice of the input with only whitespace before and after it |
| ChoiceTypes.ChoiceTypeOrDefault | src/main/java/org/biouno/unochoice/CascadeChoiceParameter.java:104 | a null or blank choice type becomes the single-select type; a non-blank one is kept verbatim; the stored type is never blank |
| ChoiceCache.GetChoices | src/main/java/org/biouno/unochoice/DynamicReferenceParameter.java:180-191 | `Served`: when not rebuilding, the script runs once and its answer is cached and returned; when rebuilding with a cache, the cache is returned and nothing changes; when rebuilding without one, the script runs once and fills it; the flag is never touched |
| ChoiceCache.SetRebuilding | src/main/java/org/biouno/unochoice/DynamicReferenceParameter.java:171-174 | writes the flag; cache and evaluation count unchanged |
| ChoiceCache.GetChoicesToRebuild | src/main/java/org/biouno/unochoice/DynamicReferenceParameter.java:197-201 | afterwards the flag is on whatever it was; a non-null cache is returned without running the script; a null one is filled by one evaluation |
| ChoiceCache.SetChoices | src/main/java/org/biouno/unochoice/DynamicReferenceParameter.java:203-205 | replaces the cache with the given map, null included; flag and evaluation count unchanged |
| ChoiceCache.CachedAnswerIsStable | src/main/java/org/biouno/unochoice/DynamicReferenceParameter.java:181-185 | rebuilding with a non-null cache, any sequence of reads returns the cache every time, runs no script and leaves the state unchanged |
| ChoiceCache.EveryReadEvaluatesWhenNotRebuilding | src/main/java/org/biouno/unochoice/CascadeChoiceParameter.java:161-164 | with the flag off, k reads run the script k times; read i returns evaluation i; the last answer stays cached |
| ChoiceCache.EvaluatesAtMostOnceWhileRebuilding | src/main/java/org/biouno/unochoice/CascadeChoiceParameter.java:156-160 | rebuilding with a cached answer or a non-null first evaluation, any number of reads run the script at most once and all return the same non-null map (idempotence) |
| ChoiceCache.NullAnswersAreNeverCached | src/main/java/org/biouno/unochoice/DynamicReferenceParameter.java:182-184 | rebuilding, while the script answers null, every read runs it again, because a null answer leaves the cache null |
| ChoiceCache.InjectedChoicesAreServed | src/main/java/org/biouno/unochoice/DynamicReferenceParameter.java:197-205 | after `setChoices(m)` with m non-null, `getChoicesToRebuild` and every later read return exactly m, and the script does not run |
| ChoiceCache.FlagIsSticky | src/main/java/org/biouno/unochoice/CascadeChoiceParameter.java:172-175 | without `setRebuilding`, the flag is on at the end exactly when it was on at the start or some call was `getChoicesToRebuild` |
| ChoiceCache.EvaluationsBoundedByReads | src/main/java/org/biouno/unochoice/CascadeChoiceParameter.java:155-165 | the evaluation count never decreases, and it grows by at most the number of calls that return choices (`getChoices` and `getChoicesToRebuild`), which is the number of answers |
| DynamicReference.New | src/main/java/org/biouno/unochoice/DynamicReferenceParameter.java:98-123 | both constructors: the choice type is defaulted to single-select when blank and kept otherwise; a null omit-value-field is stored as false, a non-null one as given |
| DynamicReference.GetChoices | src/main/java/org/biouno/unochoice/DynamicReferenceParameter.java:180-191 | only the cache state changes, and it changes as the shared cache prescribes (`ChoiceCache.Served`) |
| DynamicReference.GetChoicesToRebuild | src/main/java/org/biouno/unochoice/DynamicReferenceParameter.java:196-201 | the flag is on afterwards; the answer is the one `getChoices` gives in rebuilding mode; the configuration is unchanged |
| DynamicReference.SetChoices | src/main/java/org/biouno/unochoice/DynamicReferenceParameter.java:203-205 | only the cached map changes, to the given one |
| DynamicReference.SetRebuilding | src/main/java/org/biouno/unochoice/DynamicReferenceParameter.java:169-174 | only the flag changes, to the given value |
| DynamicReference.ChoicesAsStringForUI | src/main/java/org/biouno/unochoice/DynamicReferenceParameter.java:138-167 | the rendered string comes back unchanged unless the parameter is rebuilding, has a non-empty cache and is formatted HTML; then it is the patched document, or the unchanged string when no textarea is found |
| DynamicReference.Fresh | src/main/java/org/biouno/unochoice/DynamicReferenceParameter.java:84 | a newly constructed parameter keeps its configuration, has a null cache because the `choices` field has no initialiser, and has run no script yet |
| DynamicReference.NewParameterRendersUnpatched | src/main/java/org/biouno/unochoice/DynamicReferenceParameter.java:142-145 | a newly constructed parameter (`Fresh`) has a null cache, so it renders unpatched whatever its flag and choice type |
| DynamicReference.DefaultedTypeNeverPatched | src/main/java/org/biouno/unochoice/DynamicReferenceParameter.java:149-163 | a parameter constructed with a blank or null choice type is never patched, whatever its cache holds, because the single-select default is not formatted HTML |
| DynamicReference.InjectedChoiceSurvivesReads | src/main/java/org/biouno/unochoice/DynamicReferenceParameter.java:142-159 | after `setChoices(m)`, `getChoicesToRebuild` and any number of further reads, the UI string is still the document patched with m's first value |
| DynamicReference.NotRebuildingRendersUnpatched | src/main/java/org/biouno/unochoice/DynamicReferenceParameter.java:166 | with the flag switched off, the rendered string is returned unchanged |
| DynamicReference.CheckRequired | src/main/java/org/biouno/unochoice/DynamicReferenceParameter.java:244-250 | an error ("This field is required.") exactly when the value is non-null and whitespace only; a null value is ok |
| CascadeChoice.NewDeprecated | src/main/java/org/biouno/unochoice/CascadeChoiceParameter.java:101-127 | both deprecated constructors: the choice type is defaulted when blank and kept otherwise; the filter flag is stored as given, null included; the filter length is null |
| CascadeChoice.New | src/main/java/org/biouno/unochoice/CascadeChoiceParameter.java:141-148 | the choice type is defaulted when blank and kept otherwise; the filter flag and length are stored as given, null included |
| CascadeChoice.GetFilterable | src/main/java/org/biouno/unochoice/CascadeChoiceParameter.java:209-211 | returns the stored filter flag as given, null included |
| CascadeChoice.GetFilterLength | src/main/java/org/biouno/unochoice/CascadeChoiceParameter.java:217-219 | returns 1 when the stored length is null, the stored length otherwise |
| CascadeChoice.GetChoices | src/main/java/org/biouno/unochoice/CascadeChoiceParameter.java:154-165 | only the cache state changes, and it changes as the shared cache prescribes (`ChoiceCache.Served`) |
| CascadeChoice.GetChoicesToRebuild | src/main/java/org/biouno/unochoice/CascadeChoiceParameter.java:171-175 | the flag is on afterwards whatever it was; the answer is the rebuilding-mode answer; the configuration is unchanged |
| CascadeChoice.SetChoices | src/main/java/org/biouno/unochoice/CascadeChoiceParameter.java:181-184 | replaces the cached map; the flag, evaluation count, choice type, filter flag and filter length are unchanged |
| CascadeChoice.DeprecatedFilterLengthIsOne | src/main/java/org/biouno/unochoice/CascadeChoiceParameter.java:106-126 | a parameter from either deprecated constructor reads its filter length as 1 |
| CascadeChoice.FilterSettingsReadBack | src/main/java/org/biouno/unochoice/CascadeChoiceParameter.java:209-219 | after the data-bound constructor, `getFilterable` returns the flag as given, null included, and `getFilterLength` returns the length as given, or 1 for null |

## Left out

- Script evaluation and sandboxing (`super.getChoices()`, `getChoicesAsString(getParameters())`) belong to the abstract base classes, which are not part of this model. The evaluator is the oracle `eval`. The rendered string is a parameter of `ChoicesAsStringForUI`, and the model assumes that rendering does not touch this class's cache.
- The base class's rebuilding flag: its initial value is set by a base class that is not part of this model. It is therefore the `baseRebuilding` parameter of `DynamicReference.Fresh`. `isRebuilding`/`setRebuilding` are a plain read and write of a `bool`, so a null `Boolean` passed to `setRebuilding` is not modelled.
- `PARAMETER_TYPE_SINGLE_SELECT` is declared in a base class. `ChoiceTypes.SingleSelect` carries the plugin's value, and the proofs use only two facts: it is not blank, and it is not `ET_FORMATTED_HTML`.
- The Jsoup work in `getChoicesAsStringForUI` is the oracle `TextareaPatch`: parsing, `selectFirst("textarea")`, `text(...)` and `html()`. `toString()` of the first cached value is the oracle `show`. Values are non-null, so the exception `toString()` throws on a null first value is not modelled.
- ChoiceCache.ChoiceMap: a sequence of entries in iteration order. It does not enforce the key uniqueness of a Java `Map`, because nothing in the modelled code depends on it. Maps are values here. In Java, `setChoices` stores the caller's own map and `getChoices` returns the field itself, so the cache and its callers share one map by reference. Changes made through such a shared reference are not modelled. `CachedAnswerIsStable` and `InjectedChoicesAreServed` therefore hold in Java only while nobody mutates a map after passing it in or getting it back.
- CascadeChoice.Int32: the filter length is only stored and read back, so no wrap-around arises.
- JavaStrings.IsWhitespace: follows the current Unicode tables of `Character.isWhitespace`. Older JDKs also count U+180E, which is not included.
- JavaStrings: Java strings are sequences of UTF-16 code units; the model's strings are sequences of Unicode scalar values, so a string holding a lone surrogate cannot be represented. No result changes: every character `Character.isWhitespace` accepts is in the Basic Multilingual Plane, and no surrogate is whitespace.
- Getters that only return a field (`getChoiceType`, `getOmitValueField`) are the fields of the `Config` records.
- The constructor arguments handed to the base class (name, description, random name, script, referenced parameters) are not modelled.
- `DescriptorImpl.newInstance` and `getProject`: the walk over the request's ancestors is web-framework plumbing with mutable descriptor state.
- `instantiate`: reflection through `Class.forName`.
- Logging, display names, serial version ids, and the annotation-driven binding (`@DataBoundConstructor`, `@JavaScriptMethod`, `@Extension`, `@QueryParameter`).
- Concurrency: the cache field is shared and unguarded. The model is sequential.

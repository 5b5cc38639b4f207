# Survey — a Dafny model of `org.ohmage.domain.campaign.Survey`

This project models the ohmage campaign **survey**. A survey is an immutable definition holding:

- an id, a title, an optional description and intro text, a submit text and an `anytime` flag;
- a map from index to survey item. Each item is a prompt, a repeatable set of further items, or a message.

The constructor validates its arguments and copies the item map. It derives two indexes of the top-level items: the prompts by id and the repeatable sets by id.

The survey can do four things:

- count its items and prompts;
- look items up by id or by index, and prompts by id;
- render itself as a JSON object (`toJson`);
- write the Concordia schema of a survey response to a streaming JSON generator (`toConcordia`).

It also defines `equals` and `hashCode`.

The modules follow the source:

| file | module | what it holds |
|---|---|---|
| `wrappers.dfy` | `Wrappers` | `Option` (Java null) and `Result` (a thrown `DomainException`) |
| `java_strings.dfy` | `JavaStrings` | `String.trim()` and `StringUtils.isEmptyOrWhitespaceOnly` |
| `java_ints.dfy` | `JavaInts` | 32-bit `int` wrap-around, for `hashCode` |
| `indices.dfy` | `Indices` | the sorted key list of `Collections.sort`, sums over maps, picking from a non-empty set |
| `json.dfy` | `Json` | org.json values, and `JSONObject.put` including its null-removes-the-key rule |
| `json_sink.dfy` | `JsonSink` | the Jackson generator as the sequence of calls made on it; bracket balance |
| `survey_items.dfy` | `SurveyItems` | the survey items as the survey sees them (counts, nested lookups, a prompt's schema fragment) |
| `survey.dfy` | `Surveys` | the survey itself: constructor, indexes, counts, lookups, `toJson`, `toConcordia`, `equals`, `hashCode` |

Each survey operation is modelled in the same style as the source code:

- The constructor, the counts, the lookups and the two renderers loop over maps. They are modelled as methods with loops and invariants.
- A `HashMap` is iterated in an unspecified order. The model's loops pick an arbitrary remaining key with `:|`. Each contract therefore holds for every iteration order.
- The two renderers loop over the sorted key list. The model does the same.
- Each method is proved against a specification function: `ItemCounts`, `JsonFields`, `ConcordiaSchema` and others.
- The properties the source promises are lemmas about those functions.

## Model

| member | source | states |
|---|---|---|
| Surveys.NewSurvey | src/org/ohmage/domain/campaign/Survey.java:114-156 | a blank id, then a blank title, then a blank submit text, then a null or empty item map each fail with their own error, in that order; otherwise the survey holds exactly the given fields and items, and its indexes are the constructor's (`Valid`) |
| Surveys.BuildIndexes | src/org/ohmage/domain/campaign/Survey.java:145-155 | after the pass over the item values, the prompt index holds an entry for the id of every top-level prompt and nothing else; the same holds for the repeatable-set index; each entry is a top-level item of its kind with that id |
| Surveys.PassStep | src/org/ohmage/domain/campaign/Survey.java:148-154 | one step of the pass keeps the invariant: prompts go to the prompt index, repeatable sets to the set index, messages nowhere |
| Surveys.IndexKeys | src/org/ohmage/domain/campaign/Survey.java:145-155 | the keys of an index are exactly the ids of the top-level items of its kind |
| Surveys.IndexContents | src/org/ohmage/domain/campaign/Survey.java:145-155 | a built survey indexes exactly its top-level prompt ids and repeatable-set ids, each under its own id; no message is in either index |
| Surveys.IndexDetermined | src/org/ohmage/domain/campaign/Survey.java:145-155 | when top-level ids are unique, the index does not depend on the order of the pass |
| Surveys.NumSurveyItems | src/org/ohmage/domain/campaign/Survey.java:219-227 | the total is the sum over the top-level items of each one's `getNumSurveyItems()`, whatever the iteration order |
| Surveys.NumPrompts | src/org/ohmage/domain/campaign/Survey.java:234-242 | the total is the sum over the top-level items of each one's `getNumPrompts()`, whatever the iteration order |
| SurveyItems.CountsBounded | src/org/ohmage/domain/campaign/Survey.java:222-224 | an item counts no more prompts than items, and never a negative number |
| Surveys.PromptsAtMostItems | src/org/ohmage/domain/campaign/Survey.java:219-242 | a survey's prompt count lies between zero and its item count |
| Surveys.GetSurveyItemById | src/org/ohmage/domain/campaign/Survey.java:263-293 | a null or blank id is an error, and only then; otherwise the result is absent exactly when no top-level item matches, and a found item is what some top-level item's match yields |
| SurveyItems.MatchItemSound | src/org/ohmage/domain/campaign/Survey.java:271-287 | what one item's match yields has the id searched for, is not a message, and lies inside that item |
| SurveyItems.MatchItemComplete | src/org/ohmage/domain/campaign/Survey.java:271-287 | every non-message item with the id, at any depth inside an item, makes that item's match succeed |
| Surveys.SurveyItemFound | src/org/ohmage/domain/campaign/Survey.java:263-293 | the lookup by id finds something exactly when a prompt or repeatable set with that id lies, at any depth, in the survey |
| Surveys.GetSurveyItemByIndex | src/org/ohmage/domain/campaign/Survey.java:302-310 | a found item is a top-level item whose own index is the argument; nothing is found exactly when no top-level item has that index |
| Surveys.GetPrompt | src/org/ohmage/domain/campaign/Survey.java:320-335 | a top-level prompt with the id is returned first; otherwise some repeatable set's prompt lookup answers, and nothing is found exactly when every set's lookup fails; any result is a prompt with that id |
| SurveyItems.FindPromptInSetSound | src/org/ohmage/domain/campaign/Survey.java:326-331 | a prompt a set's lookup yields is a prompt with that id inside the set |
| SurveyItems.FindPromptInSetComplete | src/org/ohmage/domain/campaign/Survey.java:326-331 | every prompt with the id, at any depth inside a set, is found by the set's lookup |
| Surveys.PromptFoundSound | src/org/ohmage/domain/campaign/Survey.java:320-335 | whatever `getPrompt` can find lies, at some depth, in the survey |
| Surveys.PromptFoundComplete | src/org/ohmage/domain/campaign/Survey.java:320-335 | when top-level ids are unique, a lookup by the id of any prompt in the survey, at any depth, finds a prompt with that id (not necessarily that one, when several share the id) |
| Indices.SortedIndicesSpec | src/org/ohmage/domain/campaign/Survey.java:402-404 | the sorted key list holds each key once, in strictly ascending order, and has as many entries as there are keys |
| Indices.SortedPair | src/org/ohmage/domain/campaign/Survey.java:402-404 | two keys sort into ascending order |
| Surveys.KeptMembers | src/org/ohmage/domain/campaign/Survey.java:406-416 | an ordered pass with a filter keeps exactly the listed keys whose items pass the filter |
| Surveys.KeptIncreasing | src/org/ohmage/domain/campaign/Survey.java:406-416 | a filtered ascending key list is still strictly ascending |
| Surveys.KeptAll | src/org/ohmage/domain/campaign/Survey.java:407-408 | with no id filter every key is kept |
| Surveys.KeptIndicesOrder | src/org/ohmage/domain/campaign/Survey.java:402-416 | the kept keys are strictly ascending and are exactly the keys whose items pass the filter; with no filter they are all keys, in sorted order |
| Surveys.ToJson | src/org/ohmage/domain/campaign/Survey.java:362-422 | the object built by the seven guarded `put`s is the one `JsonFields` describes |
| Surveys.RenderItems | src/org/ohmage/domain/campaign/Survey.java:399-416 | the items array is the JSON of the kept items, in the order of the key list |
| Surveys.RenderAllSpec | src/org/ohmage/domain/campaign/Survey.java:406-416 | the rendered array has one element per kept key, each the JSON of that key's item |
| Json.ApplyPutsSnoc | src/org/ohmage/domain/campaign/Survey.java:375-397 | a run of guarded puts extended by one applies that put last |
| Json.ApplyPutsKeys | src/org/ohmage/domain/campaign/Survey.java:373-421 | a run of guarded puts on a fresh object writes no key outside the run's keys |
| Json.ApplyPutsAt | src/org/ohmage/domain/campaign/Survey.java:373-421 | with distinct keys, a key is present exactly when its flag is set and its value is not null, and it then holds that value |
| Json.PutFacts | src/org/ohmage/domain/campaign/Survey.java:383-389 | after a `put` the key holds the value, or is gone when the value is null, and no other key changes |
| Surveys.JsonFieldsAsPuts | src/org/ohmage/domain/campaign/Survey.java:373-421 | the object of `toJson` is the result of its seven guarded puts applied in order |
| Surveys.JsonFieldsContents | src/org/ohmage/domain/campaign/Survey.java:373-421 | each flag alone decides whether its key is present, and the key then holds the survey's field; a null description or intro text leaves its key out even when its flag is set; no other key appears |
| Surveys.JsonItems | src/org/ohmage/domain/campaign/Survey.java:399-419 | with `withSurveyItems`, the "prompts" array holds the JSON of exactly the items the id filter keeps (all items with no filter), one element per item, in strictly ascending index order |
| SurveyItems.WriteFieldSchema | src/org/ohmage/domain/campaign/Survey.java:455-466 | writes the object naming a value and its type |
| SurveyItems.FieldSchema | src/org/ohmage/domain/campaign/Survey.java:455-466 | the schema of a named value is balanced and names it |
| Surveys.ToConcordia | src/org/ohmage/domain/campaign/Survey.java:436-529 | the calls made on the generator append exactly `ConcordiaSchema(s, promptId)` to what it held |
| Surveys.ConcordiaSchema | src/org/ohmage/domain/campaign/Survey.java:436-529 | every object and array the schema opens is closed, by an end of its own kind, in nesting order |
| Surveys.WriteLaunchContext | src/org/ohmage/domain/campaign/Survey.java:446-479 | the launch-context writes append exactly `LaunchContextSchema()` |
| Surveys.LaunchContextSchema | src/org/ohmage/domain/campaign/Survey.java:446-479 | the launch-context schema is balanced |
| Surveys.WriteTriggersSchema | src/org/ohmage/domain/campaign/Survey.java:468-475 | the active-triggers writes append exactly `TriggersSchema()` |
| Surveys.TriggersSchema | src/org/ohmage/domain/campaign/Survey.java:468-475 | the active-triggers schema is balanced |
| Surveys.ConcordiaLaunchContext | src/org/ohmage/domain/campaign/Survey.java:446-479 | whatever the prompt id, the schema contains the launch context: launch time as a number, time zone as a string, active triggers as an array of strings |
| Surveys.LaunchContextParts | src/org/ohmage/domain/campaign/Survey.java:454-475 | the launch-context schema contains its three field schemas |
| Surveys.WriteResponsesSchema | src/org/ohmage/domain/campaign/Survey.java:481-524 | the responses writes append exactly `ResponsesSchema(ResponseFragments(s, promptId))` |
| Surveys.ResponsesBalanced | src/org/ohmage/domain/campaign/Survey.java:481-524 | balanced response schemas make a balanced array of responses |
| Surveys.WriteResponseList | src/org/ohmage/domain/campaign/Survey.java:487-520 | with no prompt id the schemas of all items are written; with one, the indexed prompt's schema, or nothing when the id is not indexed |
| Surveys.ResponseFragments | src/org/ohmage/domain/campaign/Survey.java:487-520 | the response schemas are balanced |
| Surveys.WriteAllResponses | src/org/ohmage/domain/campaign/Survey.java:489-513 | the sorted pass appends exactly `AllFragments(surveyItems)` |
| Surveys.WriteResponses | src/org/ohmage/domain/campaign/Survey.java:493-512 | the loop appends a prompt's schema for each prompt and nothing for a message or a repeatable set, in the order of the key list |
| Surveys.Fragments | src/org/ohmage/domain/campaign/Survey.java:493-512 | the schemas the loop writes are balanced |
| Surveys.FragmentsStep | src/org/ohmage/domain/campaign/Survey.java:497-511 | one turn of the loop: a prompt adds its schema, anything else adds nothing |
| Surveys.FragmentsArePrompts | src/org/ohmage/domain/campaign/Survey.java:493-512 | the loop's output is the schemas of exactly the prompts among the listed keys, in their order |
| Surveys.ConcordiaAllPrompts | src/org/ohmage/domain/campaign/Survey.java:489-513 | with no prompt id, the responses list one schema for each top-level prompt, in strictly ascending index order, and nothing for messages or repeatable sets |
| Surveys.ConcordiaSinglePrompt | src/org/ohmage/domain/campaign/Survey.java:515-520 | with a prompt id, the responses are the schema of a top-level prompt with that id, or empty when no top-level item with that id is a prompt |
| Surveys.Equals | src/org/ohmage/domain/campaign/Survey.java:555-574 | `equals` holds exactly when the ids and the item maps are equal; the title, texts and `anytime` flag are not compared |
| Surveys.EqualsSameCounts | src/org/ohmage/domain/campaign/Survey.java:555-574 | surveys that are `equals` report the same item and prompt counts |
| Surveys.EqualsIsEquivalence | src/org/ohmage/domain/campaign/Survey.java:555-574 | `equals` is reflexive, symmetric and transitive; it compares only the id and the item map |
| Surveys.EqualsSameIndexes | src/org/ohmage/domain/campaign/Survey.java:555-574 | equal surveys index the same ids and, when top-level ids are unique, the same items |
| Surveys.HashCode | src/org/ohmage/domain/campaign/Survey.java:537-544 | the hash code is a 32-bit `int` |
| Surveys.HashCodeValue | src/org/ohmage/domain/campaign/Survey.java:537-544 | the hash, computed step by step in `int` arithmetic, is `961 + 31 * id.hashCode() + surveyItems.hashCode()`, wrapped once to 32 bits |
| Surveys.EqualsHashCode | src/org/ohmage/domain/campaign/Survey.java:537-574 | surveys that are `equals` have the same hash code |
| JavaInts.Wrap | src/org/ohmage/domain/campaign/Survey.java:540-542 | the wrapped value is a 32-bit `int`, and an `int` is unchanged by it |
| JavaInts.WrapStep | src/org/ohmage/domain/campaign/Survey.java:540-542 | wrapping an intermediate result along the way does not change the final wrapped value |
| JavaStrings.BlankIffAllTrimmed | src/org/ohmage/domain/campaign/Survey.java:124-132 | a string is blank exactly when every character is one that `trim()` strips |
| JavaStrings.TrimStart | src/org/ohmage/domain/campaign/Survey.java:124-132 | removes exactly the leading stripped characters |
| JavaStrings.TrimEnd | src/org/ohmage/domain/campaign/Survey.java:124-132 | removes exactly the trailing stripped characters |
| Surveys.ExampleValid | src/org/ohmage/domain/campaign/Survey.java:114-156 | a survey with a prompt and a repeatable set holding one prompt, non-blank texts and the derived indexes satisfies everything the constructor establishes (`Valid`) |
| Surveys.ExampleCounts | src/org/ohmage/domain/campaign/Survey.java:219-242 | that survey counts two items and two prompts: the set counts what it holds, not itself |
| Surveys.ExampleLookup | src/org/ohmage/domain/campaign/Survey.java:263-293 | looking up the nested prompt's id finds it, and only it |
| Surveys.ExampleConcordia | src/org/ohmage/domain/campaign/Survey.java:489-513 | with no prompt id, `toConcordia` of that survey lists the top-level prompt alone |

## Left out

- Getters (`getId`, `getTitle`, `getDescription`, `getIntroText`, `getSubmitText`, `anytime`, `getSurveyItems`): they are the fields of the `Survey` datatype. The map `getSurveyItems` returns is wrapped as unmodifiable. That wrapper is not modelled, since the value cannot be mutated anyway.
- The survey item classes (`Prompt`, `RepeatableSet`, `Message` and the concrete prompt kinds) are not part of this model. The survey only calls methods on them. Each such call is given a definition in `SurveyItems`, stated as the behaviour the survey relies on:
  - `getNumSurveyItems` and `getNumPrompts` are `ItemCount` and `PromptCount`;
  - a repeatable set's `getSurveyItem` is `FindInSet` and its `getPrompt` is `FindPromptInSet`. When several entries match, both pick the least index;
  - a prompt's `toConcordia` is `ConcordiaFragment`;
  - an item's `toJson` is the parameter `itemJson`.
- The values of `SurveyResponse.JSON_KEY_SURVEY_LAUNCH_CONTEXT`, `SurveyResponse.JSON_KEY_RESPONSES` and `LaunchContext.JSON_KEY_LAUNCH_TIME` / `_LAUNCH_TIMEZONE` / `_ACTIVE_TRIGGERS` come from files that are not part of this model. They are taken to be `survey_launch_context`, `responses`, `launch_time`, `launch_timezone` and `active_triggers`. No proof depends on these values.
- `StringUtils.isEmptyOrWhitespaceOnly` is not part of this model. It is taken to hold for null or for a string that `String.trim()` empties.
- `String.hashCode` and `HashMap.hashCode` are parameters of `HashCode`.
- Surveys.EqualsHashCode: `itemsHash` is a function of the item map's value. That typing assumes the unseen `SurveyItem.hashCode` agrees with `SurveyItem.equals`. It is the whole reason the lemma holds; the source's own `hashCode` for items is not part of this model.
- Surveys.Equals: compares item maps with Dafny's structural equality. That stands in for `HashMap.equals` over the unseen `SurveyItem.equals`, which is not part of this model.
- `equals` against null or against an object of another class, and the `this == obj` shortcut, are not modelled. The model compares two surveys.
- `JSONException`, `JsonGenerationException` and `IOException` are not modelled. Writing to the generator always succeeds in the model.
- The Jackson generator is modelled as the sequence of calls made on it, not as the text it produces.
- `WriteLaunchContext`, `WriteTriggersSchema`, `WriteResponsesSchema`, `WriteResponseList`, `WriteAllResponses`, `WriteResponses` and `WriteFieldSchema` group straight-line calls that `toConcordia` makes inline. They split one long method into parts the verifier can check. The calls they make, and the order of those calls, are the source's.
- Surveys.NumSurveyItems: sums in unbounded integers. The source's `int` total would wrap around past 2^31 - 1 items. A survey that large is not a case the source handles on purpose.
- Surveys.NumPrompts: sums in unbounded integers, for the same reason.
- Surveys.PromptFoundComplete: requires top-level ids to be unique. When two repeatable sets share an id, the index keeps only one of them. A prompt inside the other set is then not found.
- Surveys.GetSurveyItemById: the source iterates the map's values in `HashMap` order. The model allows any order and therefore names no particular match when several items match. An ascending-index search order would name one; the code does not guarantee it, and the model follows the code.
- Surveys.GetPrompt: like the lookup by id, the order in which the repeatable sets are tried is left open.
- Surveys.GetPrompt: takes a non-null id. The source accepts null and never throws: `prompts.get(null)` yields null, then each set's `getPrompt(null)` is asked. What a set answers for null is not part of this model, so the null case is not modelled.
- Surveys.NewSurvey: the item map cannot hold a null item. In the source a null value passes the constructor: its `instanceof` tests skip it, although the constructor's documentation says null values are rejected. The counts and `toJson` would then throw a `NullPointerException`, and `toConcordia` would skip the item. None of these null-item paths is modelled.
- The rest of the repository (campaign parsing, response validation, conditions, the server layers) is not part of this model.

# Model aggregation endpoint and model picker, in Dafny

This project models two pieces of a web app that generates websites with
language models:

- **The aggregation endpoint**, `GET /api/get-models/all`
  (app/api/get-models/all/route.ts).
  - It walks the configured providers in order and asks each provider's
    client for its models.
  - Every provider becomes one group `{ provider, models }`, except
    OpenRouter.
  - For OpenRouter, the endpoint downloads the public model listing and
    groups it by company. The company is the entry's `organization`, else
    its `provider`, else the part of its `id` before the first `/`, else
    `"Other"`. Each company becomes one group, in the order in which `for…in`
    visits the keys of the dictionary the group-by built.
  - A provider whose calls throw is skipped.
  - A failure outside the per-provider loop gives status 500.
- **The model picker** of the welcome view (components/welcome-view.tsx).
  - It loads those groups once and splits them into OpenRouter company
    groups and other providers.
  - A dropdown chooses which company group is shown.
  - It decides when the generate button is enabled and reads the max-tokens
    input with `parseInt`.
  - The click and input handlers update the selection state.

Modules:

- `Seqs`: order-preserving filter, distinctness and counts.
- `JsValues`: `undefined`-or-string values, truthiness and `||`.
- `JsStrings`: `trim`, `split('/')[0]` and `parseInt(s, 10)`, following
  section 19.2.5 of ECMA-262.
- `JsObjectKeys`: the `for…in` order of a plain object's own keys, following
  section 10.1.11.1 of ECMA-262: array-index keys ascending, then the other
  keys in creation order. It also lists the property names a plain object
  inherits from `Object.prototype`.
- `Models`: the group and model records both sides exchange.
- `ModelAggregator`: the endpoint. Its loops are modelled as imperative
  methods. Each method is proved equal to a specification function, and the
  properties are proved about those functions.
- `ModelPicker`: the view's derivations as functions, and a `Picker` class
  whose methods are the state updates.
- `EndpointToPicker`: the picker fed with what the endpoint produces.

The network calls are parameters of the model, and so is the provider
registry:

- the registry is a list of providers, or `None` when reading it throws;
- each provider's `getModels()` outcome;
- OpenRouter's listing, which can throw, have a `data` field that is not an
  array, or be a list of entries;
- the outcome of the client's fetch.

Company groups come out in `for…in` order. That is first-appearance order
only when no company is an array index: `"42"` is one, `"01"` is not, and an
array-index company comes before all others. `ForInOrder` models that order,
and `CompanyGroupsInFirstAppearanceOrder` proves that the groups follow
first-appearance order when no company is an array index.

The endpoint's group-by uses a plain object as its dictionary, which goes
wrong for company names inherited from `Object.prototype` (see "## Findings").
`GroupByCompanyAsWritten` and `ContributeAsWritten` model that code as it
is. `GroupByCompany`, `Contribute`, `Get`, `Serve`, `Aggregate` and the
`EndpointToPicker` lemmas use the corrected grouping, which gives every
company its own list.

The view shows `openRouterGroups.find(...) || openRouterGroups[0]`
(components/welcome-view.tsx:103), while its dropdown displays
`selectedOpenRouterCompany || openRouterCompanies[0] || ""` (line 155). The
two name the same group only when every OpenRouter group has a non-empty
label. With the groups [company "b", a group with no company and the name
`""`] and nothing chosen, the view shows the second group and the dropdown
displays "b". The endpoint never builds such a group, because every company
key is non-empty, so `DropdownMatchesCompanyGroups` holds without that
hypothesis.

## Model

| member | source | states |
|---|---|---|
| ModelAggregator.CompanyKey | app/api/get-models/all/route.ts:27-31 | the company key is never the empty string |
| ModelAggregator.CompanyKeyChain | app/api/get-models/all/route.ts:27-31 | the key is the organization if non-empty, else the provider if non-empty, else the id's first `/`-segment if non-empty, else "Other" |
| ModelAggregator.CompanyKeyFromId | app/api/get-models/all/route.ts:30-31 | without organization and provider, an id without `/` is its own key; the key is "Other" exactly when the id is missing or empty, starts with `/`, or its first segment is "Other"; otherwise the key is a `/`-free prefix of the id |
| ModelAggregator.IdCompany | app/api/get-models/all/route.ts:30 | `model.id && model.id.split('/')[0]` is a missing or empty id unchanged, and otherwise the part of the id before its first `/` |
| ModelAggregator.ToModel | app/api/get-models/all/route.ts:33-37 | the pushed model keeps the id, takes the name or else the id, and takes the description or else `''` |
| ModelAggregator.CompanyGroup | app/api/get-models/all/route.ts:41-50 | a company group carries the provider id, the name "OpenRouter (c)", the description "Models by c via OpenRouter", isLocal false, no examples, company c and the given models |
| ModelAggregator.DistinctKeys | app/api/get-models/all/route.ts:32 | the dictionary gains each company once, and its keys are exactly the companies of the entries |
| ModelAggregator.GroupByCompany | app/api/get-models/all/route.ts:24-38 | after the loop the dictionary's keys are the companies in creation order, and each maps to the models of exactly its entries, in listing order |
| ModelAggregator.EmitCompanyGroups | app/api/get-models/all/route.ts:40-51 | the `for…in` loop emits one company group per visited key, in visiting order |
| ModelAggregator.CompanyGroupsOf | app/api/get-models/all/route.ts:22-52 | the OpenRouter branch yields the company groups of the listing in `for…in` order |
| ModelAggregator.CompanyGroups | app/api/get-models/all/route.ts:24-51 | there is one group per company of the listing; together they hold as many models as the listing has entries; each names the provider and a company |
| ModelAggregator.DefaultGroup | app/api/get-models/all/route.ts:56-64 | the single group of a provider carries its id, name, description and isLocal, its examples or else `[]`, no company, and the given models |
| ModelAggregator.Contribution | app/api/get-models/all/route.ts:11-69 | a failed provider adds nothing; every group added names the provider; OpenRouter with an array listing adds as many models as it lists; any other provider adds one group holding its client's models |
| ModelAggregator.Contribute | app/api/get-models/all/route.ts:11-69 | the per-provider body, with its `continue`s and the caught failures, adds exactly `Contribution` |
| ModelAggregator.Aggregate | app/api/get-models/all/route.ts:9-70 | every group in the response names one of the configured providers |
| ModelAggregator.Get | app/api/get-models/all/route.ts:6-79 | the endpoint's loop, with `continue` and the per-provider `try`/`catch`, answers the specified response `Serve`, built with the corrected grouping |
| ModelAggregator.Serve | app/api/get-models/all/route.ts:72-77 | status 500 with "Error fetching all models" occurs exactly when reading the registry throws |
| ModelAggregator.ModelsOfNonEmpty | app/api/get-models/all/route.ts:32-37 | a company has models exactly when some entry is attributed to it |
| ModelAggregator.ModelsOfAppend | app/api/get-models/all/route.ts:25-37 | grouping keeps listing order within a company |
| ModelAggregator.ModelsOfSound | app/api/get-models/all/route.ts:33-37 | every model of a company comes from an entry with that company |
| ModelAggregator.ModelInModelsOf | app/api/get-models/all/route.ts:32-37 | every entry's model is among its company's models |
| ModelAggregator.DistinctKeysFirstAppearance | app/api/get-models/all/route.ts:32 | dictionary keys are created in order of first appearance |
| ModelAggregator.CompanyGroupShape | app/api/get-models/all/route.ts:40-51 | each company group has id `openrouter`, the name "OpenRouter (c)", the description "Models by c via OpenRouter", isLocal false and company c; it holds exactly c's models and is non-empty |
| ModelAggregator.CompanyGroupsCover | app/api/get-models/all/route.ts:40-51 | a company has a group exactly when some entry is attributed to it |
| ModelAggregator.CompanyGroupsDistinct | app/api/get-models/all/route.ts:40-51 | no two company groups share a company |
| ModelAggregator.EntryInItsGroup | app/api/get-models/all/route.ts:25-51 | every listing entry lands in the group of its company |
| ModelAggregator.CompanyGroupsInFirstAppearanceOrder | app/api/get-models/all/route.ts:40 | when no company is an array-index string, groups follow first-appearance order |
| ModelAggregator.AggregateAppend | app/api/get-models/all/route.ts:9-70 | the response is the providers' contributions concatenated in provider order |
| ModelAggregator.SkipFailedProvider | app/api/get-models/all/route.ts:66-69 | a provider whose client or listing throws can be removed without changing the response, so later providers are unaffected |
| ModelAggregator.AllProvidersFail | app/api/get-models/all/route.ts:66-71 | when every provider fails, because its client throws or, for OpenRouter, its listing request throws, the answer is status 200 with an empty list |
| ModelAggregator.PlainProviderGroup | app/api/get-models/all/route.ts:55-65 | a provider other than OpenRouter yields one group with its id, name, description, isLocal and examples (default `[]`) and its models unchanged |
| ModelAggregator.OpenRouterContribution | app/api/get-models/all/route.ts:15-53 | OpenRouter yields nothing if the listing throws, its default group if `data` is not an array, and otherwise only company groups holding every listed model (none for an empty array) |
| ModelAggregator.GroupStep | app/api/get-models/all/route.ts:32-37 | one pass of the group-by keeps the dictionary equal to the specification of the entries seen so far |
| ModelAggregator.PushAsWritten | app/api/get-models/all/route.ts:32-37 | one pass on a plain object throws exactly when the company is an inherited name, and otherwise updates the dictionary as specified |
| ModelAggregator.GroupByCompanyAsWritten | app/api/get-models/all/route.ts:24-38 | the group-by on a plain object throws exactly when some company is an inherited name, and otherwise agrees with the specification |
| ModelAggregator.ContributionAsWritten | app/api/get-models/all/route.ts:11-69 | as written, OpenRouter adds nothing when its listing has an inherited company name; every other provider, and OpenRouter on any other listing, adds the same groups as the corrected `Contribution` |
| ModelAggregator.ContributeAsWritten | app/api/get-models/all/route.ts:11-69 | the per-provider body with the plain-object group-by `GroupByCompanyAsWritten` adds exactly `ContributionAsWritten` |
| ModelAggregator.InheritedCompanyDropsAll | app/api/get-models/all/route.ts:32-33 | with an inherited company name, the code as written drops all of OpenRouter, while the corrected grouping keeps every listed model |
| ModelAggregator.InheritedCompanyDropsOpenRouter | app/api/get-models/all/route.ts:32-33 | a two-entry listing where one organization is "constructor": as written, no OpenRouter model is returned; corrected, both are |
| JsStrings.SplitHead | app/api/get-models/all/route.ts:30 | `split('/')[0]` is the longest `/`-free prefix |
| JsObjectKeys.ForInOrder | app/api/get-models/all/route.ts:40 | `for…in` visits a permutation of the own keys |
| JsObjectKeys.ForInOrderPermutation | app/api/get-models/all/route.ts:40 | `for…in` visits every own key exactly once |
| JsObjectKeys.ForInOrderShape | app/api/get-models/all/route.ts:40 | `for…in` visits the array-index keys in ascending order, then the others in creation order |
| JsObjectKeys.ForInOrderNoIndexKeys | app/api/get-models/all/route.ts:40 | without array-index keys, `for…in` follows creation order |
| JsObjectKeys.ForInOrderDistinct | app/api/get-models/all/route.ts:40 | `for…in` never visits a key twice |
| ModelPicker.LoadedGroups | components/welcome-view.tsx:84-91 | the view keeps the loaded groups, or the empty list when the fetch threw or was not ok |
| ModelPicker.OpenRouterGroups | components/welcome-view.tsx:98 | the OpenRouter groups are fetched groups whose provider id is `openrouter` |
| ModelPicker.OtherGroups | components/welcome-view.tsx:99 | the other groups are fetched groups whose provider id is not `openrouter` |
| ModelPicker.PartitionGroups | components/welcome-view.tsx:98-99 | OpenRouter and other groups split the groups: lengths add up, every group is in one part as often as fetched, and each part has the right provider id |
| ModelPicker.PartitionAppend | components/welcome-view.tsx:98-99 | both filters keep the fetched order |
| ModelPicker.Companies | components/welcome-view.tsx:100 | there is one company entry per OpenRouter group |
| ModelPicker.CompaniesAt | components/welcome-view.tsx:100 | the i-th company entry is the i-th group's company, or else its name |
| ModelPicker.CompanyLabel | components/welcome-view.tsx:100 | a group's label is its company when that is a non-empty string, else its name |
| ModelPicker.FindByLabel | components/welcome-view.tsx:103 | the search finds the first group with the label, or reports that none has it |
| ModelPicker.SelectedGroup | components/welcome-view.tsx:103 | the shown group is one of the OpenRouter groups, and there is none exactly when there is no OpenRouter group |
| ModelPicker.SelectedGroupChoice | components/welcome-view.tsx:103 | the shown group is the first group with the selected company, else the first group; there is none exactly when there is no OpenRouter group |
| ModelPicker.ChosenCompanyShown | components/welcome-view.tsx:103 | choosing a listed company shows a group with that company and the dropdown shows it too |
| ModelPicker.FirstCompanyShown | components/welcome-view.tsx:103 | with nothing chosen and every OpenRouter group's label non-empty, the first group is shown and the dropdown shows its label |
| ModelPicker.DropdownValue | components/welcome-view.tsx:155 | the dropdown shows the chosen company, else the first company, else `""` |
| ModelPicker.DropdownMatchesShownGroup | components/welcome-view.tsx:155-171 | when labels are non-empty and the choice is unset or listed, the dropdown names the group that is shown |
| ModelPicker.VisibleGroups | components/welcome-view.tsx:142-198 | while loading nothing is shown; afterwards every other provider's group, after exactly one OpenRouter group when there is any, and that group is `SelectedGroup`, the find-or-first group of line 103 |
| ModelPicker.IsHighlighted | components/welcome-view.tsx:185 | a button is highlighted when its model id is the selected model and its group's provider id the selected provider (also line 220) |
| ModelPicker.GenerateDisabled | components/welcome-view.tsx:128 | generate is disabled exactly when the prompt is all whitespace or no model is selected |
| JsStrings.Trim | components/welcome-view.tsx:128 | `trim()` gives the empty string exactly when every character is whitespace, and otherwise a string that starts and ends with a non-whitespace character |
| ModelPicker.MaxTokensFromInput | components/welcome-view.tsx:286-288 | a stored max-tokens value is positive, and an empty input stores `undefined` |
| ModelPicker.MaxTokensDisplay | components/welcome-view.tsx:285 | the text the input shows reads back through the handler as the stored value when it is positive, and as `undefined` otherwise |
| ModelPicker.MaxTokensRoundTrip | components/welcome-view.tsx:285-288 | typing a positive count stores it, and the text the input then shows reads back as the same count |
| ModelPicker.MaxTokensRejectsNonPositive | components/welcome-view.tsx:287-288 | zero and negative counts store `undefined` |
| ModelPicker.MaxTokensRejectsExamples | components/welcome-view.tsx:287-288 | "0" and "-5" store `undefined` |
| ModelPicker.MaxTokensAcceptsExample | components/welcome-view.tsx:287-288 | "500" stores 500 |
| ModelPicker.MaxTokensIgnoresNonDigits | components/welcome-view.tsx:287-288 | "abc" stores `undefined` |
| ModelPicker.MaxTokensIgnoresFraction | components/welcome-view.tsx:287-288 | "0.5" reads as 0 and stores `undefined` |
| ModelPicker.MaxTokensIgnoresExponent | components/welcome-view.tsx:287-288 | "1e3" stores 1, not 1000 |
| JsStrings.ParseIntDecimal | components/welcome-view.tsx:287 | `parseInt` reads back the decimal spelling of every natural number |
| JsStrings.ParseIntNegative | components/welcome-view.tsx:287 | `parseInt` reads a minus sign followed by the decimal spelling of n as -n |
| JsStrings.ParseIntPrefix | components/welcome-view.tsx:287 | `parseInt` of leading whitespace, an optional `+` or `-`, a non-empty run of digits (leading zeros allowed) and anything not starting with a digit is the value of those digits, negated after `-` |
| JsStrings.ParseIntTrimmed | components/welcome-view.tsx:287 | once leading whitespace is skipped, a sign, a run of digits and a non-digit tail read as the signed value of the digits |
| JsStrings.ParseInt | components/welcome-view.tsx:287 | `parseInt` gives NaN exactly when no digit follows the whitespace and the optional sign, and a negative number only after a minus sign |
| ModelPicker.Picker.constructor | components/welcome-view.tsx:62-64 | the view starts with no groups, not loading and no company chosen |
| ModelPicker.Picker.ShownCompanyLabel | components/welcome-view.tsx:103 | in a valid state whose OpenRouter groups all have non-empty labels, the label of the shown group is what the dropdown at line 155 displays |
| ModelPicker.Picker.EditPrompt | components/welcome-view.tsx:122 | editing the prompt stores the new text |
| ModelPicker.Picker.StartLoading | components/welcome-view.tsx:78 | the fetch sets the loading flag |
| ModelPicker.Picker.FinishLoading | components/welcome-view.tsx:84-91 | the fetch stores the groups or the empty list, and always clears the loading flag |
| ModelPicker.Picker.ChooseCompany | components/welcome-view.tsx:156 | choosing a company stores it and keeps the choice one of the listed companies |
| ModelPicker.Picker.ClickModel | components/welcome-view.tsx:181-185 | a click (here or at lines 216-220) selects the model's id and its group's provider id; afterwards exactly the buttons with that model id and provider id are highlighted |
| ModelPicker.Picker.ChangeMaxTokens | components/welcome-view.tsx:286-288 | the input handler stores the parsed value, which is positive whenever it is stored |
| ModelPicker.Picker.ResetMaxTokens | components/welcome-view.tsx:297 | Reset stores `undefined`, and the input then shows empty |
| ModelPicker.Picker.GenerateIsDisabled | components/welcome-view.tsx:128 | generate is enabled only with a selected model and a prompt with a non-whitespace character |
| EndpointToPicker.Delivered | components/welcome-view.tsx:81-86 | the view loads groups exactly from a 200 response, and they are the endpoint's groups |
| EndpointToPicker.LoadedFromEndpoint | components/welcome-view.tsx:84-88 | the view holds the aggregated groups when the registry could be read, and nothing otherwise |
| EndpointToPicker.CompanyGroupsAreOpenRouter | components/welcome-view.tsx:98-99 | all of the endpoint's company groups count as OpenRouter groups, and none as other groups |
| EndpointToPicker.DropdownListsCompanies | components/welcome-view.tsx:100 | the dropdown lists each company of the listing once, in `for…in` order |
| EndpointToPicker.ChoosingCompanyShowsItsModels | components/welcome-view.tsx:103 | choosing a company shows its group, holding the models of exactly its entries |
| EndpointToPicker.DropdownMatchesCompanyGroups | components/welcome-view.tsx:155 | for the endpoint's company groups, the dropdown always names the group that is shown |

## Left out

- The network is not modelled: the OpenRouter request, the view's request to
  the endpoint, and `getModels()`. Their outcomes are parameters.
- `getAvailableProviders` and `createProviderClient` are not part of this
  model. The provider list, or its failure, is a parameter. A throwing
  `createProviderClient` counts as a throwing `getModels()`.
- The `OPENROUTER_API_KEY` header is left out. It changes nothing in the
  grouping.
- `console.error` is left out. `NextResponse.json` is modelled as the
  `Response` value: the groups with status 200, or the error with status 500.
- Listing fields that are not strings are not modelled: numbers, objects,
  `null`, or a `null` entry. The model covers only strings and missing
  fields. In the source, a `null` field is simply falsy. A truthy
  non-string `organization` or `provider` becomes a dictionary key through
  its string form (`5` becomes `"5"`, an array index) and is emitted as the
  group's `company`. Only a truthy non-string `id` that reaches `.split`, or
  a `null` entry, throws, and OpenRouter is then skipped.
- Floating point is not modelled. `parseInt` is modelled with exact
  integers, so rounding above 2^53 is not captured.
- The browser's handling of `type="number"` input is not modelled. The
  handler receives the input's text as it is.
- The view's fetched JSON is assumed to be an array of groups. A successful
  response with any other shape is not modelled.
- Rendering is not modelled: the JSX, the styles, the typing animation and
  its timer. Neither are the `ProviderSelector`, `Select`, `Textarea`,
  `Button` and `toast` components, or the system-prompt select and
  custom-prompt textarea, which are plain controlled state with no rule.
- React scheduling and `await` ordering are not modelled. The fetch effect is
  a start step and a finish step, with one outcome.
- ModelAggregator.Get: answers with the corrected grouping, which gives
  every company its own list. On a listing whose company names include one
  inherited from `Object.prototype`, the source drops all of OpenRouter,
  while `Get` returns its groups. The code as written is
  `ContributeAsWritten` (see "## Findings").
- ModelPicker.Picker.ChooseCompany: requires the company to be one the
  dropdown lists, because the `Select` component offers only those items.
- ModelPicker.Picker.FinishLoading: promises that the chosen company stays
  valid only when none was chosen before loading. That always holds, because
  the effect runs once at mount, before the dropdown can be shown.

## Findings

| source | as written | input that shows it | evidently intended | confidence | as-written member | corrected member |
|---|---|---|---|---|---|---|
| app/api/get-models/all/route.ts:24-33 | `companyMap` is a plain object, so `!companyMap[company]` is false for a name inherited from `Object.prototype`. No array is created, and `.push` on the inherited member throws a TypeError. The `catch` then drops the whole OpenRouter provider. | an OpenRouter listing with one entry whose `organization` is `"constructor"` (likewise `"toString"`, `"valueOf"`, `"__proto__"`, …) next to ordinary entries | every company gets its own array, as with a prototype-less object or a `Map`, so all listed models are grouped | not executed | ModelAggregator.InheritedCompanyDropsOpenRouter | ModelAggregator.GroupByCompany |

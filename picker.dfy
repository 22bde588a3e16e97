/** The model picker of the welcome view (components/welcome-view.tsx): how
    the fetched groups are split into OpenRouter company groups and other
    providers, which company group is shown, what the company dropdown
    displays, when the generate button is enabled, how the max-tokens input
    is read, and the state updates of the click and input handlers.

    Rendering, the typing animation, the system-prompt controls and the UI
    components the view uses are not modelled. */
module ModelPicker {
  import opened JsValues
  import opened JsStrings
  import opened Seqs
  import opened Models

  // ---------------------------------------------------------------------------
  // Loading the groups

  /** How the one request for `/api/get-models/all` ends: `fetch` or the JSON
      parse threw, the response was not ok, or the groups were loaded. */
  datatype Fetch = FetchThrew | NotOk(error: Str) | Loaded(groups: seq<Group>)

  /** What the effect stores in `groupedModels`: the loaded groups, or the
      empty list when anything went wrong. */
  function LoadedGroups(f: Fetch): (gs: seq<Group>)
    ensures f.Loaded? ==> gs == f.groups
    ensures !f.Loaded? ==> gs == []
  {
    match f
    case Loaded(groups) => groups
    case _ => []   // the thrown error (or `new Error(data.error || ...)`) is caught
  }

  // ---------------------------------------------------------------------------
  // Derivations from the fetched groups

  /** `groupedModels.filter(g => g.provider.id === "openrouter")`. */
  function OpenRouterGroups(gs: seq<Group>): (r: seq<Group>)
    ensures multiset(r) <= multiset(gs)
    ensures forall i :: 0 <= i < |r| ==> r[i].provider.id == OpenRouterId
  {
    FilterIncluded(gs, IsOpenRouter);
    Filter(gs, IsOpenRouter)
  }

  /** `groupedModels.filter(g => g.provider.id !== "openrouter")`. */
  function OtherGroups(gs: seq<Group>): (r: seq<Group>)
    ensures multiset(r) <= multiset(gs)
    ensures forall i :: 0 <= i < |r| ==> r[i].provider.id != OpenRouterId
  {
    FilterIncluded(gs, IsNotOpenRouter);
    Filter(gs, IsNotOpenRouter)
  }

  /** `g.provider.company || g.provider.name`: the label a group is listed and
      found under. */
  function CompanyLabel(g: Group): (shown: string)
    ensures g.provider.company.Present? && g.provider.company.text != "" ==> shown == g.provider.company.text
    ensures !(g.provider.company.Present? && g.provider.company.text != "") ==> shown == g.provider.name
  {
    Or(g.provider.company, Present(g.provider.name)).text
  }

  /** `openRouterGroups.map(g => g.provider.company || g.provider.name)`. */
  function Companies(gs: seq<Group>): (cs: seq<string>)
    ensures |cs| == |gs|
  {
    if gs == [] then [] else Companies(gs[..|gs| - 1]) + [CompanyLabel(gs[|gs| - 1])]
  }

  /** `gs.findIndex(g => label(g) === company)`, as an option. */
  function FindByLabel(gs: seq<Group>, company: string): (r: Option<nat>)
    ensures r.Some? ==> r.value < |gs| && CompanyLabel(gs[r.value]) == company
    ensures r.Some? ==> forall j :: 0 <= j < r.value ==> CompanyLabel(gs[j]) != company
    ensures r.None? ==> forall j :: 0 <= j < |gs| ==> CompanyLabel(gs[j]) != company
  {
    if gs == [] then None
    else if CompanyLabel(gs[0]) == company then Some(0)
    else
      match FindByLabel(gs[1..], company)
      case None => None
      case Some(i) => Some(i + 1)
  }

  /** `openRouterGroups.find(...) || openRouterGroups[0]`: the group whose
      label is the selected company, else the first group, else `undefined`
      (a group object is always truthy). */
  function SelectedGroup(openRouterGroups: seq<Group>, company: string): (r: Option<Group>)
    ensures r.None? <==> openRouterGroups == []
    ensures r.Some? ==> r.value in openRouterGroups
  {
    match FindByLabel(openRouterGroups, company)
    case Some(i) => Some(openRouterGroups[i])
    case None => if openRouterGroups == [] then None else Some(openRouterGroups[0])
  }

  /** `selectedOpenRouterCompany || openRouterCompanies[0] || ""`. */
  function DropdownValue(company: string, companies: seq<string>): (v: string)
    ensures company != "" ==> v == company
    ensures company == "" && companies != [] ==> v == companies[0]
    ensures company == "" && companies == [] ==> v == ""
  {
    Or(Or(Present(company), if companies == [] then Absent else Present(companies[0])), Present("")).text
  }

  /** `!prompt.trim() || !selectedModel`. */
  function GenerateDisabled(prompt: string, selectedModel: Str): (disabled: bool)
    ensures disabled <==>
      (forall i :: 0 <= i < |prompt| ==> IsWhitespace(prompt[i]))
      || selectedModel.Absent? || selectedModel.text == ""
  {
    Trim(prompt) == "" || !Truthy(selectedModel)
  }

  /** The `onChange` of the max-tokens input: an empty input gives `undefined`;
      otherwise `parseInt(value, 10)` is kept only when it is truthy, not NaN
      and positive. */
  function MaxTokensFromInput(input: string): (v: Option<int>)
    ensures v.Some? ==> v.value > 0
    ensures input == "" ==> v.None?
  {
    var value: Option<Number> := if input != "" then Some(ParseInt(input)) else None;
    match value
    case None => None
    case Some(NaN) => None
    case Some(Int(v)) => if v != 0 && v > 0 then Some(v) else None
  }

  /** `value={maxTokens || ''}`: the text the max-tokens input shows. Read
      back by the input's handler, it gives the same value when that is
      positive, and `undefined` otherwise. */
  function MaxTokensDisplay(maxTokens: Option<int>): (text: string)
    ensures MaxTokensFromInput(text) == if maxTokens.Some? && maxTokens.value > 0 then maxTokens else None
  {
    match maxTokens
    case Some(v) =>
      if v > 0 then ParseIntDecimal(v); DecimalString(v)
      else if v == 0 then ""
      else ParseIntNegative(-v); "-" + DecimalString(-v)
    case None => ""
  }

  /** A model button is highlighted when it is both the selected model and the
      selected provider's. */
  predicate IsHighlighted(selectedModel: Str, selectedProvider: string, g: Group, m: Model) {
    selectedModel == m.id && selectedProvider == g.provider.id
  }

  /** The groups whose models are shown once loading is over: the selected
      OpenRouter group, if any, then every other provider's group. */
  function VisibleGroups(gs: seq<Group>, company: string, loading: bool): (v: seq<Group>)
    ensures loading ==> v == []
    ensures !loading && OpenRouterGroups(gs) == [] ==> v == OtherGroups(gs)
    ensures !loading && OpenRouterGroups(gs) != [] ==>
      |v| == |OtherGroups(gs)| + 1 && v[0] in OpenRouterGroups(gs) && v[1..] == OtherGroups(gs)
      && v[0] == SelectedGroup(OpenRouterGroups(gs), company).value
  {
    if loading then []
    else
      var selected := SelectedGroup(OpenRouterGroups(gs), company);
      (if selected.Some? then [selected.value] else []) + OtherGroups(gs)
  }

  // ---------------------------------------------------------------------------
  // Properties of the derivations

  /** OpenRouter and other groups split the fetched groups: every group is in
      exactly one of them, as often as it was fetched, and each part keeps the
      fetched order. */
  lemma PartitionGroups(gs: seq<Group>)
    ensures |OpenRouterGroups(gs)| + |OtherGroups(gs)| == |gs|
    ensures multiset(OpenRouterGroups(gs)) + multiset(OtherGroups(gs)) == multiset(gs)
    ensures forall i :: 0 <= i < |OpenRouterGroups(gs)| ==> OpenRouterGroups(gs)[i].provider.id == OpenRouterId
    ensures forall i :: 0 <= i < |OtherGroups(gs)| ==> OtherGroups(gs)[i].provider.id != OpenRouterId
  {
    FilterSplit(gs, IsOpenRouter, IsNotOpenRouter);
  }

  /** Splitting a concatenation splits each part: the partition keeps the
      relative order of the groups. */
  lemma PartitionAppend(gs: seq<Group>, more: seq<Group>)
    ensures OpenRouterGroups(gs + more) == OpenRouterGroups(gs) + OpenRouterGroups(more)
    ensures OtherGroups(gs + more) == OtherGroups(gs) + OtherGroups(more)
  {
    FilterAppend(gs, more, IsOpenRouter);
    FilterAppend(gs, more, IsNotOpenRouter);
  }

  /** The companies list has one label per group, in group order. */
  lemma {:induction false} CompaniesAt(gs: seq<Group>, i: nat)
    requires i < |gs|
    ensures Companies(gs)[i] == CompanyLabel(gs[i])
  {
    if i < |gs| - 1 {
      CompaniesAt(gs[..|gs| - 1], i);
    }
  }

  /** The shown group: the first group labelled with the selected company,
      else the first group, and none exactly when there is no OpenRouter
      group. */
  lemma SelectedGroupChoice(gs: seq<Group>, company: string)
    ensures SelectedGroup(gs, company).None? <==> gs == []
    ensures (exists i :: 0 <= i < |gs| && CompanyLabel(gs[i]) == company) ==>
      exists i :: 0 <= i < |gs| && SelectedGroup(gs, company) == Some(gs[i]) && CompanyLabel(gs[i]) == company
        && forall j :: 0 <= j < i ==> CompanyLabel(gs[j]) != company
    ensures (forall i :: 0 <= i < |gs| ==> CompanyLabel(gs[i]) != company) && gs != [] ==>
      SelectedGroup(gs, company) == Some(gs[0])
  {
    match FindByLabel(gs, company)
    case Some(i) =>
    case None =>
  }

  /** When every label is non-empty and the selected company is unset or one
      of the listed companies, the dropdown shows the label of the group whose
      models are shown. */
  lemma DropdownMatchesShownGroup(gs: seq<Group>, company: string)
    requires gs != []
    requires forall i :: 0 <= i < |gs| ==> CompanyLabel(gs[i]) != ""
    requires company == "" || company in Companies(gs)
    ensures SelectedGroup(gs, company).Some?
    ensures DropdownValue(company, Companies(gs)) == CompanyLabel(SelectedGroup(gs, company).value)
  {
    if company != "" {
      ChosenCompanyShown(gs, company);
    } else {
      FirstCompanyShown(gs);
    }
  }

  lemma ChosenCompanyShown(gs: seq<Group>, company: string)
    requires company != "" && company in Companies(gs)
    ensures SelectedGroup(gs, company).Some?
    ensures CompanyLabel(SelectedGroup(gs, company).value) == company
    ensures DropdownValue(company, Companies(gs)) == company
  {
    var k :| 0 <= k < |Companies(gs)| && Companies(gs)[k] == company;
    CompaniesAt(gs, k);
    assert FindByLabel(gs, company).Some?;
  }

  lemma FirstCompanyShown(gs: seq<Group>)
    requires gs != []
    requires forall i :: 0 <= i < |gs| ==> CompanyLabel(gs[i]) != ""
    ensures SelectedGroup(gs, "") == Some(gs[0])
    ensures DropdownValue("", Companies(gs)) == CompanyLabel(gs[0])
  {
    CompaniesAt(gs, 0);
    assert FindByLabel(gs, "").None?;
  }

  /** Typing the decimal spelling of a positive count stores that count, and
      what the input then shows reads back as the same value. */
  lemma MaxTokensRoundTrip(n: nat)
    requires n > 0
    ensures MaxTokensFromInput(DecimalString(n)) == Some(n as int)
    ensures MaxTokensFromInput(MaxTokensDisplay(Some(n as int))) == Some(n as int)
  {
    ParseIntDecimal(n);
  }

  /** Zero and negative counts are refused. */
  lemma MaxTokensRejectsNonPositive(n: nat)
    ensures MaxTokensFromInput(DecimalString(n)) == (if n == 0 then None else Some(n as int))
    ensures MaxTokensFromInput("-" + DecimalString(n)) == None
  {
    ParseIntDecimal(n);
    ParseIntNegative(n);
  }

  /** "0" and "-5" store `undefined`. */
  lemma MaxTokensRejectsExamples()
    ensures MaxTokensFromInput("0") == None
    ensures MaxTokensFromInput("-5") == None
  {
    MaxTokensRejectsNonPositive(0);
    MaxTokensRejectsNonPositive(5);
  }

  /** "500" stores 500. */
  lemma MaxTokensAcceptsExample()
    ensures MaxTokensFromInput("500") == Some(500)
  {
    assert DecimalString(5) == "5";
    assert DecimalString(50) == "50";
    assert DecimalString(500) == "500";
    MaxTokensRoundTrip(500);
  }

  /** A fraction is cut at the decimal point: "0.5" reads as 0 and stores
      `undefined`. */
  lemma MaxTokensIgnoresFraction()
    ensures MaxTokensFromInput("0.5") == None
  {
    var s := "" + "" + "0" + ".5";
    assert s == "0.5";
    ParseIntPrefix("", "", "0", ".5");
    assert ParseInt(s) == Int(0);
  }

  /** An exponent is not read: "1e3" stores 1, not 1000. */
  lemma MaxTokensIgnoresExponent()
    ensures MaxTokensFromInput("1e3") == Some(1)
  {
    var s := "" + "" + "1" + "e3";
    assert s == "1e3";
    assert DigitsValue("1") == 1;
    ParseIntPrefix("", "", "1", "e3");
    assert ParseInt(s) == Int(1);
  }

  lemma MaxTokensIgnoresNonDigits()
    ensures MaxTokensFromInput("abc") == None
  {
    assert LeadingDigits("abc") == [];
  }

  // ---------------------------------------------------------------------------
  // The view's state and its handlers

  /** The state the picker reads and writes: the props the parent passes
      (`prompt`, `selectedModel`, `selectedProvider`, `maxTokens`) and the
      view's own `useState` fields. */
  class Picker {
    var prompt: string
    var selectedModel: Str
    var selectedProvider: string
    var maxTokens: Option<int>
    var groupedModels: seq<Group>
    var isLoadingModels: bool
    var selectedOpenRouterCompany: string

    /** The dropdown offers only the listed companies, so the selected company
        is unset or one of them. */
    predicate Valid()
      reads this
    {
      selectedOpenRouterCompany == "" || selectedOpenRouterCompany in Companies(OpenRouterGroups(groupedModels))
    }

    /** The label of the OpenRouter group whose models are shown
        (`selectedOpenRouterGroup`). In a valid state whose groups all have a
        non-empty label, it is what the company dropdown displays. */
    function ShownCompanyLabel(): (shown: string)
      reads this
      requires Valid()
      requires OpenRouterGroups(groupedModels) != []
      requires forall i :: 0 <= i < |OpenRouterGroups(groupedModels)| ==>
        CompanyLabel(OpenRouterGroups(groupedModels)[i]) != ""
      ensures shown == DropdownValue(selectedOpenRouterCompany, Companies(OpenRouterGroups(groupedModels)))
    {
      var ors := OpenRouterGroups(groupedModels);
      DropdownMatchesShownGroup(ors, selectedOpenRouterCompany);
      CompanyLabel(SelectedGroup(ors, selectedOpenRouterCompany).value)
    }

    /** The mount: no groups yet, not loading, no company chosen. */
    constructor (prompt: string, selectedModel: Str, selectedProvider: string, maxTokens: Option<int>)
      ensures this.prompt == prompt && this.selectedModel == selectedModel
      ensures this.selectedProvider == selectedProvider && this.maxTokens == maxTokens
      ensures groupedModels == [] && !isLoadingModels && selectedOpenRouterCompany == ""
      ensures Valid()
    {
      this.prompt := prompt;
      this.selectedModel := selectedModel;
      this.selectedProvider := selectedProvider;
      this.maxTokens := maxTokens;
      groupedModels := [];
      isLoadingModels := false;
      selectedOpenRouterCompany := "";
    }

    /** The prompt textarea's `onChange`. */
    method EditPrompt(text: string)
      modifies this`prompt
      ensures prompt == text
    {
      prompt := text;
    }

    /** The start of the fetch effect. */
    method StartLoading()
      modifies this`isLoadingModels
      ensures isLoadingModels
    {
      isLoadingModels := true;
    }

    /** The end of the fetch effect: the `try`/`catch` stores the groups or
        the empty list, and the `finally` clears the loading flag. */
    method FinishLoading(f: Fetch)
      modifies this`groupedModels, this`isLoadingModels
      ensures groupedModels == LoadedGroups(f)
      ensures !isLoadingModels
      ensures old(selectedOpenRouterCompany) == "" ==> Valid()
    {
      if f.Loaded? {
        groupedModels := f.groups;
      } else {
        groupedModels := [];
      }
      isLoadingModels := false;
    }

    /** The company dropdown's `onValueChange`; its items are the listed
        companies. */
    method ChooseCompany(company: string)
      requires company in Companies(OpenRouterGroups(groupedModels))
      modifies this`selectedOpenRouterCompany
      ensures selectedOpenRouterCompany == company
      ensures Valid()
    {
      selectedOpenRouterCompany := company;
    }

    /** A model button's `onClick`, for model `m` of group `g`. Afterwards
        exactly the buttons with the same model id in a group of the same
        provider id are highlighted. */
    method ClickModel(g: Group, m: Model)
      modifies this`selectedModel, this`selectedProvider
      ensures selectedModel == m.id && selectedProvider == g.provider.id
      ensures forall g': Group, m': Model :: IsHighlighted(selectedModel, selectedProvider, g', m') <==>
        m'.id == m.id && g'.provider.id == g.provider.id
    {
      selectedModel := m.id;
      selectedProvider := g.provider.id;
    }

    /** The max-tokens input's `onChange`. */
    method ChangeMaxTokens(input: string)
      modifies this`maxTokens
      ensures maxTokens == MaxTokensFromInput(input)
      ensures maxTokens.Some? ==> maxTokens.value > 0
    {
      var value: Option<Number> := if input != "" then Some(ParseInt(input)) else None;
      if value.Some? && value.value.Int? && value.value.value != 0 && value.value.value > 0 {
        maxTokens := Some(value.value.value);
      } else {
        maxTokens := None;
      }
    }

    /** The Reset button. */
    method ResetMaxTokens()
      modifies this`maxTokens
      ensures maxTokens.None?
      ensures MaxTokensDisplay(maxTokens) == ""
    {
      maxTokens := None;
    }

    /** The generate button's `disabled` attribute. */
    function GenerateIsDisabled(): (disabled: bool)
      reads this
      ensures !disabled ==> Truthy(selectedModel) && exists i :: 0 <= i < |prompt| && !IsWhitespace(prompt[i])
    {
      GenerateDisabled(prompt, selectedModel)
    }
  }
}

/** The picker fed by the endpoint: what the welcome view loads from the
    endpoint's response, and how it lists and shows the company groups the
    endpoint builds from OpenRouter's listing. */
module EndpointToPicker {
  import opened JsValues
  import opened Seqs
  import opened JsObjectKeys
  import opened Models
  import opened ModelAggregator
  import opened ModelPicker

  /** How the view's fetch sees a response: status 200 carries the groups,
      status 500 is not ok. */
  function Delivered(r: Response): (f: Fetch)
    ensures f.Loaded? <==> r.Ok?
    ensures r.Ok? ==> f.groups == r.groups
  {
    match r
    case Ok(groups) => Loaded(groups)
    case InternalError(error) => NotOk(Present(error))
  }

  /** The view holds the aggregated groups when the registry could be read,
      and nothing otherwise. */
  lemma LoadedFromEndpoint(registry: Option<seq<Provider>>, cs: seq<Calls>)
    requires registry.Some? ==> |registry.value| == |cs|
    ensures LoadedGroups(Delivered(Serve(registry, cs)))
      == if registry.Some? then Aggregate(registry.value, cs) else []
  {
  }

  /** The labels of groups built for the companies `order` are those companies. */
  lemma {:induction false} EmitGroupsLabels(order: seq<string>, es: seq<ListingEntry>)
    requires forall i :: 0 <= i < |order| ==> order[i] != ""
    ensures Companies(EmitGroups(OpenRouterId, order, es)) == order
  {
    if order != [] {
      var init := order[..|order| - 1];
      var c := order[|order| - 1];
      var gs := EmitGroups(OpenRouterId, order, es);
      EmitGroupsLabels(init, es);
      EmitGroupsLength(OpenRouterId, init, es);
      assert gs[..|gs| - 1] == EmitGroups(OpenRouterId, init, es);
      assert CompanyLabel(gs[|gs| - 1]) == c;
    }
  }

  /** Every company group belongs to OpenRouter. */
  lemma CompanyGroupsAreOpenRouter(es: seq<ListingEntry>)
    ensures OpenRouterGroups(CompanyGroups(OpenRouterId, es)) == CompanyGroups(OpenRouterId, es)
    ensures OtherGroups(CompanyGroups(OpenRouterId, es)) == []
  {
    var gs := CompanyGroups(OpenRouterId, es);
    forall j | 0 <= j < |gs| ensures gs[j].provider.id == OpenRouterId {
      CompanyGroupShape(es, j);
    }
    FilterAll(gs, IsOpenRouter);
    FilterNone(gs, IsNotOpenRouter);
  }

  /** The companies a listing yields are non-empty strings. */
  lemma CompanyOrderNonEmpty(es: seq<ListingEntry>)
    ensures var order := ForInOrder(DistinctKeys(es));
      forall i :: 0 <= i < |order| ==> order[i] != ""
  {
    var keys := DistinctKeys(es);
    var order := ForInOrder(keys);
    ForInOrderPermutation(keys);
    forall i | 0 <= i < |order| ensures order[i] != "" {
      assert order[i] in keys;
    }
  }

  /** The company dropdown lists each company of the listing once, in the
      order in which `for…in` visits the group-by's keys. */
  lemma DropdownListsCompanies(es: seq<ListingEntry>)
    ensures Companies(OpenRouterGroups(CompanyGroups(OpenRouterId, es))) == ForInOrder(DistinctKeys(es))
    ensures Distinct(Companies(OpenRouterGroups(CompanyGroups(OpenRouterId, es))))
    ensures forall k :: k in Companies(OpenRouterGroups(CompanyGroups(OpenRouterId, es))) <==>
      exists i :: 0 <= i < |es| && CompanyKey(es[i]) == k
  {
    CompanyGroupsAreOpenRouter(es);
    CompanyOrderNonEmpty(es);
    EmitGroupsLabels(ForInOrder(DistinctKeys(es)), es);
    ForInOrderDistinct(DistinctKeys(es));
    ForInOrderPermutation(DistinctKeys(es));
  }

  /** Choosing a company of the listing shows that company's group, holding
      the models of exactly the entries attributed to it. */
  lemma ChoosingCompanyShowsItsModels(es: seq<ListingEntry>, k: string)
    requires exists i :: 0 <= i < |es| && CompanyKey(es[i]) == k
    ensures SelectedGroup(OpenRouterGroups(CompanyGroups(OpenRouterId, es)), k)
      == Some(CompanyGroup(OpenRouterId, k, ModelsOf(es, k)))
  {
    var gs := CompanyGroups(OpenRouterId, es);
    var order := ForInOrder(DistinctKeys(es));
    DropdownListsCompanies(es);
    CompanyGroupsAreOpenRouter(es);
    assert k in Companies(gs);
    var j :| 0 <= j < |order| && order[j] == k;
    CompaniesAt(gs, j);
    FindInDistinctLabels(gs, j);
    CompanyGroupsAt(es, j);
  }

  /** With distinct labels, a label is found at its own position. */
  lemma FindInDistinctLabels(gs: seq<Group>, j: nat)
    requires j < |gs| && Distinct(Companies(gs))
    ensures FindByLabel(gs, CompanyLabel(gs[j])) == Some(j)
  {
    var k := CompanyLabel(gs[j]);
    var r := FindByLabel(gs, k);
    assert r.Some?;
    CompaniesAt(gs, j);
    CompaniesAt(gs, r.value);
    DistinctAt(Companies(gs), r.value, j);
  }

  /** For a listing's company groups, the dropdown always names the group
      whose models are shown, whether a company was chosen or not. */
  lemma DropdownMatchesCompanyGroups(es: seq<ListingEntry>, company: string)
    requires es != []
    requires company == "" || company in Companies(CompanyGroups(OpenRouterId, es))
    ensures SelectedGroup(CompanyGroups(OpenRouterId, es), company).Some?
    ensures DropdownValue(company, Companies(CompanyGroups(OpenRouterId, es)))
      == CompanyLabel(SelectedGroup(CompanyGroups(OpenRouterId, es), company).value)
  {
    var gs := CompanyGroups(OpenRouterId, es);
    var order := ForInOrder(DistinctKeys(es));
    DropdownListsCompanies(es);
    CompanyGroupsAreOpenRouter(es);
    CompanyOrderNonEmpty(es);
    assert CompanyKey(es[0]) in Companies(gs);
    forall i | 0 <= i < |gs| ensures CompanyLabel(gs[i]) != "" {
      CompaniesAt(gs, i);
    }
    DropdownMatchesShownGroup(gs, company);
  }
}

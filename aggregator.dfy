/** The model aggregation endpoint, `GET /api/get-models/all`
    (app/api/get-models/all/route.ts). It walks the configured providers in
    order, asks each provider's client for its models, and emits one group per
    provider, except for OpenRouter, whose public listing is regrouped into one
    group per company. A provider whose calls throw is skipped.

    The provider registry, the provider clients and the OpenRouter listing
    request are not modelled: their answers are parameters. */
module ModelAggregator {
  import opened JsValues
  import opened JsStrings
  import opened JsObjectKeys
  import opened Seqs
  import opened Models

  /** A configured provider, as the provider registry lists it. */
  datatype Provider = Provider(
    id: string,
    name: string,
    description: string,
    isLocal: bool,
    examples: Option<seq<string>>)

  /** One element of the `data` array of OpenRouter's model listing. */
  datatype ListingEntry = ListingEntry(
    id: Str,
    name: Str,
    description: Str,
    organization: Str,
    provider: Str)

  /** The outcome of an awaited call: it threw, or it returned a value. */
  datatype Fallible<T> = Threw | Returned(value: T)

  /** The outcome of fetching and parsing OpenRouter's listing: the fetch or
      the JSON parse threw, the parsed `data` field is not an array, or it is
      the array `entries`. */
  datatype Listing = ListingThrew | NotAnArray | Entries(entries: seq<ListingEntry>)

  /** What the outside world answers for one provider: the client's
      `getModels()` (a throwing `createProviderClient` counts as `Threw`), and
      the listing request, which is made only for OpenRouter. */
  datatype Calls = Calls(models: Fallible<seq<Model>>, listing: Listing)

  /** The HTTP response: status 200 with the groups, or status 500 with an
      error message. */
  datatype Response = Ok(groups: seq<Group>) | InternalError(error: string)

  const FetchAllError: string := "Error fetching all models"

  /** The company of a listing entry with no usable organization, provider or id. */
  const FallbackCompany: string := "Other"

  // ---------------------------------------------------------------------------
  // Company attribution of a listing entry

  /** `model.id && model.id.split('/')[0]`. */
  function IdCompany(id: Str): (r: Str)
    ensures !Truthy(id) ==> r == id
    ensures Truthy(id) ==>
      && r.Present? && '/' !in r.text
      && |r.text| <= |id.text| && r.text == id.text[..|r.text|]
      && (|r.text| < |id.text| ==> id.text[|r.text|] == '/')
  {
    if Truthy(id) then Present(SplitHead(id.text, '/')) else id
  }

  /** The company an OpenRouter listing entry is grouped under:
      `organization || provider || (id && id.split('/')[0]) || 'Other'`. */
  function CompanyKey(e: ListingEntry): (k: string)
    ensures k != ""
  {
    Or(Or(Or(e.organization, e.provider), IdCompany(e.id)), Present(FallbackCompany)).text
  }

  /** The fallback chain without JavaScript's truthiness: the organization if
      it is a non-empty string, else the provider if it is one, else the id's
      first `/`-separated segment if that is non-empty, else "Other". */
  lemma CompanyKeyChain(e: ListingEntry)
    ensures Truthy(e.organization) ==> CompanyKey(e) == e.organization.text
    ensures !Truthy(e.organization) && Truthy(e.provider) ==> CompanyKey(e) == e.provider.text
    ensures !Truthy(e.organization) && !Truthy(e.provider) ==>
      CompanyKey(e) == if Truthy(e.id) && SplitHead(e.id.text, '/') != "" then SplitHead(e.id.text, '/')
                       else FallbackCompany
  {
  }

  /** Without an organization or provider, the company comes from the id: an id
      without `/` is its own company, and "Other" is reached only through a
      missing or empty id, an id starting with `/`, or an id whose first
      segment is literally "Other". */
  lemma CompanyKeyFromId(e: ListingEntry)
    requires !Truthy(e.organization) && !Truthy(e.provider)
    ensures Truthy(e.id) && '/' !in e.id.text ==> CompanyKey(e) == e.id.text
    ensures CompanyKey(e) == FallbackCompany <==>
      !Truthy(e.id) || e.id.text[0] == '/' || SplitHead(e.id.text, '/') == FallbackCompany
    ensures CompanyKey(e) != FallbackCompany ==>
      e.id.Present? && '/' !in CompanyKey(e) && |CompanyKey(e)| <= |e.id.text|
      && CompanyKey(e) == e.id.text[..|CompanyKey(e)|]
  {
    CompanyKeyChain(e);
    if Truthy(e.id) {
      var s := e.id.text;
      var h := SplitHead(s, '/');
      assert h == "" <==> s[0] == '/' by {
        assert h != "" ==> h[0] == s[0] && h[0] in h;
      }
      assert '/' !in s ==> h == s by {
        assert |h| < |s| ==> s[|h|] in s;
      }
    }
  }

  /** The model record pushed for a listing entry. */
  function ToModel(e: ListingEntry): (m: Model)
    ensures m.id == e.id
    ensures Truthy(e.name) ==> m.name == e.name
    ensures !Truthy(e.name) ==> m.name == e.id
    ensures Truthy(m.name) <==> Truthy(e.name) || Truthy(e.id)
    ensures m.description.Present?
    ensures Truthy(e.description) ==> m.description == e.description
    ensures !Truthy(e.description) ==> m.description == Present("")
  {
    Model(e.id, Or(e.name, e.id), Or(e.description, Present("")))
  }

  // ---------------------------------------------------------------------------
  // The group-by over companies, as a specification

  /** The models of the entries attributed to company `k`, in listing order. */
  function ModelsOf(es: seq<ListingEntry>, k: string): (ms: seq<Model>)
    ensures |ms| <= |es|
  {
    if es == [] then []
    else
      var last := es[|es| - 1];
      ModelsOf(es[..|es| - 1], k) + (if CompanyKey(last) == k then [ToModel(last)] else [])
  }

  /** The companies of the entries, each once, in order of first appearance:
      the order in which the group-by creates the keys of its dictionary. */
  function DistinctKeys(es: seq<ListingEntry>): (ks: seq<string>)
    ensures Distinct(ks)
    ensures forall k :: k in ks <==> exists i :: 0 <= i < |es| && CompanyKey(es[i]) == k
  {
    if es == [] then []
    else
      var init := es[..|es| - 1];
      var ks := DistinctKeys(init);
      var k := CompanyKey(es[|es| - 1]);
      assert forall i :: 0 <= i < |init| ==> init[i] == es[i];
      if k in ks then ks
      else
        DistinctSnoc(ks, k);
        ks + [k]
  }

  /** An OpenRouter company group. */
  function CompanyGroup(providerId: string, company: string, models: seq<Model>): (g: Group)
    ensures g.provider.id == providerId && g.provider.company == Present(company) && g.models == models
    ensures !g.provider.isLocal && g.provider.examples.None?
    ensures g.provider.name == "OpenRouter (" + company + ")"
    ensures g.provider.description == "Models by " + company + " via OpenRouter"
  {
    Group(
      Descriptor(
        providerId,
        "OpenRouter (" + company + ")",
        "Models by " + company + " via OpenRouter",
        false,
        None,
        Present(company)),
      models)
  }

  /** The groups of the companies in `order`, each with its models. */
  function EmitGroups(providerId: string, order: seq<string>, es: seq<ListingEntry>): seq<Group> {
    if order == [] then []
    else
      var company := order[|order| - 1];
      EmitGroups(providerId, order[..|order| - 1], es) + [CompanyGroup(providerId, company, ModelsOf(es, company))]
  }

  /** OpenRouter's listing, regrouped: one group per company, in the order in
      which `for…in` visits the dictionary's keys. */
  function CompanyGroups(providerId: string, es: seq<ListingEntry>): (gs: seq<Group>)
    ensures |gs| == |DistinctKeys(es)|
    ensures TotalModels(gs) == |es|
    ensures forall j :: 0 <= j < |gs| ==> gs[j].provider.id == providerId && gs[j].provider.company.Present?
  {
    EmitAllCompanies(providerId, es);
    EmitGroups(providerId, ForInOrder(DistinctKeys(es)), es)
  }

  /** The single group of a provider that is not regrouped. */
  function DefaultGroup(p: Provider, models: seq<Model>): (g: Group)
    ensures g.models == models
    ensures g.provider.id == p.id && g.provider.name == p.name
    ensures g.provider.description == p.description && g.provider.isLocal == p.isLocal
    ensures g.provider.examples == Some(if p.examples.Some? then p.examples.value else [])
    ensures !Truthy(g.provider.company)
  {
    Group(
      Descriptor(
        p.id, p.name, p.description, p.isLocal,
        if p.examples.Some? then p.examples else Some([]),
        Absent),
      models)
  }

  /** A provider one of whose calls threw: its client's `getModels()`, or,
      for OpenRouter, the listing request. The `catch` skips it. */
  predicate Failed(p: Provider, c: Calls) {
    c.models.Threw? || (p.id == OpenRouterId && c.listing.ListingThrew?)
  }

  /** What one provider adds to the response: nothing when it failed, the
      company groups of OpenRouter's listing when `data` is an array, and
      otherwise the provider's single group. Every group names the provider. */
  function Contribution(p: Provider, c: Calls): (gs: seq<Group>)
    ensures Failed(p, c) ==> gs == []
    ensures forall j :: 0 <= j < |gs| ==> gs[j].provider.id == p.id
    ensures !Failed(p, c) && p.id == OpenRouterId && c.listing.Entries? ==>
      TotalModels(gs) == |c.listing.entries|
    ensures !Failed(p, c) && !(p.id == OpenRouterId && c.listing.Entries?) ==>
      |gs| == 1 && gs[0].models == c.models.value
  {
    match c.models
    case Threw => []
    case Returned(models) =>
      if p.id == OpenRouterId then
        match c.listing
        case ListingThrew => []
        case NotAnArray => [DefaultGroup(p, models)]
        case Entries(es) => CompanyGroups(p.id, es)
      else
        [DefaultGroup(p, models)]
  }

  /** The contributions of the providers, in provider order. */
  function Aggregate(ps: seq<Provider>, cs: seq<Calls>): (gs: seq<Group>)
    requires |ps| == |cs|
    ensures forall j :: 0 <= j < |gs| ==> exists i :: 0 <= i < |ps| && gs[j].provider.id == ps[i].id
  {
    if ps == [] then []
    else
      var init := ps[..|ps| - 1];
      assert forall i :: 0 <= i < |init| ==> init[i] == ps[i];
      Aggregate(init, cs[..|cs| - 1]) + Contribution(ps[|ps| - 1], cs[|cs| - 1])
  }

  /** The endpoint's response. `registry` is the provider list, or `None` when
      looking it up threw. */
  function Serve(registry: Option<seq<Provider>>, cs: seq<Calls>): (r: Response)
    requires registry.Some? ==> |registry.value| == |cs|
    ensures r.InternalError? <==> registry.None?
    ensures r.InternalError? ==> r.error == FetchAllError
  {
    match registry
    case None => InternalError(FetchAllError)
    case Some(ps) => Ok(Aggregate(ps, cs))
  }

  // ---------------------------------------------------------------------------
  // The endpoint as the source runs it

  /** The group-by loop: `companyMap` gains a key the first time a company
      is seen, and each entry's model is pushed onto its company's list.
      `keys` records the dictionary's own keys in creation order. */
  method GroupByCompany(entries: seq<ListingEntry>) returns (keys: seq<string>, companyMap: map<string, seq<Model>>)
    ensures keys == DistinctKeys(entries)
    ensures forall k :: k in companyMap <==> k in keys
    ensures forall k :: k in companyMap ==> companyMap[k] == ModelsOf(entries, k)
  {
    keys, companyMap := [], map[];
    for i := 0 to |entries|
      invariant keys == DistinctKeys(entries[..i])
      invariant forall k :: k in companyMap <==> k in keys
      invariant forall k :: k in companyMap ==> companyMap[k] == ModelsOf(entries[..i], k)
    {
      var model := entries[i];
      var company := CompanyKey(model);
      assert entries[..i + 1] == entries[..i] + [model];
      ModelsOfNonEmpty(entries[..i], company);
      if company !in companyMap {
        companyMap := companyMap[company := []];
        keys := keys + [company];
      }
      companyMap := companyMap[company := companyMap[company] + [ToModel(model)]];
      forall k | k in companyMap ensures companyMap[k] == ModelsOf(entries[..i + 1], k) {
        ModelsOfSnoc(entries[..i], model, k);
      }
    }
    assert entries[..|entries|] == entries;
  }

  /** The `for…in` loop: one group per key of `companyMap`, in the order
      `order` in which `for…in` visits them. */
  method EmitCompanyGroups(providerId: string, order: seq<string>, companyMap: map<string, seq<Model>>,
                           ghost entries: seq<ListingEntry>)
    returns (groups: seq<Group>)
    requires forall k :: k in order ==> k in companyMap && companyMap[k] == ModelsOf(entries, k)
    ensures groups == EmitGroups(providerId, order, entries)
  {
    groups := [];
    for j := 0 to |order|
      invariant groups == EmitGroups(providerId, order[..j], entries)
    {
      var company := order[j];
      assert order[..j + 1] == order[..j] + [company];
      groups := groups + [CompanyGroup(providerId, company, companyMap[company])];
    }
    assert order[..|order|] == order;
  }

  /** The OpenRouter branch: the group-by, then the emission of its groups. */
  method CompanyGroupsOf(providerId: string, entries: seq<ListingEntry>) returns (groups: seq<Group>)
    ensures groups == CompanyGroups(providerId, entries)
  {
    var keys, companyMap := GroupByCompany(entries);
    ForInOrderPermutation(keys);
    groups := EmitCompanyGroups(providerId, ForInOrder(keys), companyMap, entries);
  }

  /** The body of the per-provider `try`: a `continue` adds nothing. */
  method Contribute(provider: Provider, answer: Calls) returns (groups: seq<Group>)
    ensures groups == Contribution(provider, answer)
  {
    if answer.models.Threw? {
      return [];   // caught: the provider is skipped
    }
    var models := answer.models.value;
    if provider.id == OpenRouterId {
      if answer.listing.ListingThrew? {
        return [];   // caught: the provider is skipped
      }
      if answer.listing.Entries? {
        groups := CompanyGroupsOf(provider.id, answer.listing.entries);
        return;   // no default group for OpenRouter
      }
    }
    groups := [DefaultGroup(provider, models)];
  }

  /** `GET`: the per-provider loop with its `try`/`catch`, inside the outer
      `try` that turns a failing registry lookup into status 500. */
  method Get(registry: Option<seq<Provider>>, calls: seq<Calls>) returns (response: Response)
    requires registry.Some? ==> |registry.value| == |calls|
    ensures response == Serve(registry, calls)
  {
    if registry.None? {
      return InternalError(FetchAllError);
    }
    var providers := registry.value;
    var result: seq<Group> := [];
    for i := 0 to |providers|
      invariant result == Aggregate(providers[..i], calls[..i])
    {
      assert providers[..i + 1][..i] == providers[..i];
      assert calls[..i + 1][..i] == calls[..i];
      var groups := Contribute(providers[i], calls[i]);
      result := result + groups;
    }
    assert providers[..|providers|] == providers && calls[..|calls|] == calls;
    response := Ok(result);
  }

  // ---------------------------------------------------------------------------
  // Properties of the company groups

  /** A company has models exactly when some entry is attributed to it. */
  lemma {:induction false} ModelsOfNonEmpty(es: seq<ListingEntry>, k: string)
    ensures ModelsOf(es, k) != [] <==> k in DistinctKeys(es)
  {
    if es != [] {
      var init := es[..|es| - 1];
      ModelsOfNonEmpty(init, k);
      assert forall i :: 0 <= i < |init| ==> init[i] == es[i];
    }
  }

  lemma ModelsOfSnoc(es: seq<ListingEntry>, e: ListingEntry, k: string)
    ensures ModelsOf(es + [e], k) == ModelsOf(es, k) + (if CompanyKey(e) == k then [ToModel(e)] else [])
  {
    assert (es + [e])[..|es|] == es;
  }

  /** Grouping keeps listing order: the models of a company in a longer
      listing are its models in the first part followed by those in the rest. */
  lemma {:induction false} ModelsOfAppend(es: seq<ListingEntry>, more: seq<ListingEntry>, k: string)
    ensures ModelsOf(es + more, k) == ModelsOf(es, k) + ModelsOf(more, k)
  {
    if more == [] {
      assert es + more == es;
    } else {
      var init := more[..|more| - 1];
      assert (es + more)[..|es + more| - 1] == es + init;
      ModelsOfAppend(es, init, k);
    }
  }

  /** Every model of a company comes from an entry attributed to it. */
  lemma {:induction false} ModelsOfSound(es: seq<ListingEntry>, k: string, j: nat)
    requires j < |ModelsOf(es, k)|
    ensures exists i :: 0 <= i < |es| && CompanyKey(es[i]) == k && ModelsOf(es, k)[j] == ToModel(es[i])
  {
    var init := es[..|es| - 1];
    assert forall i :: 0 <= i < |init| ==> init[i] == es[i];
    if j < |ModelsOf(init, k)| {
      ModelsOfSound(init, k, j);
    } else {
      assert ModelsOf(es, k)[j] == ToModel(es[|es| - 1]);
    }
  }

  /** The companies appear in order of first appearance: for two companies,
      the earlier one occurs in the listing before any entry of the later one. */
  lemma {:induction false} DistinctKeysFirstAppearance(es: seq<ListingEntry>, a: nat, b: nat)
    requires a < b < |DistinctKeys(es)|
    ensures exists i ::
      && 0 <= i < |es|
      && CompanyKey(es[i]) == DistinctKeys(es)[a]
      && (forall i' :: 0 <= i' <= i ==> CompanyKey(es[i']) != DistinctKeys(es)[b])
  {
    var init := es[..|es| - 1];
    var ks := DistinctKeys(init);
    assert forall i :: 0 <= i < |init| ==> init[i] == es[i];
    if b < |ks| {
      assert DistinctKeys(es)[..|ks|] == ks;
      DistinctKeysFirstAppearance(init, a, b);
      var i :| 0 <= i < |init| && CompanyKey(init[i]) == ks[a]
        && forall i' :: 0 <= i' <= i ==> CompanyKey(init[i']) != ks[b];
      assert CompanyKey(es[i]) == DistinctKeys(es)[a];
    } else {
      assert DistinctKeys(es) == ks + [CompanyKey(es[|es| - 1])];
      assert ks[a] in ks;
      var i :| 0 <= i < |init| && CompanyKey(init[i]) == ks[a];
      assert CompanyKey(es[i]) == DistinctKeys(es)[a];
    }
  }

  lemma {:induction false} EmitGroupsAt(providerId: string, order: seq<string>, es: seq<ListingEntry>, j: nat)
    requires j < |order|
    ensures |EmitGroups(providerId, order, es)| == |order|
    ensures EmitGroups(providerId, order, es)[j] == CompanyGroup(providerId, order[j], ModelsOf(es, order[j]))
  {
    EmitGroupsLength(providerId, order, es);
    if j < |order| - 1 {
      EmitGroupsAt(providerId, order[..|order| - 1], es, j);
    }
  }

  lemma {:induction false} EmitGroupsLength(providerId: string, order: seq<string>, es: seq<ListingEntry>)
    ensures |EmitGroups(providerId, order, es)| == |order|
  {
    if order != [] {
      EmitGroupsLength(providerId, order[..|order| - 1], es);
    }
  }

  /** Adding one entry to the listing adds one model for each time its
      company is emitted. */
  lemma {:induction false} EmitGroupsTotalSnoc(providerId: string, order: seq<string>, es: seq<ListingEntry>, e: ListingEntry)
    ensures TotalModels(EmitGroups(providerId, order, es + [e]))
      == TotalModels(EmitGroups(providerId, order, es)) + Count(order, CompanyKey(e))
  {
    assert (es + [e])[..|es|] == es;
    EmitGroupsLength(providerId, order, es);
    EmitGroupsLength(providerId, order, es + [e]);
    if order != [] {
      var init := order[..|order| - 1];
      EmitGroupsTotalSnoc(providerId, init, es, e);
      assert EmitGroups(providerId, order, es + [e])[..|init|] == EmitGroups(providerId, init, es + [e]);
      assert EmitGroups(providerId, order, es)[..|init|] == EmitGroups(providerId, init, es);
    }
  }

  /** When the emitted companies cover every entry's company, each once, the
      groups hold exactly as many models as the listing has entries. */
  lemma {:induction false} EmitGroupsTotal(providerId: string, order: seq<string>, es: seq<ListingEntry>)
    requires Distinct(order)
    requires forall i :: 0 <= i < |es| ==> CompanyKey(es[i]) in order
    ensures TotalModels(EmitGroups(providerId, order, es)) == |es|
  {
    if es == [] {
      EmitGroupsEmpty(providerId, order);
    } else {
      var init := es[..|es| - 1];
      var last := es[|es| - 1];
      assert forall i :: 0 <= i < |init| ==> init[i] == es[i];
      EmitGroupsTotal(providerId, order, init);
      assert es == init + [last];
      EmitGroupsTotalSnoc(providerId, order, init, last);
      DistinctCount(order, CompanyKey(last));
    }
  }

  /** Emitting one group per company the listing names, in `for…in` order,
      gives one group per company, all of the provider, together holding as
      many models as the listing has entries. */
  lemma EmitAllCompanies(providerId: string, es: seq<ListingEntry>)
    ensures var gs := EmitGroups(providerId, ForInOrder(DistinctKeys(es)), es);
      && |gs| == |DistinctKeys(es)|
      && TotalModels(gs) == |es|
      && forall j :: 0 <= j < |gs| ==> gs[j].provider.id == providerId && gs[j].provider.company.Present?
  {
    var keys := DistinctKeys(es);
    var order := ForInOrder(keys);
    var gs := EmitGroups(providerId, order, es);
    ForInOrderPermutation(keys);
    ForInOrderDistinct(keys);
    forall i | 0 <= i < |es| ensures CompanyKey(es[i]) in order {
      assert CompanyKey(es[i]) in keys;
    }
    EmitGroupsTotal(providerId, order, es);
    EmitGroupsLength(providerId, order, es);
    assert |order| == |multiset(order)| == |multiset(keys)| == |keys|;
    forall j | 0 <= j < |gs| ensures gs[j].provider.id == providerId && gs[j].provider.company.Present? {
      EmitGroupsAt(providerId, order, es, j);
    }
  }

  lemma {:induction false} EmitGroupsEmpty(providerId: string, order: seq<string>)
    ensures TotalModels(EmitGroups(providerId, order, [])) == 0
  {
    if order != [] {
      var init := order[..|order| - 1];
      EmitGroupsLength(providerId, order, []);
      EmitGroupsEmpty(providerId, init);
      assert EmitGroups(providerId, order, [])[..|init|] == EmitGroups(providerId, init, []);
    }
  }

  /** The company groups position by position: the j-th company `for…in`
      visits, with its models. */
  lemma CompanyGroupsAt(es: seq<ListingEntry>, j: nat)
    requires j < |ForInOrder(DistinctKeys(es))|
    ensures var order := ForInOrder(DistinctKeys(es));
      && |CompanyGroups(OpenRouterId, es)| == |order|
      && CompanyGroups(OpenRouterId, es)[j] == CompanyGroup(OpenRouterId, order[j], ModelsOf(es, order[j]))
  {
    EmitGroupsAt(OpenRouterId, ForInOrder(DistinctKeys(es)), es, j);
  }


  /** Every company group is labelled with its company, is non-empty, and
      holds exactly that company's models in listing order. */
  lemma CompanyGroupShape(es: seq<ListingEntry>, j: nat)
    requires j < |CompanyGroups(OpenRouterId, es)|
    ensures var g := CompanyGroups(OpenRouterId, es)[j];
      && g.provider.company.Present?
      && g == CompanyGroup(OpenRouterId, g.provider.company.text, ModelsOf(es, g.provider.company.text))
      && g.models != []
  {
    var keys := DistinctKeys(es);
    var order := ForInOrder(keys);
    EmitGroupsLength(OpenRouterId, order, es);
    CompanyGroupsAt(es, j);
    ForInOrderPermutation(keys);
    assert order[j] in keys;
    ModelsOfNonEmpty(es, order[j]);
  }

  /** A company has a group exactly when some entry is attributed to it. */
  lemma CompanyGroupsCover(es: seq<ListingEntry>, k: string)
    ensures (exists j :: 0 <= j < |CompanyGroups(OpenRouterId, es)|
               && CompanyGroups(OpenRouterId, es)[j].provider.company == Present(k))
        <==> (exists i :: 0 <= i < |es| && CompanyKey(es[i]) == k)
  {
    var keys := DistinctKeys(es);
    var order := ForInOrder(keys);
    var gs := CompanyGroups(OpenRouterId, es);
    EmitGroupsLength(OpenRouterId, order, es);
    ForInOrderPermutation(keys);
    if exists i :: 0 <= i < |es| && CompanyKey(es[i]) == k {
      assert k in order;
      var j :| 0 <= j < |order| && order[j] == k;
      CompanyGroupsAt(es, j);
      assert gs[j].provider.company == Present(k);
    }
    if exists j :: 0 <= j < |gs| && gs[j].provider.company == Present(k) {
      var j :| 0 <= j < |gs| && gs[j].provider.company == Present(k);
      CompanyGroupsAt(es, j);
      assert order[j] == k;
      assert k in keys;
    }
  }

  /** No two company groups share a company. */
  lemma CompanyGroupsDistinct(es: seq<ListingEntry>, j1: nat, j2: nat)
    requires j1 < j2 < |CompanyGroups(OpenRouterId, es)|
    ensures CompanyGroups(OpenRouterId, es)[j1].provider.company
         != CompanyGroups(OpenRouterId, es)[j2].provider.company
  {
    var keys := DistinctKeys(es);
    var order := ForInOrder(keys);
    EmitGroupsLength(OpenRouterId, order, es);
    ForInOrderDistinct(keys);
    CompanyGroupsAt(es, j1);
    CompanyGroupsAt(es, j2);
  }

  /** An entry lands in the group of its company. */
  lemma EntryInItsGroup(es: seq<ListingEntry>, i: nat)
    requires i < |es|
    ensures exists j ::
      && 0 <= j < |CompanyGroups(OpenRouterId, es)|
      && CompanyGroups(OpenRouterId, es)[j].provider.company == Present(CompanyKey(es[i]))
      && ToModel(es[i]) in CompanyGroups(OpenRouterId, es)[j].models
  {
    var keys := DistinctKeys(es);
    var order := ForInOrder(keys);
    var k := CompanyKey(es[i]);
    EmitGroupsLength(OpenRouterId, order, es);
    ForInOrderPermutation(keys);
    assert k in keys;
    assert k in order;
    var j :| 0 <= j < |order| && order[j] == k;
    CompanyGroupsAt(es, j);
    ModelInModelsOf(es, i);
  }

  lemma ModelsOfSingle(e: ListingEntry)
    ensures ModelsOf([e], CompanyKey(e)) == [ToModel(e)]
  {
    assert [e][..0] == [];
  }

  lemma ModelInModelsOf(es: seq<ListingEntry>, i: nat)
    requires i < |es|
    ensures ToModel(es[i]) in ModelsOf(es, CompanyKey(es[i]))
  {
    var e := es[i];
    var k := CompanyKey(e);
    var pre, tail := es[..i], es[i..];
    assert es == pre + tail;
    assert tail == [e] + tail[1..];
    ModelsOfAppend(pre, tail, k);
    ModelsOfAppend([e], tail[1..], k);
    ModelsOfSingle(e);
    assert ModelsOf(tail, k) == [ToModel(e)] + ModelsOf(tail[1..], k);
    assert ToModel(e) in ModelsOf(tail, k);
  }

  /** For a listing whose companies are not array indices, the groups follow
      the order in which the companies first appear. */
  lemma CompanyGroupsInFirstAppearanceOrder(es: seq<ListingEntry>)
    requires forall i :: 0 <= i < |es| ==> !IsArrayIndex(CompanyKey(es[i]))
    ensures var gs := CompanyGroups(OpenRouterId, es);
      |gs| == |DistinctKeys(es)|
      && forall j :: 0 <= j < |gs| ==> gs[j].provider.company == Present(DistinctKeys(es)[j])
  {
    var keys := DistinctKeys(es);
    forall j | 0 <= j < |keys| ensures !IsArrayIndex(keys[j]) {
      assert keys[j] in keys;
    }
    ForInOrderNoIndexKeys(keys);
    EmitGroupsLength(OpenRouterId, keys, es);
    forall j | 0 <= j < |keys|
      ensures CompanyGroups(OpenRouterId, es)[j].provider.company == Present(keys[j])
    {
      EmitGroupsAt(OpenRouterId, keys, es, j);
    }
  }

  // ---------------------------------------------------------------------------
  // Properties of the per-provider loop

  /** The response lists the providers' contributions in provider order. */
  lemma {:induction false} AggregateAppend(ps: seq<Provider>, cs: seq<Calls>, ps': seq<Provider>, cs': seq<Calls>)
    requires |ps| == |cs| && |ps'| == |cs'|
    ensures Aggregate(ps + ps', cs + cs') == Aggregate(ps, cs) + Aggregate(ps', cs')
  {
    if ps' != [] {
      var n := |ps'| - 1;
      assert (ps + ps')[..|ps + ps'| - 1] == ps + ps'[..n];
      assert (cs + cs')[..|cs + cs'| - 1] == cs + cs'[..n];
      AggregateAppend(ps, cs, ps'[..n], cs'[..n]);
    } else {
      assert ps + ps' == ps && cs + cs' == cs;
    }
  }

  /** A provider that contributes nothing, because its client or its listing
      threw, can be removed without changing the response. */
  lemma SkipFailedProvider(ps: seq<Provider>, cs: seq<Calls>, i: nat)
    requires |ps| == |cs| && i < |ps|
    requires Failed(ps[i], cs[i])
    ensures Aggregate(ps, cs) == Aggregate(ps[..i] + ps[i + 1..], cs[..i] + cs[i + 1..])
  {
    SplitAt(ps, i);
    SplitAt(cs, i);
    RemoveSilentProvider(ps[..i], cs[..i], ps[i], cs[i], ps[i + 1..], cs[i + 1..]);
  }

  lemma SplitAt<T>(s: seq<T>, i: nat)
    requires i < |s|
    ensures s == s[..i] + [s[i]] + s[i + 1..]
  {
  }

  lemma RemoveSilentProvider(pre: seq<Provider>, cpre: seq<Calls>, p: Provider, c: Calls,
                             post: seq<Provider>, cpost: seq<Calls>)
    requires |pre| == |cpre| && |post| == |cpost|
    requires Contribution(p, c) == []
    ensures Aggregate(pre + [p] + post, cpre + [c] + cpost) == Aggregate(pre + post, cpre + cpost)
  {
    AggregateAppend(pre + [p], cpre + [c], post, cpost);
    AggregateAppend(pre, cpre, [p], [c]);
    AggregateSingle(p, c);
    AggregateAppend(pre, cpre, post, cpost);
  }

  lemma AggregateSingle(p: Provider, c: Calls)
    ensures Aggregate([p], [c]) == Contribution(p, c)
  {
    assert [p][..0] == [] && [c][..0] == [];
  }

  /** When every provider fails, the endpoint still answers 200, with no groups. */
  lemma {:induction false} AllProvidersFail(ps: seq<Provider>, cs: seq<Calls>)
    requires |ps| == |cs|
    requires forall i :: 0 <= i < |ps| ==> Failed(ps[i], cs[i])
    ensures Serve(Some(ps), cs) == Ok([])
  {
    if ps != [] {
      AllProvidersFail(ps[..|ps| - 1], cs[..|cs| - 1]);
      assert Failed(ps[|ps| - 1], cs[|cs| - 1]);
    }
  }

  /** A provider other than OpenRouter whose client answers yields exactly one
      group, describing the provider (examples default to the empty list) and
      holding the client's models unchanged. */
  lemma PlainProviderGroup(p: Provider, c: Calls)
    requires p.id != OpenRouterId && c.models.Returned?
    ensures var gs := Contribution(p, c);
      |gs| == 1 && gs[0].models == c.models.value
      && gs[0].provider.id == p.id && gs[0].provider.name == p.name
      && gs[0].provider.description == p.description && gs[0].provider.isLocal == p.isLocal
      && gs[0].provider.examples == Some(if p.examples.Some? then p.examples.value else [])
      && !Truthy(gs[0].provider.company)
  {
  }

  /** OpenRouter's contribution: nothing if a call threw; the provider's own
      single group if the listing's `data` is not an array; otherwise only
      company groups (none for an empty array), never the default group. */
  lemma OpenRouterContribution(p: Provider, c: Calls)
    requires p.id == OpenRouterId && c.models.Returned?
    ensures c.listing.ListingThrew? ==> Contribution(p, c) == []
    ensures c.listing.NotAnArray? ==> Contribution(p, c) == [DefaultGroup(p, c.models.value)]
    ensures c.listing.Entries? ==>
      && TotalModels(Contribution(p, c)) == |c.listing.entries|
      && (c.listing.entries == [] ==> Contribution(p, c) == [])
      && (forall j :: 0 <= j < |Contribution(p, c)| ==>
           && Contribution(p, c)[j].provider.company.Present?
           && Contribution(p, c)[j].provider.id == OpenRouterId
           && !Contribution(p, c)[j].provider.isLocal)
  {
    if c.listing.Entries? {
      var es := c.listing.entries;
      forall j | 0 <= j < |CompanyGroups(OpenRouterId, es)|
        ensures CompanyGroups(OpenRouterId, es)[j].provider.company.Present?
        ensures CompanyGroups(OpenRouterId, es)[j].provider.id == OpenRouterId
        ensures !CompanyGroups(OpenRouterId, es)[j].provider.isLocal
      {
        CompanyGroupShape(es, j);
      }
      if es == [] {
        assert DistinctKeys(es) == [];
        assert ForInOrder([]) == [] by {
          FilterNone([], IsArrayIndex);
          FilterNone([], IsNotArrayIndex);
        }
      }
    }
  }

  // ---------------------------------------------------------------------------
  // The group-by as written: `companyMap` is a plain object

  /** What reading `companyMap[company]` yields on a plain object: an own
      array, a member inherited from `Object.prototype`, or `undefined`. */
  datatype Slot = Undefined | OwnArray(models: seq<Model>) | InheritedMember

  function Lookup(own: map<string, seq<Model>>, k: string): Slot {
    if k in own then OwnArray(own[k])
    else if IsInheritedName(k) then InheritedMember
    else Undefined
  }

  /** Whether some entry's company is a name every plain object inherits. */
  predicate HasInheritedCompany(es: seq<ListingEntry>) {
    exists i :: 0 <= i < |es| && IsInheritedName(CompanyKey(es[i]))
  }

  lemma HasInheritedCompanySnoc(es: seq<ListingEntry>, e: ListingEntry)
    ensures HasInheritedCompany(es + [e]) <==> HasInheritedCompany(es) || IsInheritedName(CompanyKey(e))
  {
    var es' := es + [e];
    if HasInheritedCompany(es) {
      var i :| 0 <= i < |es| && IsInheritedName(CompanyKey(es[i]));
      assert es'[i] == es[i];
    }
    if HasInheritedCompany(es') {
      var i :| 0 <= i < |es'| && IsInheritedName(CompanyKey(es'[i]));
      if i < |es| {
        assert es'[i] == es[i];
      }
    }
    assert es'[|es|] == e;
  }

  /** One pass of the group-by loop keeps the dictionary equal to the
      specification over the entries seen so far. */
  lemma GroupStep(done: seq<ListingEntry>, e: ListingEntry, keys: seq<string>, m: map<string, seq<Model>>)
    requires keys == DistinctKeys(done)
    requires forall k :: k in m <==> k in keys
    requires forall k :: k in m ==> m[k] == ModelsOf(done, k)
    ensures var c := CompanyKey(e);
      var keys' := if c in m then keys else keys + [c];
      var m' := m[c := (if c in m then m[c] else []) + [ToModel(e)]];
      && keys' == DistinctKeys(done + [e])
      && (forall k :: k in m' <==> k in keys')
      && (forall k :: k in m' ==> m'[k] == ModelsOf(done + [e], k))
  {
    var c := CompanyKey(e);
    var m' := m[c := (if c in m then m[c] else []) + [ToModel(e)]];
    ModelsOfNonEmpty(done, c);
    assert (done + [e])[..|done|] == done;
    forall k | k in m' ensures m'[k] == ModelsOf(done + [e], k) {
      ModelsOfSnoc(done, e, k);
    }
  }

  /** One pass of the group-by loop exactly as written. `!companyMap[company]`
      is false for an inherited name, so no array is created, and `.push` on
      the inherited function or object throws a TypeError. */
  method PushAsWritten(keys: seq<string>, companyMap: map<string, seq<Model>>, ghost done: seq<ListingEntry>,
                       model: ListingEntry)
    returns (threw: bool, keys': seq<string>, companyMap': map<string, seq<Model>>)
    requires !HasInheritedCompany(done)
    requires keys == DistinctKeys(done)
    requires forall k :: k in companyMap <==> k in keys
    requires forall k :: k in companyMap ==> companyMap[k] == ModelsOf(done, k)
    ensures threw <==> HasInheritedCompany(done + [model])
    ensures !threw ==>
      && keys' == DistinctKeys(done + [model])
      && (forall k :: k in companyMap' <==> k in keys')
      && (forall k :: k in companyMap' ==> companyMap'[k] == ModelsOf(done + [model], k))
  {
    var company := CompanyKey(model);
    HasInheritedCompanySnoc(done, model);
    GroupStep(done, model, keys, companyMap);
    keys', companyMap' := keys, companyMap;
    var slot := Lookup(companyMap', company);
    if slot.Undefined? {
      companyMap' := companyMap'[company := []];
      keys' := keys' + [company];
      slot := OwnArray([]);
    }
    if slot.InheritedMember? {
      return true, keys', companyMap';   // TypeError: companyMap[company].push is not a function
    }
    if company in companyMap {
      KnownCompanyNotInherited(done, company);
    }
    companyMap' := companyMap'[company := slot.models + [ToModel(model)]];
    threw := false;
  }

  /** A company already in the dictionary came from an entry seen so far. */
  lemma KnownCompanyNotInherited(done: seq<ListingEntry>, company: string)
    requires !HasInheritedCompany(done)
    requires company in DistinctKeys(done)
    ensures !IsInheritedName(company)
  {
    var i :| 0 <= i < |done| && CompanyKey(done[i]) == company;
  }

  /** The group-by loop exactly as written: the first entry whose company is
      an inherited name makes it throw. */
  method GroupByCompanyAsWritten(entries: seq<ListingEntry>)
    returns (outcome: Fallible<seq<string>>, companyMap: map<string, seq<Model>>)
    ensures outcome.Threw? <==> HasInheritedCompany(entries)
    ensures outcome.Returned? ==>
      outcome.value == DistinctKeys(entries)
      && (forall k :: k in companyMap <==> k in outcome.value)
      && (forall k :: k in companyMap ==> companyMap[k] == ModelsOf(entries, k))
  {
    var keys: seq<string> := [];
    companyMap := map[];
    for i := 0 to |entries|
      invariant !HasInheritedCompany(entries[..i])
      invariant keys == DistinctKeys(entries[..i])
      invariant forall k :: k in companyMap <==> k in keys
      invariant forall k :: k in companyMap ==> companyMap[k] == ModelsOf(entries[..i], k)
    {
      var threw;
      threw, keys, companyMap := PushAsWritten(keys, companyMap, entries[..i], entries[i]);
      PrefixSnoc(entries, i);
      if threw {
        HasInheritedPrefix(entries, i + 1);
        return Threw, companyMap;
      }
    }
    assert entries[..|entries|] == entries;
    outcome := Returned(keys);
  }

  lemma PrefixSnoc<T>(s: seq<T>, i: nat)
    requires i < |s|
    ensures s[..i + 1] == s[..i] + [s[i]]
  {
  }

  lemma HasInheritedPrefix(es: seq<ListingEntry>, n: nat)
    requires n <= |es| && HasInheritedCompany(es[..n])
    ensures HasInheritedCompany(es)
  {
    var i :| 0 <= i < n && IsInheritedName(CompanyKey(es[..n][i]));
    assert es[..n][i] == es[i];
  }

  /** OpenRouter's contribution as the source computes it: a company named
      after an inherited member makes the whole provider throw. */
  function ContributionAsWritten(p: Provider, c: Calls): (gs: seq<Group>)
    ensures !(p.id == OpenRouterId && c.listing.Entries? && HasInheritedCompany(c.listing.entries)) ==>
      gs == Contribution(p, c)
    ensures p.id == OpenRouterId && c.listing.Entries? && HasInheritedCompany(c.listing.entries) ==> gs == []
  {
    match c.models
    case Threw => []
    case Returned(models) =>
      if p.id == OpenRouterId then
        match c.listing
        case ListingThrew => []
        case NotAnArray => [DefaultGroup(p, models)]
        case Entries(es) => if HasInheritedCompany(es) then [] else CompanyGroups(p.id, es)
      else
        [DefaultGroup(p, models)]
  }

  /** The body of the per-provider `try` as written, with the group-by on a
      plain object. */
  method ContributeAsWritten(p: Provider, c: Calls) returns (groups: seq<Group>)
    ensures groups == ContributionAsWritten(p, c)
  {
    if c.models.Threw? {
      return [];   // caught: the provider is skipped
    }
    if p.id == OpenRouterId {
      if c.listing.ListingThrew? {
        return [];   // caught: the provider is skipped
      }
      if c.listing.Entries? {
        var outcome, companyMap := GroupByCompanyAsWritten(c.listing.entries);
        if outcome.Threw? {
          return [];   // the TypeError is caught: the provider is skipped
        }
        ForInOrderPermutation(outcome.value);
        groups := EmitCompanyGroups(p.id, ForInOrder(outcome.value), companyMap, c.listing.entries);
        return;
      }
    }
    groups := [DefaultGroup(p, c.models.value)];
  }

  /** A listing with one ordinary model and one whose organization is
      "constructor". */
  const ExampleListing: seq<ListingEntry> := [
    ListingEntry(Present("openai/gpt-4"), Absent, Absent, Present("OpenAI"), Absent),
    ListingEntry(Present("x/y"), Absent, Absent, Present("constructor"), Absent)]

  const ExampleOpenRouter: Provider := Provider(OpenRouterId, "OpenRouter", "", false, None)

  lemma ExampleListingHasInheritedCompany()
    ensures HasInheritedCompany(ExampleListing)
  {
    var odd := ExampleListing[1];
    CompanyKeyChain(odd);
    assert IsInheritedName(CompanyKey(odd));
  }

  /** Whenever some company is an inherited name, the source drops all of
      OpenRouter, while the corrected grouping keeps every listed model. */
  lemma InheritedCompanyDropsAll(p: Provider, models: seq<Model>, es: seq<ListingEntry>)
    requires p.id == OpenRouterId && HasInheritedCompany(es)
    ensures ContributionAsWritten(p, Calls(Returned(models), Entries(es))) == []
    ensures TotalModels(Contribution(p, Calls(Returned(models), Entries(es)))) == |es|
  {
  }

  /** That listing makes every OpenRouter model vanish from the response,
      where the corrected grouping keeps both models. */
  lemma InheritedCompanyDropsOpenRouter()
    ensures ContributionAsWritten(ExampleOpenRouter, Calls(Returned([]), Entries(ExampleListing))) == []
    ensures TotalModels(Contribution(ExampleOpenRouter, Calls(Returned([]), Entries(ExampleListing)))) == 2
  {
    ExampleListingHasInheritedCompany();
    InheritedCompanyDropsAll(ExampleOpenRouter, [], ExampleListing);
  }
}

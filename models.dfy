/** The values the aggregation endpoint returns and the model picker consumes:
    a provider descriptor paired with that provider's models. */
module Models {
  import opened JsValues

  /** The provider id that both sides treat specially. */
  const OpenRouterId: string := "openrouter"

  /** One selectable model. Every field may be missing in the JSON the
      endpoint relays. */
  datatype Model = Model(id: Str, name: Str, description: Str)

  /** The `provider` part of a group. A provider's own group carries
      `examples`; an OpenRouter company group carries `company` instead. */
  datatype Descriptor = Descriptor(
    id: string,
    name: string,
    description: string,
    isLocal: bool,
    examples: Option<seq<string>>,
    company: Str)

  /** One `{ provider, models }` element of the endpoint's JSON array. */
  datatype Group = Group(provider: Descriptor, models: seq<Model>)

  predicate IsOpenRouter(g: Group) {
    g.provider.id == OpenRouterId
  }

  predicate IsNotOpenRouter(g: Group) {
    g.provider.id != OpenRouterId
  }

  /** The number of models over all groups. */
  function TotalModels(gs: seq<Group>): nat {
    if gs == [] then 0 else TotalModels(gs[..|gs| - 1]) + |gs[|gs| - 1].models|
  }
}

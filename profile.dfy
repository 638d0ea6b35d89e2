/** Executor profiles: named variants of each agent's configuration, with a `DEFAULT` fallback. */
module Profile {
  import opened Wrappers
  import opened Agents

  /** The name of the variant used when a profile names none. */
  const DefaultVariant := "DEFAULT"

  /** An agent kind and, optionally, one of its variants. */
  datatype ExecutorProfileId = ExecutorProfileId(executor: BaseDocumentAgent, variant: Option<string>)

  function NewProfileId(executor: BaseDocumentAgent): (p: ExecutorProfileId)
    ensures p.executor == executor && p.variant == None
  {
    ExecutorProfileId(executor, None)
  }

  function ProfileIdWithVariant(executor: BaseDocumentAgent, variant: string): (p: ExecutorProfileId)
    ensures p.executor == executor && p.variant == Some(variant)
  {
    ExecutorProfileId(executor, Some(variant))
  }

  /** The variant the profile names, or `DEFAULT` when it names none. */
  function VariantName(p: ExecutorProfileId): (name: string)
    ensures p.variant.Some? ==> name == p.variant.value
    ensures p.variant.None? ==> name == DefaultVariant
  {
    p.variant.UnwrapOr(DefaultVariant)
  }

  /** The crate's own example: no variant reads as `DEFAULT`, a named one as itself. */
  lemma VariantNameExample()
    ensures VariantName(NewProfileId(ClaudeCodeKind)) == "DEFAULT"
    ensures VariantName(ProfileIdWithVariant(ClaudeCodeKind, "PLAN")) == "PLAN"
  {
  }

  /** The configurations of one agent kind, by variant name. */
  class ExecutorConfig {
    var configurations: map<string, DocumentAgent>

    /** A configuration with the single variant `DEFAULT`. */
    constructor (defaultAgent: DocumentAgent)
      ensures configurations == map[DefaultVariant := defaultAgent]
      ensures configurations.Keys == {DefaultVariant}
      ensures GetDefault() == Some(defaultAgent)
    {
      configurations := map[DefaultVariant := defaultAgent];
    }

    /** Adds or replaces a variant; adding `DEFAULT` replaces the default. */
    method AddVariant(name: string, agent: DocumentAgent)
      modifies this
      ensures configurations == old(configurations)[name := agent]
      ensures Get(name) == Some(agent)
      ensures forall v :: v != name ==> Get(v) == old(Get(v))
    {
      configurations := configurations[name := agent];
    }

    function Get(variant: string): (r: Option<DocumentAgent>)
      reads this
      ensures r.Some? <==> variant in configurations
      ensures r.Some? ==> r.value == configurations[variant]
    {
      if variant in configurations then Some(configurations[variant]) else None
    }

    function GetDefault(): (r: Option<DocumentAgent>)
      reads this
      ensures r == Get(DefaultVariant)
    {
      Get(DefaultVariant)
    }
  }

  /**
   * Every agent kind's configuration. A configuration is stored by value, as
   * its variant map at the time it was added.
   */
  class ExecutorConfigs {
    var executors: map<BaseDocumentAgent, map<string, DocumentAgent>>

    constructor ()
      ensures executors == map[]
    {
      executors := map[];
    }

    method Add(executor: BaseDocumentAgent, config: ExecutorConfig)
      modifies this
      ensures executors == old(executors)[executor := config.configurations]
      ensures Get(executor) == Some(config.configurations)
    {
      executors := executors[executor := config.configurations];
    }

    function Get(executor: BaseDocumentAgent): (r: Option<map<string, DocumentAgent>>)
      reads this
      ensures r.Some? <==> executor in executors
      ensures r.Some? ==> r.value == executors[executor]
    {
      if executor in executors then Some(executors[executor]) else None
    }

    /** The agent a profile selects: none when the kind or the variant is unknown. */
    function GetAgent(p: ExecutorProfileId): (r: Option<DocumentAgent>)
      reads this
      ensures r.Some? <==> p.executor in executors && VariantName(p) in executors[p.executor]
      ensures r.Some? ==> r.value == executors[p.executor][VariantName(p)]
    {
      match Get(p.executor)
      case None => None
      case Some(variants) =>
        if VariantName(p) in variants then Some(variants[VariantName(p)]) else None
    }
  }

  /** A profile without a variant selects the `DEFAULT` configuration of its kind. */
  method DefaultProfileSelectsDefault(agent: DocumentAgent, plan: DocumentAgent) returns (got: Option<DocumentAgent>, gotPlan: Option<DocumentAgent>)
    ensures got == Some(agent) && gotPlan == Some(plan)
  {
    var config := new ExecutorConfig(agent);
    config.AddVariant("PLAN", plan);
    var configs := new ExecutorConfigs();
    configs.Add(ClaudeCodeKind, config);
    got := configs.GetAgent(NewProfileId(ClaudeCodeKind));
    gotPlan := configs.GetAgent(ProfileIdWithVariant(ClaudeCodeKind, "PLAN"));
  }
}

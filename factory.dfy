/** `DataFactory`: the registry from an asset type to an ingestor class,
    filled by the `@DataFactory.register(...)` decorators, and `create`,
    which builds an instance of the registered class. */
module Factory {
  import opened Records
  import opened Ingestors

  /** The ingestor classes that can be registered. */
  datatype IngestorClass = ContractIngestorClass | PriceIngestorClass | ConversationIngestorClass

  /** An instance built by `create`, tagged by its class. */
  datatype Ingestor =
    | ContractInstance(contract: ContractIngestor)
    | PriceInstance(price: PriceIngestor)
    | ConversationInstance(conversation: ConversationIngestor)
  {
    function Class(): IngestorClass
    {
      match this
      case ContractInstance(_) => ContractIngestorClass
      case PriceInstance(_) => PriceIngestorClass
      case ConversationInstance(_) => ConversationIngestorClass
    }

    function Object(): object
    {
      match this
      case ContractInstance(c) => c
      case PriceInstance(p) => p
      case ConversationInstance(v) => v
    }

    /** `to_json`: the record list the instance holds. */
    function ToJson(): seq<Record>
      reads Object()
    {
      match this
      case ContractInstance(c) => c.ToJson()
      case PriceInstance(p) => p.ToJson()
      case ConversationInstance(v) => v.ToJson()
    }

    /** `ingest(source)`: each call replaces the record list. */
    method Ingest(source: string, load: Loader)
      modifies Object()
      ensures ToJson() == load(source)
    {
      match this
      case ContractInstance(c) => c.Ingest(source, load);
      case PriceInstance(p) => p.Ingest(source, load);
      case ConversationInstance(v) => v.Ingest(source, load);
    }

    /** `to_episodes()`, dispatched on the class; it reads the instance and changes nothing. */
    method ToEpisodes() returns (r: Result<seq<Episode>>)
      ensures r == EpisodesOf(Class(), ToJson())
    {
      match this
      case ContractInstance(c) => r := c.ToEpisodes();
      case PriceInstance(p) => r := p.ToEpisodes();
      case ConversationInstance(v) => r := v.ToEpisodes();
    }
  }

  /** The episodes an instance of class `cls` holding `records` produces. */
  function EpisodesOf(cls: IngestorClass, records: seq<Record>): Result<seq<Episode>>
  {
    match cls
    case ContractIngestorClass => ContractEpisodes(records)
    case PriceIngestorClass => PriceEpisodes(records)
    case ConversationIngestorClass => ConversationEpisodes(records)
  }

  /** The class `create(assetType)` instantiates, or the ValueError it raises. */
  function Lookup(registry: map<string, IngestorClass>, assetType: string): Result<IngestorClass>
  {
    if assetType in registry then Success(registry[assetType])
    else Failure(UnknownAssetType(assetType))
  }

  class DataFactory {
    var registry: map<string, IngestorClass>

    /** The class attribute `registry = {}` before any decorator has run. */
    constructor ()
      ensures registry == map[]
    {
      registry := map[];
    }

    /** `register(assetType)(wrapped)`: binds the asset type to the class,
        replacing an earlier binding, and hands the class back unchanged. */
    method Register(assetType: string, wrapped: IngestorClass) returns (r: IngestorClass)
      modifies this
      ensures registry == old(registry)[assetType := wrapped]
      ensures r == wrapped
    {
      registry := registry[assetType := wrapped];
      r := wrapped;
    }

    /** The three decorators run when the module is imported. */
    method RegisterBuiltins()
      modifies this
      ensures registry == old(registry)["contract" := ContractIngestorClass]
                                       ["price" := PriceIngestorClass]
                                       ["conversation" := ConversationIngestorClass]
    {
      var _ := Register("contract", ContractIngestorClass);
      var _ := Register("price", PriceIngestorClass);
      var _ := Register("conversation", ConversationIngestorClass);
    }

    /** `create(assetType)`: a new, empty instance of the registered class,
        or UnknownAssetType; the registry is not changed either way. */
    method Create(assetType: string) returns (r: Result<Ingestor>)
      ensures r.Success? <==> assetType in registry
      ensures r.Failure? ==> r.error == UnknownAssetType(assetType)
      ensures r.Success? ==> r.value.Class() == registry[assetType]
      ensures r.Success? ==> fresh(r.value.Object()) && r.value.ToJson() == []
    {
      if assetType !in registry {
        return Failure(UnknownAssetType(assetType));
      }
      match registry[assetType]
      case ContractIngestorClass =>
        var c := new ContractIngestor();
        r := Success(ContractInstance(c));
      case PriceIngestorClass =>
        var p := new PriceIngestor();
        r := Success(PriceInstance(p));
      case ConversationIngestorClass =>
        var v := new ConversationIngestor();
        r := Success(ConversationInstance(v));
    }
  }

  /** The registry after a second registration under one asset type: the
      later class wins and `create` for every other type is unchanged. */
  lemma RegistrationOverrides(registry: map<string, IngestorClass>, assetType: string,
                              first: IngestorClass, second: IngestorClass, other: string)
    requires other != assetType
    ensures Lookup(registry[assetType := first][assetType := second], assetType) == Success(second)
    ensures Lookup(registry[assetType := first][assetType := second], other) == Lookup(registry, other)
  {
  }

  /** After the module's decorators, the three asset types create their
      ingestors and any other asset type fails with UnknownAssetType. */
  method RegistryScenario()
  {
    var factory := new DataFactory();
    factory.RegisterBuiltins();
    var price := factory.Create("price");
    assert price.Success? && price.value.Class() == PriceIngestorClass;
    var missing := factory.Create("weather");
    assert missing == Failure(UnknownAssetType("weather"));
    var returned := factory.Register("price", ConversationIngestorClass);
    assert returned == ConversationIngestorClass;
    var overridden := factory.Create("price");
    assert overridden.Success? && overridden.value.Class() == ConversationIngestorClass;
    var contract := factory.Create("contract");
    assert contract.Success? && contract.value.Class() == ContractIngestorClass;
  }
}

/** The resource registry of `piecrust/api.py`: `Api` keeps every registered
    resource by name and, separately, the canonical resource per name, and
    builds the discovery document of `top_level`. */
module Api {
  import opened Wrappers
  import opened Exceptions
  import opened Http
  import opened Text

  /** A resource's `_meta` options: its name (absent when it defines none)
      and the `api_name` that registration stamps on it. */
  class ResourceOptions {
    const resourceName: Option<string>
    var apiName: Option<string>

    constructor(resourceName: Option<string>)
      ensures this.resourceName == resourceName && apiName.None?
    {
      this.resourceName := resourceName;
      apiName := None;
    }
  }

  /** The inner `Meta` class of a resource's class, shared by every
      instance of that class. */
  class ResourceMeta {
    var apiName: Option<string>

    constructor()
      ensures apiName.None?
    {
      apiName := None;
    }
  }

  class Resource {
    const meta: ResourceOptions
    const classMeta: ResourceMeta

    constructor(meta: ResourceOptions, classMeta: ResourceMeta)
      ensures this.meta == meta && this.classMeta == classMeta
    {
      this.meta := meta;
      this.classMeta := classMeta;
    }
  }

  /** The `canonical` argument: the `True` singleton, or any other Python
      value (whose truthiness `register` ignores, since it tests identity). */
  datatype CanonicalFlag = TrueSingleton | OtherValue(truthy: bool)

  /** A warning `register` emitted. */
  datatype Warning = CanonicalReplaced(resource: Resource, name: string)

  /** A serializer object: the class-level default or one passed in. */
  datatype Serializer = DefaultSerializer | CustomSerializer(id: nat)

  /** One entry of the discovery document. */
  datatype Entry = Entry(listEndpoint: string, schema: string)

  /** The collaborators of `top_level`: `_build_reverse_url`,
      `determine_format`, `is_valid_jsonp_callback_value`, the serializer's
      `serialize`, and `build_content_type`. */
  datatype TopLevelServices = TopLevelServices(
    reverseUrl: (string, map<string, string>) -> string,
    determineFormat: (Request, Serializer) -> string,
    isValidJsonpCallback: string -> bool,
    serialize: (Serializer, map<string, Entry>, string, map<string, string>) -> string,
    buildContentType: string -> string)

  /** The URL arguments of both reversals for one resource. */
  function ReverseArgs(apiName: string, name: string): (kwargs: map<string, string>)
    ensures kwargs.Keys == {"api_name", "resource_name"}
    ensures kwargs["api_name"] == apiName && kwargs["resource_name"] == name
  {
    map["api_name" := apiName, "resource_name" := name]
  }

  /** `{'list_endpoint': ..., 'schema': ...}` for one registered name. */
  function EntryFor(reverseUrl: (string, map<string, string>) -> string, apiName: string, name: string): (e: Entry)
    ensures e.listEndpoint == reverseUrl("api_dispatch_list", ReverseArgs(apiName, name))
    ensures e.schema == reverseUrl("api_get_schema", ReverseArgs(apiName, name))
  {
    Entry(reverseUrl("api_dispatch_list", ReverseArgs(apiName, name)),
          reverseUrl("api_get_schema", ReverseArgs(apiName, name)))
  }

  const MissingResourceName: string := "Resource must define a 'resource_name'."
  const InvalidCallback: string := "JSONP callback name is invalid."

  function NotRegisteredMessage(name: string): string {
    "No resource was registered as canonical for '" + name + "'."
  }

  class Api {
    const apiName: string
    const serializer: Serializer
    const responseGenerator: ResponseGenerator
    /** `_registry`: the most recently registered resource per name. */
    var registry: map<string, Resource>
    /** `_canonicals`: the most recent canonical registration per name. */
    var canonicals: map<string, Resource>
    /** The warnings emitted so far, oldest first. */
    var warnings: seq<Warning>

    /** Every resource sits under its own name, and only a registered name
        can have a canonical resource. */
    ghost predicate Valid()
      reads this
    {
      && (forall name :: name in registry ==> registry[name].meta.resourceName == Some(name))
      && (forall name :: name in canonicals ==> canonicals[name].meta.resourceName == Some(name))
      && canonicals.Keys <= registry.Keys
    }

    /** `Api(api_name="v1", serializer=None, response_generator=None)`: the
        class-level serializer and generator are kept unless others are
        given. */
    constructor(apiName: string := "v1", serializer: Option<Serializer> := None,
                responseGenerator: Option<ResponseGenerator> := None)
      ensures Valid()
      ensures this.apiName == apiName
      ensures this.serializer == serializer.GetOr(DefaultSerializer)
      ensures this.responseGenerator == responseGenerator.GetOr(ResponseGenerator)
      ensures registry == map[] && canonicals == map[] && warnings == []
    {
      this.apiName := apiName;
      this.serializer := serializer.GetOr(DefaultSerializer);
      this.responseGenerator := responseGenerator.GetOr(ResponseGenerator);
      registry := map[];
      canonicals := map[];
      warnings := [];
    }

    /** `register(resource, canonical=True)`. */
    method Register(resource: Resource, canonical: CanonicalFlag := TrueSingleton) returns (error: Option<Error>)
      requires Valid()
      modifies this, resource.meta, resource.classMeta
      ensures Valid()
      ensures resource.meta.resourceName.None? ==>
        && error == Some(Exception(ImproperlyConfigured, MissingResourceName))
        && registry == old(registry) && canonicals == old(canonicals) && warnings == old(warnings)
        && unchanged(resource.meta, resource.classMeta)
      ensures resource.meta.resourceName.Some? ==>
        var name := resource.meta.resourceName.value;
        && error.None?
        && registry == old(registry)[name := resource]
        && (canonical.TrueSingleton? ==>
              && canonicals == old(canonicals)[name := resource]
              && warnings == old(warnings) + (if name in old(canonicals) then [CanonicalReplaced(resource, name)] else [])
              && resource.meta.apiName == Some(apiName)
              && resource.classMeta.apiName == Some(apiName))
        && (!canonical.TrueSingleton? ==>
              && canonicals == old(canonicals) && warnings == old(warnings)
              && unchanged(resource.meta, resource.classMeta))
    {
      var resourceName := resource.meta.resourceName;
      if resourceName.None? {
        return Some(Exception(ImproperlyConfigured, MissingResourceName));
      }
      var name := resourceName.value;
      registry := registry[name := resource];
      if canonical.TrueSingleton? {
        if name in canonicals {
          warnings := warnings + [CanonicalReplaced(resource, name)];
        }
        canonicals := canonicals[name := resource];
        assert Valid();
        resource.meta.apiName := Some(apiName);
        resource.classMeta.apiName := Some(apiName);
      }
      return None;
    }

    /** `unregister(resource_name)`: drop the name from both maps, if there. */
    method Unregister(name: string)
      requires Valid()
      modifies this
      ensures Valid()
      ensures registry == old(registry) - {name}
      ensures canonicals == old(canonicals) - {name}
      ensures warnings == old(warnings)
    {
      if name in registry {
        registry := registry - {name};
      }
      if name in canonicals {
        canonicals := canonicals - {name};
      }
    }

    /** `canonical_resource_for(resource_name)`. */
    function CanonicalResourceFor(name: string): (r: Result<Resource, Error>)
      reads this
      ensures r.Success? <==> name in canonicals
      ensures r.Success? ==> r.value == canonicals[name]
      ensures r.Success? && Valid() ==> r.value.meta.resourceName == Some(name)
      ensures r.Failure? ==> r.error == Exception(NotRegistered, NotRegisteredMessage(name))
    {
      if name in canonicals then Success(canonicals[name])
      else Failure(Exception(NotRegistered, NotRegisteredMessage(name)))
    }

    /** The discovery document: one entry per registered name. */
    ghost function Discovery(apiName: string, reverseUrl: (string, map<string, string>) -> string)
        : (document: map<string, Entry>)
      reads this
      ensures document.Keys == registry.Keys
      ensures forall name :: name in document ==> document[name] == EntryFor(reverseUrl, apiName, name)
    {
      map name | name in registry :: EntryFor(reverseUrl, apiName, name)
    }

    /** The loop of `top_level` that fills `available_resources`. The source
        visits the names in sorted order; the resulting dictionary does not
        depend on that order, so any order is modelled. */
    method AvailableResources(apiName: string, reverseUrl: (string, map<string, string>) -> string)
        returns (resources: map<string, Entry>)
      ensures resources.Keys == registry.Keys
      ensures forall name :: name in resources ==> resources[name] == EntryFor(reverseUrl, apiName, name)
    {
      resources := map[];
      var pending := registry.Keys;
      while pending != {}
        invariant pending <= registry.Keys
        invariant resources.Keys == registry.Keys - pending
        invariant forall name :: name in resources ==> resources[name] == EntryFor(reverseUrl, apiName, name)
        decreases pending
      {
        var name :| name in pending;
        resources := resources[name := EntryFor(reverseUrl, apiName, name)];
        pending := pending - {name};
      }
    }

    /** `top_level(request, api_name=None)`. A script format needs the
        `callback` query parameter (default `callback`) to pass the validity
        check, or `BadRequest` is raised before anything is serialised. */
    method TopLevel(request: Request, apiName: Option<string>, services: TopLevelServices)
        returns (r: Result<NativeResponse, Error>)
      ensures
        var format := services.determineFormat(request, serializer);
        var callback := GetDefault(request.getParams, "callback", "callback");
        var scripted := Contains(format, "text/javascript");
        if scripted && !services.isValidJsonpCallback(callback) then
          r == Failure(Exception(BadRequest, InvalidCallback))
        else
          var document := Discovery(apiName.GetOr(this.apiName), services.reverseUrl);
          var options := if scripted then map["callback" := callback] else map[];
          var content := services.serialize(serializer, document, format, options);
          r == responseGenerator.Create(New(HttpOK, Some(content), None,
                 map["content_type" := services.buildContentType(format)]))
    {
      var name := if apiName.None? then this.apiName else apiName.value;
      var availableResources := AvailableResources(name, services.reverseUrl);
      assert availableResources == Discovery(name, services.reverseUrl);
      var desiredFormat := services.determineFormat(request, serializer);
      var options: map<string, string> := map[];
      if Contains(desiredFormat, "text/javascript") {
        var callback := GetDefault(request.getParams, "callback", "callback");
        if !services.isValidJsonpCallback(callback) {
          return Failure(Exception(BadRequest, InvalidCallback));
        }
        options := options["callback" := callback];
      }
      var serialized := services.serialize(serializer, availableResources, desiredFormat, options);
      r := responseGenerator.Create(New(HttpOK, Some(serialized), None,
             map["content_type" := services.buildContentType(desiredFormat)]));
    }
  }

  /** The discovery document has exactly the registered names as keys. */
  lemma DiscoveryKeys(api: Api, apiName: string, reverseUrl: (string, map<string, string>) -> string)
    ensures api.Discovery(apiName, reverseUrl).Keys == api.registry.Keys
  {
  }

  /** Registering two resources under one name canonically: the second
      becomes canonical and exactly one warning is emitted. */
  method CanonicalReplacement(first: Resource, second: Resource)
      returns (api: Api, found: Result<Resource, Error>)
    requires first.meta.resourceName.Some? && second.meta.resourceName == first.meta.resourceName
    modifies first.meta, first.classMeta, second.meta, second.classMeta
    ensures fresh(api)
    ensures found == Success(second)
    ensures api.warnings == [CanonicalReplaced(second, first.meta.resourceName.value)]
    ensures api.registry == map[first.meta.resourceName.value := second]
  {
    api := new Api();
    var e1 := api.Register(first);
    var e2 := api.Register(second);
    found := api.CanonicalResourceFor(first.meta.resourceName.value);
  }

  /** A registration whose flag is merely truthy replaces the registry entry
      but leaves the canonical resource, and emits no warning. */
  method TruthyIsNotCanonical(first: Resource, second: Resource)
      returns (api: Api, found: Result<Resource, Error>)
    requires first.meta.resourceName.Some? && second.meta.resourceName == first.meta.resourceName
    modifies first.meta, first.classMeta, second.meta, second.classMeta
    ensures fresh(api)
    ensures found == Success(first)
    ensures api.registry == map[first.meta.resourceName.value := second]
    ensures api.warnings == []
  {
    api := new Api();
    var e1 := api.Register(first);
    var e2 := api.Register(second, OtherValue(true));
    found := api.CanonicalResourceFor(first.meta.resourceName.value);
  }

  /** Removing a name twice is removing it once, and after removal the name
      has no canonical resource. */
  method UnregisterTwice(api: Api, name: string) returns (found: Result<Resource, Error>)
    requires api.Valid()
    modifies api
    ensures api.Valid()
    ensures api.registry == old(api.registry) - {name}
    ensures api.canonicals == old(api.canonicals) - {name}
    ensures found == Failure(Exception(NotRegistered, NotRegisteredMessage(name)))
  {
    api.Unregister(name);
    api.Unregister(name);
    found := api.CanonicalResourceFor(name);
  }
}

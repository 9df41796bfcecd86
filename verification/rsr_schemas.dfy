/** The RSR schema registry (src/rsr/schemas.rs): schema definitions keyed
    by id, four built-in CUE schemas, lookup of a schema's content, and
    selection by tag.

    The schema texts themselves are given: `bodies(b)` is the text of the
    built-in schema `b`, and `read(path)` the outcome of reading a schema
    file. */
module Schemas {
  import opened Wrappers
  import opened Errors

  datatype SchemaType = Cue | JsonSchema | Nickel

  datatype SchemaSource =
    | Inline(content: string)
    | Path(path: string)
    | Url(url: string)

  datatype SchemaDefinition = SchemaDefinition(
    id: string,
    schemaType: SchemaType,
    name: string,
    description: string,
    source: SchemaSource,
    version: string,
    tags: seq<string>)

  /** Every definition is stored under its own id. */
  ghost predicate Keyed(schemas: map<string, SchemaDefinition>) {
    forall id :: id in schemas ==> schemas[id].id == id
  }

  // ---------------------------------------------------------------------
  // Built-in schemas

  datatype Builtin = PipelineSchema | RequirementSchema | ConfigSchema | K8sBaseSchema

  function Id(b: Builtin): string {
    match b
    case PipelineSchema => "rsr:pipeline"
    case RequirementSchema => "rsr:requirement"
    case ConfigSchema => "rsr:config"
    case K8sBaseSchema => "k8s:base"
  }

  function Name(b: Builtin): string {
    match b
    case PipelineSchema => "RSR Pipeline Schema"
    case RequirementSchema => "RSR Requirement Schema"
    case ConfigSchema => "RSR Configuration Schema"
    case K8sBaseSchema => "Kubernetes Base Schema"
  }

  function Description(b: Builtin): string {
    match b
    case PipelineSchema => "Schema for .conflow.yaml pipeline definitions"
    case RequirementSchema => "Schema for RSR requirement definitions"
    case ConfigSchema => "Schema for .rsr.yaml configuration files"
    case K8sBaseSchema => "Base schema for Kubernetes resources"
  }

  function Tags(b: Builtin): seq<string> {
    match b
    case PipelineSchema => ["conflow", "pipeline"]
    case RequirementSchema => ["rsr", "requirement"]
    case ConfigSchema => ["rsr", "config"]
    case K8sBaseSchema => ["kubernetes", "k8s"]
  }

  /** A built-in schema: an inline CUE schema at version 1.0.0. */
  function Definition(b: Builtin, bodies: Builtin -> string): (d: SchemaDefinition)
    ensures d.id == Id(b) && d.schemaType == Cue && d.version == "1.0.0"
    ensures d.source == Inline(bodies(b))
  {
    SchemaDefinition(Id(b), Cue, Name(b), Description(b), Inline(bodies(b)), "1.0.0", Tags(b))
  }

  /** `schemas` after the four insertions of `register_builtins`. */
  function WithBuiltins(schemas: map<string, SchemaDefinition>, bodies: Builtin -> string): map<string, SchemaDefinition> {
    schemas[Id(PipelineSchema) := Definition(PipelineSchema, bodies)]
           [Id(RequirementSchema) := Definition(RequirementSchema, bodies)]
           [Id(ConfigSchema) := Definition(ConfigSchema, bodies)]
           [Id(K8sBaseSchema) := Definition(K8sBaseSchema, bodies)]
  }

  /** The built-in schemas alone. */
  function Builtins(bodies: Builtin -> string): map<string, SchemaDefinition> {
    WithBuiltins(map[], bodies)
  }

  /** The built-in ids differ: their lengths already do. */
  lemma IdsDistinct(a: Builtin, b: Builtin)
    ensures Id(a) == Id(b) ==> a == b
  {
    assert |Id(PipelineSchema)| == 12 && |Id(RequirementSchema)| == 15;
    assert |Id(ConfigSchema)| == 10 && |Id(K8sBaseSchema)| == 8;
  }

  /** After `register_builtins` each built-in is found under its own id,
      and every other id keeps what it had. */
  lemma WithBuiltinsFind(schemas: map<string, SchemaDefinition>, bodies: Builtin -> string, b: Builtin)
    ensures Id(b) in WithBuiltins(schemas, bodies) && WithBuiltins(schemas, bodies)[Id(b)] == Definition(b, bodies)
  {
    IdsDistinct(b, RequirementSchema);
    IdsDistinct(b, ConfigSchema);
    IdsDistinct(b, K8sBaseSchema);
  }

  lemma WithBuiltinsKeep(schemas: map<string, SchemaDefinition>, bodies: Builtin -> string, id: string)
    requires forall b: Builtin :: id != Id(b)
    ensures WithBuiltins(schemas, bodies).Keys == schemas.Keys + {Id(PipelineSchema), Id(RequirementSchema), Id(ConfigSchema), Id(K8sBaseSchema)}
    ensures id in schemas ==> WithBuiltins(schemas, bodies)[id] == schemas[id]
  {
  }

  /** The built-ins keep every registry keyed by id. */
  lemma WithBuiltinsKeyed(schemas: map<string, SchemaDefinition>, bodies: Builtin -> string)
    requires Keyed(schemas)
    ensures Keyed(WithBuiltins(schemas, bodies))
  {
    var m := WithBuiltins(schemas, bodies);
    forall id | id in m ensures m[id].id == id {
      if id == Id(PipelineSchema) {
        WithBuiltinsFind(schemas, bodies, PipelineSchema);
      } else if id == Id(RequirementSchema) {
        WithBuiltinsFind(schemas, bodies, RequirementSchema);
      } else if id == Id(ConfigSchema) {
        WithBuiltinsFind(schemas, bodies, ConfigSchema);
      } else if id == Id(K8sBaseSchema) {
        WithBuiltinsFind(schemas, bodies, K8sBaseSchema);
      } else {
        WithBuiltinsKeep(schemas, bodies, id);
      }
    }
  }

  /** Exactly four built-ins, each stored under its own id. */
  lemma BuiltinsShape(bodies: Builtin -> string)
    ensures Keyed(Builtins(bodies))
    ensures Builtins(bodies).Keys == {"rsr:pipeline", "rsr:requirement", "rsr:config", "k8s:base"}
    ensures |Builtins(bodies).Keys| == 4
  {
    WithBuiltinsKeyed(map[], bodies);
    IdsDistinct(PipelineSchema, RequirementSchema);
    IdsDistinct(PipelineSchema, ConfigSchema);
    IdsDistinct(PipelineSchema, K8sBaseSchema);
    IdsDistinct(RequirementSchema, ConfigSchema);
    IdsDistinct(RequirementSchema, K8sBaseSchema);
    IdsDistinct(ConfigSchema, K8sBaseSchema);
  }

  // ---------------------------------------------------------------------
  // The registry

  const NotInRegistry := "Schema not found in registry"

  class RsrSchemaRegistry {
    var schemas: map<string, SchemaDefinition>
    var cacheDir: Option<string>

    /** `new`: the built-in schemas and no cache directory. */
    constructor (bodies: Builtin -> string)
      ensures schemas == Builtins(bodies) && cacheDir == None
    {
      schemas := map[];
      cacheDir := None;
      new;
      RegisterBuiltins(bodies);
    }

    /** `with_cache`: the registry of `new`, with the cache directory set. */
    constructor WithCache(dir: string, bodies: Builtin -> string)
      ensures schemas == Builtins(bodies) && cacheDir == Some(dir)
    {
      schemas := map[];
      cacheDir := None;
      new;
      RegisterBuiltins(bodies);
      cacheDir := Some(dir);
    }

    /** `register_builtins`: the built-ins replace any schema of the same
        id and leave the others. */
    method RegisterBuiltins(bodies: Builtin -> string)
      modifies this
      ensures schemas == WithBuiltins(old(schemas), bodies)
      ensures cacheDir == old(cacheDir)
    {
      schemas := schemas[Id(PipelineSchema) := Definition(PipelineSchema, bodies)];
      schemas := schemas[Id(RequirementSchema) := Definition(RequirementSchema, bodies)];
      schemas := schemas[Id(ConfigSchema) := Definition(ConfigSchema, bodies)];
      schemas := schemas[Id(K8sBaseSchema) := Definition(K8sBaseSchema, bodies)];
    }

    /** `get`: the schema of that id, if one is registered. */
    function Get(id: string): (r: Option<SchemaDefinition>)
      reads this
      ensures r.Some? <==> id in schemas
      ensures r.Some? ==> r.value == schemas[id]
    {
      if id in schemas then Some(schemas[id]) else None
    }

    /** `get_content`: an unknown id is a missing file; an inline schema is
        its content, a schema file is read, and a URL schema fails. */
    function GetContent(id: string, read: string -> Result<string, string>): (r: Result<string, ConflowError>)
      reads this
      ensures id !in schemas <==> r == Err(FileNotFound(id, Some(NotInRegistry)))
      ensures id in schemas && schemas[id].source.Inline? ==> r == Ok(schemas[id].source.content)
      ensures id in schemas && schemas[id].source.Path? ==>
        r == (match read(schemas[id].source.path)
              case Ok(text) => Ok(text)
              case Err(message) => Err(Io(message)))
      ensures id in schemas && schemas[id].source.Url? ==>
        r == Err(ExecutionFailed("URL schemas not yet implemented: " + schemas[id].source.url, None))
    {
      if id !in schemas then Err(FileNotFound(id, Some(NotInRegistry)))
      else match schemas[id].source
        case Inline(content) => Ok(content)
        case Path(path) =>
          (match read(path)
           case Ok(text) => Ok(text)
           case Err(message) => Err(Io(message)))
        case Url(url) => Err(ExecutionFailed("URL schemas not yet implemented: " + url, None))
    }

    /** `by_tag`: the registered schemas that carry the tag. */
    function ByTag(tag: string): (r: set<SchemaDefinition>)
      reads this
      ensures forall d :: d in r <==> d in schemas.Values && tag in d.tags
    {
      set id | id in schemas && tag in schemas[id].tags :: schemas[id]
    }

    /** `register`: the schema is stored under its id, replacing any schema
        of that id; nothing else changes. */
    method Register(schema: SchemaDefinition)
      modifies this
      ensures schemas == old(schemas)[schema.id := schema]
      ensures cacheDir == old(cacheDir)
      ensures Get(schema.id) == Some(schema)
      ensures old(Keyed(schemas)) ==> Keyed(schemas)
    {
      schemas := schemas[schema.id := schema];
    }
  }

  // ---------------------------------------------------------------------
  // Properties of the built-in registry

  /** A fresh registry finds each built-in by id, and gives the built-in
      text as the content of each; an id it does not know is an error. */
  lemma BuiltinLookups(r: RsrSchemaRegistry, bodies: Builtin -> string, read: string -> Result<string, string>, b: Builtin)
    requires r.schemas == Builtins(bodies)
    ensures r.Get(Id(b)) == Some(Definition(b, bodies))
    ensures r.GetContent(Id(b), read) == Ok(bodies(b))
    ensures r.GetContent("rsr:unknown", read).Err?
  {
    WithBuiltinsFind(map[], bodies, b);
    BuiltinsShape(bodies);
  }

  /** The built-in registry holds exactly the four built-in definitions. */
  lemma BuiltinValues(bodies: Builtin -> string)
    ensures Builtins(bodies).Values == {Definition(PipelineSchema, bodies), Definition(RequirementSchema, bodies),
                                        Definition(ConfigSchema, bodies), Definition(K8sBaseSchema, bodies)}
  {
    var m := Builtins(bodies);
    WithBuiltinsFind(map[], bodies, PipelineSchema);
    WithBuiltinsFind(map[], bodies, RequirementSchema);
    WithBuiltinsFind(map[], bodies, ConfigSchema);
    WithBuiltinsFind(map[], bodies, K8sBaseSchema);
    forall d | d in m.Values
      ensures d in {Definition(PipelineSchema, bodies), Definition(RequirementSchema, bodies),
                    Definition(ConfigSchema, bodies), Definition(K8sBaseSchema, bodies)}
    {
      var id :| id in m && m[id] == d;
      if forall b: Builtin :: id != Id(b) {
        WithBuiltinsKeep(map[], bodies, id);
        assert false;
      }
    }
  }

  /** Of the built-ins, the two RSR schemas carry the tag "rsr". */
  lemma BuiltinTags(r: RsrSchemaRegistry, bodies: Builtin -> string)
    requires r.schemas == Builtins(bodies)
    ensures r.ByTag("rsr") == {Definition(RequirementSchema, bodies), Definition(ConfigSchema, bodies)}
    ensures |r.ByTag("rsr")| == 2
  {
    BuiltinValues(bodies);
    assert "rsr" !in Tags(PipelineSchema) && "rsr" !in Tags(K8sBaseSchema);
    assert Definition(RequirementSchema, bodies) != Definition(ConfigSchema, bodies) by {
      assert |Id(RequirementSchema)| != |Id(ConfigSchema)|;
    }
  }

  /** The pipeline and Kubernetes schemas are each alone under their first
      tag. */
  lemma BuiltinSoleTags(r: RsrSchemaRegistry, bodies: Builtin -> string)
    requires r.schemas == Builtins(bodies)
    ensures r.ByTag("conflow") == {Definition(PipelineSchema, bodies)}
    ensures r.ByTag("kubernetes") == {Definition(K8sBaseSchema, bodies)}
  {
    BuiltinValues(bodies);
    assert "conflow" !in Tags(RequirementSchema) && "conflow" !in Tags(ConfigSchema) && "conflow" !in Tags(K8sBaseSchema);
    assert "kubernetes" !in Tags(RequirementSchema) && "kubernetes" !in Tags(ConfigSchema) && "kubernetes" !in Tags(PipelineSchema);
  }

  /** Registering a schema and then selecting one of its tags finds it;
      schemas under other ids keep their place in every selection. */
  lemma RegisterThenByTag(before: map<string, SchemaDefinition>, r: RsrSchemaRegistry, schema: SchemaDefinition, tag: string)
    requires r.schemas == before[schema.id := schema]
    ensures tag in schema.tags ==> schema in r.ByTag(tag)
    ensures forall id :: id in before && id != schema.id && tag in before[id].tags ==> before[id] in r.ByTag(tag)
  {
    assert r.schemas[schema.id] == schema;
    forall id | id in before && id != schema.id && tag in before[id].tags
      ensures before[id] in r.ByTag(tag)
    {
      assert r.schemas[id] == before[id];
    }
  }
}

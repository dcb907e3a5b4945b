/**
 * Two passes over the generated OpenAPI document: default responses are added to the operations,
 * and a wrong `enum` is taken off array properties.
 */
module OpenApi {
  import opened Wrappers
  import opened Strings
  import opened Json

  /** `isSecured`: the operation has a security requirement of its own. */
  datatype Operation = Operation(isSecured: bool, responses: map<string, Json>)

  /** Operations by method name; a path item may hold other keys as well. */
  type PathItem = map<string, Operation>

  const ALL_METHODS := ["get", "put", "post", "delete", "options", "head", "patch", "trace"]

  // ------------------------------------------------------------------ constants

  function GetResponseRef(name: string): Json
  {
    Object(map["$ref" := Text(ResponseRef(name))])
  }

  function ResponseRef(name: string): string
  {
    Join(["#", "components", "responses", name], '/')
  }

  function SchemaRef(name: string): string
  {
    Join(["#", "components", "schemas", name], '/')
  }

  function TypeOnly(name: string): Json
  {
    Object(map["type" := Text(name)])
  }

  const ERROR_SCHEMA := Object(map[
    "type" := Text("object"),
    "properties" := Object(map["message" := TypeOnly("string"), "statusCode" := TypeOnly("number")]),
    "required" := Array([Text("message"), Text("statusCode")])])

  /** An absent `error` is undefined in the example, which the merge and the serialised form leave out. */
  function CreateErrorResponse(description: string, statusCode: int, message: Json, error: Option<string>): Json
  {
    var example := map["statusCode" := Number(statusCode), "message" := message];
    Object(map[
      "description" := Text(description),
      "content" := Object(map["application/json" := Object(map[
        "schema" := Object(map["$ref" := Text(SchemaRef("Error"))]),
        "example" := Object(if error.Some? then example["error" := Text(error.value)] else example)])])])
  }

  const RESPONSES := map[
    "InternalServerError" := CreateErrorResponse("Internal Server Error", 500, Text("Internal Server Error"), None),
    "NotAuthorized" := CreateErrorResponse("Unauthorized", 401, Text("Unauthorized"), None),
    "InvalidData" := CreateErrorResponse("Bad Request", 400, Array([]), Some("Bad Request"))]

  const ADDITIONAL_COMPONENTS := Object(map["schemas" := Object(map["Error" := ERROR_SCHEMA]), "responses" := Object(RESPONSES)])

  // ------------------------------------------------------------------ the passes, in place

  class Document {
    var paths: map<string, PathItem>
    var components: Option<Json>

    constructor (paths: map<string, PathItem>, components: Option<Json>)
      ensures this.paths == paths && this.components == components
    {
      this.paths, this.components := paths, components;
    }

    method AddDefaultResponses()
      modifies this
      ensures components == MergedComponents(old(components))
      ensures paths == WithDefaults(old(paths))
    {
      hide Merge, PathWithDefaults;
      if components.Some? {
        components := Some(Merge(components.value, ADDITIONAL_COMPONENTS));
      }
      var left := paths.Keys;
      ghost var before := paths;
      while left != {}
        invariant left <= before.Keys && paths.Keys == before.Keys
        invariant forall p :: p in before ==> paths[p] == if p in left then before[p] else PathWithDefaults(before[p])
        invariant components == MergedComponents(old(components))
        decreases left
      {
        var path :| path in left;
        var item := CompletePath(paths[path]);
        paths := paths[path := item];
        left := left - {path};
      }
    }

    method CompletePath(item: PathItem) returns (completed: PathItem)
      ensures completed == PathWithDefaults(item)
    {
      hide CompleteOperation;
      completed := item;
      for i := 0 to |ALL_METHODS|
        invariant completed.Keys == item.Keys
        invariant forall m :: m in item ==> completed[m] == if m in ALL_METHODS[..i] then CompleteOperation(m, item[m]) else item[m]
      {
        var name := ALL_METHODS[i];
        MethodsAreDistinct(i);
        assert ALL_METHODS[..i + 1] == ALL_METHODS[..i] + [name];
        if name in completed {
          completed := completed[name := CompleteOperation(name, completed[name])];
        }
      }
      assert ALL_METHODS[..|ALL_METHODS|] == ALL_METHODS;
    }

    method FixBrokenEnumArrays()
      modifies this`components
      ensures components == FixedComponents(old(components))
    {
      hide FixedSchema;
      if HasSchemas(components) {
        var entries := components.value.entries;
        var before := entries["schemas"].entries;
        var schemas := before;
        var left := schemas.Keys;
        while left != {}
          invariant left <= before.Keys && schemas.Keys == before.Keys
          invariant forall k :: k in before ==> schemas[k] == if k in left then before[k] else FixedSchema(before[k])
          decreases left
        {
          var key :| key in left;
          var schema := FixSchema(schemas[key]);
          schemas := schemas[key := schema];
          left := left - {key};
        }
        assert schemas == FixedSchemas(before);
        components := Some(Object(entries["schemas" := Object(schemas)]));
      }
    }

    method FixSchema(schema: Json) returns (fixed: Json)
      ensures fixed == FixedSchema(schema)
    {
      fixed := schema;
      if IsObjectSchema(schema) {
        var before := schema.entries["properties"].entries;
        var properties := before;
        var left := properties.Keys;
        while left != {}
          invariant left <= before.Keys && properties.Keys == before.Keys
          invariant forall k :: k in before ==> properties[k] == if k in left then before[k] else FixedProperty(before[k])
          decreases left
        {
          var key :| key in left;
          if Has(properties[key], "items") && Has(properties[key], "enum") {
            properties := properties[key := Object(properties[key].entries - {"enum"})];
          }
          left := left - {key};
        }
        assert properties == FixedProperties(before);
        fixed := Object(schema.entries["properties" := Object(properties)]);
      }
    }
  }

  // ------------------------------------------------------------------ specification

  /** `??=`: a missing or null response is filled in. */
  function OrElse(responses: map<string, Json>, status: string, default_: Json): map<string, Json>
  {
    if status in responses && responses[status] != Null then responses else responses[status := default_]
  }

  /** The statements of the loop body, in order. */
  function CompleteOperation(name: string, op: Operation): Operation
  {
    var r0 := if op.isSecured then OrElse(op.responses, "401", GetResponseRef("NotAuthorized")) else op.responses;
    var r1 := if name != "get" then OrElse(r0, "400", GetResponseRef("InvalidData")) else r0;
    op.(responses := OrElse(r1, "500", GetResponseRef("InternalServerError")))
  }

  /** The default an operation is due under a status, if any. */
  function DefaultFor(name: string, isSecured: bool, status: string): Option<string>
  {
    if status == "500" then Some("InternalServerError")
    else if status == "400" && name != "get" then Some("InvalidData")
    else if status == "401" && isSecured then Some("NotAuthorized")
    else None
  }

  function ResponseAt(op: Operation, status: string): Option<Json>
  {
    if status in op.responses && op.responses[status] != Null then Some(op.responses[status]) else None
  }

  function PathWithDefaults(item: PathItem): PathItem
  {
    map m | m in item :: if m in ALL_METHODS then CompleteOperation(m, item[m]) else item[m]
  }

  function WithDefaults(paths: map<string, PathItem>): map<string, PathItem>
  {
    map p | p in paths :: PathWithDefaults(paths[p])
  }

  /** lodash merges into a new object when there are no components, which is then lost. */
  function MergedComponents(components: Option<Json>): Option<Json>
  {
    if components.Some? then Some(Merge(components.value, ADDITIONAL_COMPONENTS)) else None
  }

  predicate Has(j: Json, key: string)
  {
    j.Object? && key in j.entries
  }

  predicate IsObjectSchema(schema: Json)
  {
    Has(schema, "type") && schema.entries["type"] == Text("object")
    && Has(schema, "properties") && schema.entries["properties"].Object?
  }

  function FixedProperty(property: Json): Json
  {
    if Has(property, "items") && Has(property, "enum") then Object(property.entries - {"enum"}) else property
  }

  function FixedProperties(properties: map<string, Json>): map<string, Json>
  {
    map k | k in properties :: FixedProperty(properties[k])
  }

  function FixedSchema(schema: Json): Json
  {
    if IsObjectSchema(schema)
    then Object(schema.entries["properties" := Object(FixedProperties(schema.entries["properties"].entries))])
    else schema
  }

  function FixedSchemas(schemas: map<string, Json>): map<string, Json>
  {
    map k | k in schemas :: FixedSchema(schemas[k])
  }

  predicate HasSchemas(components: Option<Json>)
  {
    components.Some? && Has(components.value, "schemas") && components.value.entries["schemas"].Object?
  }

  function FixedComponents(components: Option<Json>): Option<Json>
  {
    if HasSchemas(components)
    then Some(Object(components.value.entries["schemas" := Object(FixedSchemas(components.value.entries["schemas"].entries))]))
    else components
  }

  lemma MethodsAreDistinct(i: nat)
    requires i < |ALL_METHODS|
    ensures ALL_METHODS[i] !in ALL_METHODS[..i]
  {
    var m := ALL_METHODS;
    assert m[0][0] == 'g' && m[1] == "put" && m[2] == "post" && m[3][0] == 'd' && m[4][0] == 'o' && m[5][0] == 'h' && m[6] == "patch" && m[7][0] == 't';
    assert m[1][1] == 'u' && m[2][1] == 'o' && m[6][1] == 'a';
  }

  // ------------------------------------------------------------------ properties of the responses

  /**
   * Total, conservative and exact: an operation keeps every response it had, and gains one exactly for
   * the statuses that are due to it (500 always, 400 unless a get, 401 when secured) and were missing.
   */
  lemma ResponsesAfterwards(paths: map<string, PathItem>, p: string, m: string, status: string)
    requires p in paths && m in paths[p]
    ensures var before, after := paths[p][m], WithDefaults(paths)[p][m];
            && after.isSecured == before.isSecured
            && ResponseAt(after, status) ==
                 if ResponseAt(before, status).Some? || m !in {"get", "put", "post", "delete", "options", "head", "patch", "trace"}
                 then ResponseAt(before, status)
                 else match DefaultFor(m, before.isSecured, status) case Some(name) => Some(GetResponseRef(name)) case None => None
  {
    CompleteAt(m, paths[p][m], status);
    hide CompleteOperation, GetResponseRef;
  }

  lemma CompleteAt(name: string, op: Operation, status: string)
    ensures CompleteOperation(name, op).isSecured == op.isSecured
    ensures ResponseAt(CompleteOperation(name, op), status) ==
              if ResponseAt(op, status).Some? then ResponseAt(op, status)
              else match DefaultFor(name, op.isSecured, status) case Some(d) => Some(GetResponseRef(d)) case None => None
  {
    RefIsNotNull("InternalServerError");
    RefIsNotNull("InvalidData");
    RefIsNotNull("NotAuthorized");
    hide GetResponseRef;
  }

  lemma RefIsNotNull(name: string)
    ensures GetResponseRef(name) != Null
  {
  }

  /** Completing the operations a second time changes nothing. */
  lemma WithDefaultsIsIdempotent(paths: map<string, PathItem>)
    ensures WithDefaults(WithDefaults(paths)) == WithDefaults(paths)
  {
    forall p | p in paths ensures PathWithDefaults(PathWithDefaults(paths[p])) == PathWithDefaults(paths[p]) {
      PathTwice(paths[p]);
    }
    hide PathWithDefaults;
  }

  lemma PathTwice(item: PathItem)
    ensures PathWithDefaults(PathWithDefaults(item)) == PathWithDefaults(item)
  {
    forall m | m in item ensures CompleteOperation(m, CompleteOperation(m, item[m])) == CompleteOperation(m, item[m]) {
      CompleteTwice(m, item[m]);
    }
    hide CompleteOperation;
  }

  /** Nothing is due any more. */
  lemma CompleteTwice(name: string, op: Operation)
    ensures CompleteOperation(name, CompleteOperation(name, op)) == CompleteOperation(name, op)
  {
    CompleteAt(name, op, "401");
    CompleteAt(name, op, "400");
    CompleteAt(name, op, "500");
    var once := CompleteOperation(name, op);
    NothingDue(name, once);
    hide CompleteOperation;
  }

  lemma NothingDue(name: string, op: Operation)
    requires op.isSecured ==> ResponseAt(op, "401").Some?
    requires name != "get" ==> ResponseAt(op, "400").Some?
    requires ResponseAt(op, "500").Some?
    ensures CompleteOperation(name, op) == op
  {
    hide GetResponseRef;
  }

  // ------------------------------------------------------------------ properties of the references

  /** A reference of the form #/components/section/name names an entry that exists (section 4.7.23 of OpenAPI 3.0.3). */
  predicate Resolves(components: Option<Json>, ref: string)
  {
    var segments := Split(ref, '/');
    && |segments| == 4 && segments[0] == "#" && segments[1] == "components"
    && components.Some? && Has(components.value, segments[2]) && Has(components.value.entries[segments[2]], segments[3])
  }

  lemma ReferenceSegments(section: string, name: string)
    requires '/' !in section && '/' !in name
    ensures Split(Join(["#", "components", section, name], '/'), '/') == ["#", "components", section, name]
  {
    var parts := ["#", "components", section, name];
    assert AllFree(parts, '/');
    SplitOfJoin(parts, '/');
  }

  function Rewritten(components: Option<Json>): Option<Json>
  {
    FixedComponents(MergedComponents(components))
  }

  /** The generated document keeps its component sections as dictionaries. */
  predicate SectionsAreObjects(components: Json)
  {
    && components.Object?
    && ("schemas" in components.entries ==> components.entries["schemas"].Object?)
    && ("responses" in components.entries ==> components.entries["responses"].Object?)
  }

  /**
   * Every reference the pass adds, and the reference to the error schema, resolves exactly when the
   * document has components to merge into; without any, all of them dangle.
   */
  lemma AddedReferencesResolveIff(components: Option<Json>, name: string)
    requires components.Some? ==> SectionsAreObjects(components.value)
    requires name in RESPONSES
    ensures Resolves(Rewritten(components), ResponseRef(name)) <==> components.Some?
    ensures Resolves(Rewritten(components), SchemaRef("Error")) <==> components.Some?
  {
    hide Split, Join, ERROR_SCHEMA, CreateErrorResponse, Merge;
    ReferenceSegments("responses", name);
    ReferenceSegments("schemas", "Error");
    if components.Some? {
      MergedSectionHas(components.value, "responses", RESPONSES, name);
      MergedSectionHas(components.value, "schemas", map["Error" := ERROR_SCHEMA], "Error");
      FixKeepsNames(MergedComponents(components), "responses", name);
      FixKeepsNames(MergedComponents(components), "schemas", "Error");
    }
    hide FixedComponents, MergedComponents, RESPONSES;
  }

  /** Where an added response keeps the reference to its schema. */
  function SchemaPath(name: string): seq<string>
  {
    ["responses", name] + SCHEMA_KEYS
  }

  const SCHEMA_KEYS := ["content", "application/json", "schema", "$ref"]

  /**
   * The response an added reference points to refers in turn to the error schema, exactly when the
   * document had no array on the way there.
   */
  lemma AddedResponseRefersToError(components: Json, name: string)
    requires components.Object? && name in RESPONSES
    ensures At(Rewritten(Some(components)).value, SchemaPath(name)) == Some(Text(SchemaRef("Error")))
            <==> !ArrayOn(components, SchemaPath(name))
  {
    SourceRefersToError(name);
    MergeReaches(components, ADDITIONAL_COMPONENTS, SchemaPath(name), SchemaRef("Error"));
    hide ADDITIONAL_COMPONENTS, RESPONSES, SchemaRef;
    FixLeavesResponses(Merge(components, ADDITIONAL_COMPONENTS), SchemaPath(name));
  }

  lemma SourceRefersToError(name: string)
    requires name in RESPONSES
    ensures At(ADDITIONAL_COMPONENTS, SchemaPath(name)) == Some(Text(SchemaRef("Error")))
  {
    ResponseRefersToError("Internal Server Error", 500, Text("Internal Server Error"), None);
    ResponseRefersToError("Unauthorized", 401, Text("Unauthorized"), None);
    ResponseRefersToError("Bad Request", 400, Array([]), Some("Bad Request"));
    hide SchemaRef, ERROR_SCHEMA, CreateErrorResponse, At;
    AtStep(ADDITIONAL_COMPONENTS, "responses", [name] + SCHEMA_KEYS);
    AtStep(Object(RESPONSES), name, SCHEMA_KEYS);
    assert SchemaPath(name) == ["responses"] + ([name] + SCHEMA_KEYS);
  }

  lemma ResponseRefersToError(description: string, statusCode: int, message: Json, error: Option<string>)
    ensures At(CreateErrorResponse(description, statusCode, message, error), SCHEMA_KEYS) == Some(Text(SchemaRef("Error")))
  {
    hide SchemaRef;
    var response := CreateErrorResponse(description, statusCode, message, error);
    var content := response.entries["content"];
    var media := content.entries["application/json"];
    AtStep(response, "content", ["application/json", "schema", "$ref"]);
    AtStep(content, "application/json", ["schema", "$ref"]);
    AtStep(media, "schema", ["$ref"]);
    AtStep(media.entries["schema"], "$ref", []);
    assert SCHEMA_KEYS == ["content"] + ["application/json", "schema", "$ref"];
    assert ["application/json", "schema", "$ref"] == ["application/json"] + ["schema", "$ref"];
    assert ["schema", "$ref"] == ["schema"] + ["$ref"] && ["$ref"] == ["$ref"] + [];
  }

  lemma FixLeavesResponses(components: Json, path: seq<string>)
    requires path != [] && path[0] == "responses"
    ensures At(FixedComponents(Some(components)).value, path) == At(components, path)
  {
    hide FixedSchemas;
  }

  predicate SectionHas(components: Option<Json>, section: string, name: string)
  {
    components.Some? && Has(components.value, section) && Has(components.value.entries[section], name)
  }

  lemma FixKeepsNames(components: Option<Json>, section: string, name: string)
    ensures SectionHas(FixedComponents(components), section, name) <==> SectionHas(components, section, name)
  {
    hide FixedSchema;
  }

  /** A section of the source, merged into a dictionary or into nothing, has all its names. */
  lemma MergedSectionHas(d: Json, section: string, names: map<string, Json>, name: string)
    requires SectionsAreObjects(d) && ADDITIONAL_COMPONENTS.Object?
    requires section in {"schemas", "responses"}
    requires section in ADDITIONAL_COMPONENTS.entries && ADDITIONAL_COMPONENTS.entries[section] == Object(names) && name in names
    ensures SectionHas(Some(Merge(d, ADDITIONAL_COMPONENTS)), section, name)
  {
    hide ADDITIONAL_COMPONENTS;
  }

  // ------------------------------------------------------------------ properties of the schemas

  /** No property of an object schema keeps both `items` and `enum`. */
  lemma NoBrokenEnums(components: Option<Json>, schema: string, property: string)
    ensures var fixed := FixedComponents(components);
            fixed.Some? && Has(fixed.value, "schemas") && Has(fixed.value.entries["schemas"], schema)
            && IsObjectSchema(fixed.value.entries["schemas"].entries[schema]) ==>
              var properties := fixed.value.entries["schemas"].entries[schema].entries["properties"].entries;
              property in properties ==> !(Has(properties[property], "items") && Has(properties[property], "enum"))
  {
  }

  /** What the fix leaves of a property, key by key: everything but an `enum` beside `items`. */
  lemma PropertiesAfterwards(schema: Json, property: string, key: string)
    ensures FixedSchema(schema).Object? == schema.Object?
    ensures schema.Object? && !(Has(schema, "type") && schema.entries["type"] == Text("object")) ==> FixedSchema(schema) == schema
    ensures IsObjectSchema(schema) ==>
              var before, after := schema.entries["properties"].entries, FixedSchema(schema).entries["properties"];
              && FixedSchema(schema).entries.Keys == schema.entries.Keys
              && (forall k :: k in schema.entries && k != "properties" ==> FixedSchema(schema).entries[k] == schema.entries[k])
              && after.Object? && after.entries.Keys == before.Keys
              && (property in before ==>
                    if before[property].Object? && "items" in before[property].entries && "enum" in before[property].entries && key == "enum"
                    then At(after.entries[property], [key]).None?
                    else At(after.entries[property], [key]) == At(before[property], [key]))
              && (property in before && !before[property].Object? ==> after.entries[property] == before[property])
  {
    assert [key][1..] == [];
  }

  /** What the added responses and the added schema say. */
  lemma AddedComponentsSay()
    ensures RESPONSES.Keys == {"InternalServerError", "NotAuthorized", "InvalidData"}
    ensures At(RESPONSES["InternalServerError"], ["description"]) == Some(Text("Internal Server Error"))
    ensures At(RESPONSES["NotAuthorized"], ["description"]) == Some(Text("Unauthorized"))
    ensures At(RESPONSES["InvalidData"], ["description"]) == Some(Text("Bad Request"))
    ensures ExampleOf(RESPONSES["InternalServerError"]) == Some(Object(map["statusCode" := Number(500), "message" := Text("Internal Server Error")]))
    ensures ExampleOf(RESPONSES["NotAuthorized"]) == Some(Object(map["statusCode" := Number(401), "message" := Text("Unauthorized")]))
    ensures ExampleOf(RESPONSES["InvalidData"]) ==
              Some(Object(map["statusCode" := Number(400), "message" := Array([]), "error" := Text("Bad Request")]))
    ensures At(ERROR_SCHEMA, ["type"]) == Some(Text("object"))
    ensures At(ERROR_SCHEMA, ["required"]) == Some(Array([Text("message"), Text("statusCode")]))
    ensures At(ERROR_SCHEMA, ["properties"]) ==
              Some(Object(map["message" := Object(map["type" := Text("string")]), "statusCode" := Object(map["type" := Text("number")])]))
  {
    hide SchemaRef, At;
    ResponseSays("Internal Server Error", 500, Text("Internal Server Error"), None);
    ResponseSays("Unauthorized", 401, Text("Unauthorized"), None);
    ResponseSays("Bad Request", 400, Array([]), Some("Bad Request"));
    hide CreateErrorResponse;
    OneKey(ERROR_SCHEMA, "type");
    OneKey(ERROR_SCHEMA, "required");
    OneKey(ERROR_SCHEMA, "properties");
  }

  function ExampleOf(response: Json): Option<Json>
  {
    At(response, ["content"] + (["application/json"] + ["example"]))
  }

  lemma OneKey(j: Json, key: string)
    requires j.Object? && key in j.entries
    ensures At(j, [key]) == Some(j.entries[key])
  {
    AtStep(j, key, []);
    assert [key] + [] == [key];
  }

  lemma ResponseSays(description: string, statusCode: int, message: Json, error: Option<string>)
    ensures var response := CreateErrorResponse(description, statusCode, message, error);
            && At(response, ["description"]) == Some(Text(description))
            && ExampleOf(response) == Some(Object(
                 if error.Some? then map["statusCode" := Number(statusCode), "message" := message, "error" := Text(error.value)]
                 else map["statusCode" := Number(statusCode), "message" := message]))
  {
    hide SchemaRef, At;
    var response := CreateErrorResponse(description, statusCode, message, error);
    OneKey(response, "description");
    AtStep(response, "content", ["application/json"] + ["example"]);
    AtStep(response.entries["content"], "application/json", ["example"]);
    OneKey(response.entries["content"].entries["application/json"], "example");
  }

  lemma FixedSchemaTwice(schema: Json)
    ensures FixedSchema(FixedSchema(schema)) == FixedSchema(schema)
  {
    if IsObjectSchema(schema) {
      PropertiesTwice(schema.entries["properties"].entries);
      hide FixedProperties;
      var once := FixedSchema(schema).entries;
      assert once["properties" := once["properties"]] == once;
    }
  }

  lemma PropertiesTwice(properties: map<string, Json>)
    ensures FixedProperties(FixedProperties(properties)) == FixedProperties(properties)
  {
  }

  lemma FixedComponentsTwice(components: Option<Json>)
    ensures FixedComponents(FixedComponents(components)) == FixedComponents(components)
  {
    if HasSchemas(components) {
      SchemasTwice(components.value.entries["schemas"].entries);
      hide FixedSchemas;
      var once := FixedComponents(components).value.entries;
      assert once["schemas" := once["schemas"]] == once;
    }
  }

  lemma SchemasTwice(schemas: map<string, Json>)
    ensures FixedSchemas(FixedSchemas(schemas)) == FixedSchemas(schemas)
  {
    forall k | k in schemas ensures FixedSchema(FixedSchema(schemas[k])) == FixedSchema(schemas[k]) { FixedSchemaTwice(schemas[k]); }
    hide FixedSchema;
  }

  // ------------------------------------------------------------------ both passes again

  /** Taking a wrong `enum` off a schema leaves all of the error schema in it. */
  lemma FixedStillAbsorbs(schema: Json)
    requires Absorbs(schema, ERROR_SCHEMA)
    ensures Absorbs(FixedSchema(schema), ERROR_SCHEMA)
  {
    if IsObjectSchema(schema) {
      var wanted := ERROR_SCHEMA.entries["properties"].entries;
      var properties := schema.entries["properties"].entries;
      forall k | k in wanted ensures k in properties && Absorbs(FixedProperty(properties[k]), wanted[k]) {
        assert Absorbs(properties[k], wanted[k]);
        assert wanted[k] == TypeOnly("string") || wanted[k] == TypeOnly("number");
      }
      assert Absorbs(Object(FixedProperties(properties)), ERROR_SCHEMA.entries["properties"]);
    }
  }

  /** After both passes the components absorb the additional ones. */
  lemma RewrittenAbsorbs(components: Json)
    requires SectionsAreObjects(components)
    ensures Absorbs(Rewritten(Some(components)).value, ADDITIONAL_COMPONENTS)
  {
    hide Merge, ERROR_SCHEMA, CreateErrorResponse, FixedSchema;
    var merged := Merge(components, ADDITIONAL_COMPONENTS);
    MergeAbsorbs(components, ADDITIONAL_COMPONENTS);
    MergedSectionHas(components, "schemas", map["Error" := ERROR_SCHEMA], "Error");
    var schemas := merged.entries["schemas"].entries;
    assert Absorbs(merged.entries["schemas"], ADDITIONAL_COMPONENTS.entries["schemas"]);
    FixedStillAbsorbs(schemas["Error"]);
    assert Absorbs(Object(FixedSchemas(schemas)), ADDITIONAL_COMPONENTS.entries["schemas"]);
  }

  /** Main result: running both passes a second time changes neither the operations nor the components. */
  lemma RewriteIsIdempotent(paths: map<string, PathItem>, components: Option<Json>)
    requires components.Some? ==> SectionsAreObjects(components.value)
    ensures WithDefaults(WithDefaults(paths)) == WithDefaults(paths)
    ensures Rewritten(Rewritten(components)) == Rewritten(components)
  {
    WithDefaultsIsIdempotent(paths);
    if components.Some? {
      RewrittenAbsorbs(components.value);
      MergeIsNoOpIff(Rewritten(components).value, ADDITIONAL_COMPONENTS);
      FixedComponentsTwice(MergedComponents(components));
    }
    hide Merge, FixedComponents, ADDITIONAL_COMPONENTS;
  }
}

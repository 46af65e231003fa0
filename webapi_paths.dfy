/**
 * The per-operation request configurations of src/webapi.ts: the target path
 * each operation puts in `queryString` (`entitySet(id)`, `/$ref`,
 * `Microsoft.Dynamics.CRM.` names), the HTTP method, the body and the options
 * passed on, and getFunctionInputs, which writes the parameter list of an OData
 * function call with parameter aliases (section 5.1.1.13 of OData Version 4.0
 * Part 2: URL Conventions).
 */
module WebApiPaths {
  import opened Wrappers
  import opened Text
  import opened Models
  import opened WebApi

  // ---------------------------------------------------------------------------
  // Record addresses

  /** `${entitySet}(${id})` */
  function EntityPath(entitySet: string, id: string): string {
    entitySet + "(" + id + ")"
  }

  /** The record key can be read back from a path when the set has no `(` and the id no `)`. */
  predicate KeyReadable(entitySet: string, id: string) {
    (forall i :: 0 <= i < |entitySet| ==> entitySet[i] != '(') &&
    (forall i :: 0 <= i < |id| ==> id[i] != ')')
  }

  /** Any path that starts with a record address names that record's key first. */
  lemma EntityPathKey(entitySet: string, id: string, rest: string)
    ensures StartsWith(EntityPath(entitySet, id) + rest, EntityPath(entitySet, id))
    ensures KeyReadable(entitySet, id) ==> KeyBetweenParens(EntityPath(entitySet, id) + rest) == id
  {
    StartsWithAppend(EntityPath(entitySet, id), rest);
    if KeyReadable(entitySet, id) {
      KeyBetweenParensOf(entitySet, id, rest);
    }
  }

  /** An optional query string, given its leading `?` when present. */
  function OptionalQuery(queryString: Option<string>): (r: string)
    ensures queryString.None? <==> r == ""
    ensures queryString.Some? ==> HasQueryMark(r) && EndsWith(r, queryString.value)
  {
    if queryString.Some? then WithQueryMark(queryString.value) else ""
  }

  // ---------------------------------------------------------------------------
  // Reads

  /** retrieve: GET `entitySet(id)` followed by the query string, if any, with its `?`. */
  function Retrieve(apiConfig: WebApiConfig, entitySet: string, id: string,
                    queryString: Option<string>, queryOptions: Option<QueryOptions>): (r: RequestConfig)
    ensures r.httpMethod == "GET" && r.contentType == JsonContentType && r.body.None?
    ensures r.apiConfig == apiConfig && r.queryOptions == queryOptions
    ensures queryString.None? ==> r.queryString == EntityPath(entitySet, id)
    ensures queryString.Some? ==>
      r.queryString == EntityPath(entitySet, id) + WithQueryMark(queryString.value)
    ensures KeyReadable(entitySet, id) ==> KeyBetweenParens(r.queryString) == id
  {
    var rest := OptionalQuery(queryString);
    EntityPathKey(entitySet, id, rest);
    assert EntityPath(entitySet, id) + "" == EntityPath(entitySet, id);
    RequestConfig("GET", JsonContentType, EntityPath(entitySet, id) + rest, None, apiConfig, queryOptions)
  }

  /** retrieveMultiple: GET the entity set followed by the query string, if any, with its `?`. */
  function RetrieveMultiple(apiConfig: WebApiConfig, entitySet: string,
                            queryString: Option<string>, queryOptions: Option<QueryOptions>): (r: RequestConfig)
    ensures r.httpMethod == "GET" && r.contentType == JsonContentType && r.body.None?
    ensures r.apiConfig == apiConfig && r.queryOptions == queryOptions
    ensures StartsWith(r.queryString, entitySet)
    ensures queryString.None? <==> r.queryString == entitySet
    ensures queryString.Some? ==> r.queryString == entitySet + WithQueryMark(queryString.value)
    ensures queryString.Some? ==> r.queryString[|entitySet|] == '?'
  {
    var rest := OptionalQuery(queryString);
    StartsWithAppend(entitySet, rest);
    assert entitySet + "" == entitySet;
    assert rest != "" ==> (entitySet + rest)[|entitySet|] == rest[0];
    RequestConfig("GET", JsonContentType, entitySet + rest, None, apiConfig, queryOptions)
  }

  /**
   * retrieveMultipleNextPage: the next-page link replaces the shared
   * configuration's url, and the request path is empty.
   */
  method RetrieveMultipleNextPage(apiConfig: WebApiConfig, url: string, queryOptions: Option<QueryOptions>)
    returns (r: RequestConfig)
    modifies apiConfig
    ensures apiConfig.url == url
    ensures apiConfig.version == old(apiConfig.version) && apiConfig.accessToken == old(apiConfig.accessToken)
    ensures r == RequestConfig("GET", JsonContentType, "", None, apiConfig, queryOptions)
  {
    apiConfig.url := url;
    r := RequestConfig("GET", JsonContentType, "", None, apiConfig, queryOptions);
  }

  // ---------------------------------------------------------------------------
  // Writes

  /** create: POST the serialized entity to the entity set. */
  function Create(apiConfig: WebApiConfig, entitySet: string, entity: Json,
                  queryOptions: Option<QueryOptions>): (r: RequestConfig)
    ensures r.contentType == JsonContentType && r.apiConfig == apiConfig
    ensures r.httpMethod == "POST" && r.queryString == entitySet
    ensures r.body == Some(Serialized(entity)) && r.queryOptions == queryOptions
  {
    RequestConfig("POST", JsonContentType, entitySet, Some(Serialized(entity)), apiConfig, queryOptions)
  }

  /** The options createWithReturnData and updateWithReturnData send: the given ones, or `{}`, with representation set. */
  function WithRepresentation(queryOptions: Option<QueryOptions>): (q: QueryOptions)
    ensures q.representation
    ensures queryOptions.Some? ==> q.(representation := queryOptions.value.representation) == queryOptions.value
    ensures queryOptions.None? ==> q == NoOptions.(representation := true)
  {
    (if queryOptions.Some? then queryOptions.value else NoOptions).(representation := true)
  }

  /** createWithReturnData: POST to the entity set with the select appended, asking for the record back. */
  function CreateWithReturnData(apiConfig: WebApiConfig, entitySet: string, entity: Json, select: string,
                                queryOptions: Option<QueryOptions>): (r: RequestConfig)
    ensures r.contentType == JsonContentType && r.apiConfig == apiConfig
    ensures r.httpMethod == "POST" && r.body == Some(Serialized(entity))
    ensures r.queryString == entitySet + WithQueryMark(select)
    ensures r.queryOptions == Some(WithRepresentation(queryOptions))
    ensures r.queryOptions.Some? && r.queryOptions.value.representation
    ensures EndsWith(PreferHeader(r.queryOptions.value), ReturnRepresentation)
  {
    var q := WithRepresentation(queryOptions);
    PreferRepresentationLast(q);
    RequestConfig("POST", JsonContentType, entitySet + WithQueryMark(select), Some(Serialized(entity)),
      apiConfig, Some(q))
  }

  /** update: PATCH the record with the serialized fields. */
  function Update(apiConfig: WebApiConfig, entitySet: string, id: string, entity: Json,
                  queryOptions: Option<QueryOptions>): (r: RequestConfig)
    ensures r.contentType == JsonContentType && r.apiConfig == apiConfig
    ensures r.httpMethod == "PATCH" && r.body == Some(Serialized(entity)) && r.queryOptions == queryOptions
    ensures r.queryString == EntityPath(entitySet, id)
    ensures KeyReadable(entitySet, id) ==> KeyBetweenParens(r.queryString) == id
  {
    EntityPathKey(entitySet, id, "");
    assert EntityPath(entitySet, id) + "" == EntityPath(entitySet, id);
    RequestConfig("PATCH", JsonContentType, EntityPath(entitySet, id), Some(Serialized(entity)),
      apiConfig, queryOptions)
  }

  /** updateWithReturnData: PATCH the record with the select appended, asking for the record back. */
  function UpdateWithReturnData(apiConfig: WebApiConfig, entitySet: string, id: string, entity: Json,
                                select: string, queryOptions: Option<QueryOptions>): (r: RequestConfig)
    ensures r.contentType == JsonContentType && r.apiConfig == apiConfig
    ensures r.httpMethod == "PATCH" && r.body == Some(Serialized(entity))
    ensures r.queryString == EntityPath(entitySet, id) + WithQueryMark(select)
    ensures KeyReadable(entitySet, id) ==> KeyBetweenParens(r.queryString) == id
    ensures r.queryOptions == Some(WithRepresentation(queryOptions))
    ensures r.queryOptions.Some? && r.queryOptions.value.representation
    ensures EndsWith(PreferHeader(r.queryOptions.value), ReturnRepresentation)
  {
    var q := WithRepresentation(queryOptions);
    PreferRepresentationLast(q);
    EntityPathKey(entitySet, id, WithQueryMark(select));
    RequestConfig("PATCH", JsonContentType, EntityPath(entitySet, id) + WithQueryMark(select),
      Some(Serialized(entity)), apiConfig, Some(q))
  }

  /** updateProperty: PUT `{ value }` to one attribute of the record. */
  function UpdateProperty(apiConfig: WebApiConfig, entitySet: string, id: string, attribute: string, value: Json,
                          queryOptions: Option<QueryOptions>): (r: RequestConfig)
    ensures r.contentType == JsonContentType && r.apiConfig == apiConfig
    ensures r.httpMethod == "PUT" && r.body == Some(PropertyValue(value)) && r.queryOptions == queryOptions
    ensures r.queryString == EntityPath(entitySet, id) + "/" + attribute
    ensures EndsWith(r.queryString, "/" + attribute)
    ensures KeyReadable(entitySet, id) ==> KeyBetweenParens(r.queryString) == id
  {
    EntityPathKey(entitySet, id, "/" + attribute);
    EndsWithAppend(EntityPath(entitySet, id), "/" + attribute);
    ConcatAssociative(EntityPath(entitySet, id), "/", attribute);
    RequestConfig("PUT", JsonContentType, EntityPath(entitySet, id) + "/" + attribute,
      Some(PropertyValue(value)), apiConfig, queryOptions)
  }

  // ---------------------------------------------------------------------------
  // Deletes and references

  /** deleteRecord: DELETE the record, with no body and no options. */
  function DeleteRecord(apiConfig: WebApiConfig, entitySet: string, id: string): (r: RequestConfig)
    ensures r.contentType == JsonContentType && r.apiConfig == apiConfig
    ensures r.httpMethod == "DELETE" && r.body.None? && r.queryOptions.None?
    ensures r.queryString == EntityPath(entitySet, id)
    ensures KeyReadable(entitySet, id) ==> KeyBetweenParens(r.queryString) == id
  {
    EntityPathKey(entitySet, id, "");
    assert EntityPath(entitySet, id) + "" == EntityPath(entitySet, id);
    RequestConfig("DELETE", JsonContentType, EntityPath(entitySet, id), None, apiConfig, None)
  }

  /** deleteProperty: DELETE one attribute of the record. */
  function DeleteProperty(apiConfig: WebApiConfig, entitySet: string, id: string, attribute: string): (r: RequestConfig)
    ensures r.contentType == JsonContentType && r.apiConfig == apiConfig
    ensures r.httpMethod == "DELETE" && r.body.None? && r.queryOptions.None?
    ensures r.queryString == EntityPath(entitySet, id) + "/" + attribute
    ensures EndsWith(r.queryString, "/" + attribute)
    ensures KeyReadable(entitySet, id) ==> KeyBetweenParens(r.queryString) == id
  {
    EntityPathKey(entitySet, id, "/" + attribute);
    EndsWithAppend(EntityPath(entitySet, id), "/" + attribute);
    ConcatAssociative(EntityPath(entitySet, id), "/", attribute);
    RequestConfig("DELETE", JsonContentType, EntityPath(entitySet, id) + "/" + attribute, None, apiConfig, None)
  }

  const RefSegment: string := "/$ref"

  /**
   * associate: POST to `entitySet(id)/relationship/$ref` a reference whose
   * `@odata.id` is the related record's address under the service url.
   */
  function Associate(apiConfig: WebApiConfig, entitySet: string, id: string, relationship: string,
                     relatedEntitySet: string, relatedEntityId: string,
                     queryOptions: Option<QueryOptions>): (r: RequestConfig)
    reads apiConfig
    ensures r.contentType == JsonContentType && r.apiConfig == apiConfig
    ensures r.httpMethod == "POST" && r.queryOptions == queryOptions
    ensures r.queryString == EntityPath(entitySet, id) + "/" + relationship + RefSegment
    ensures EndsWith(r.queryString, RefSegment)
    ensures KeyReadable(entitySet, id) ==> KeyBetweenParens(r.queryString) == id
    ensures r.body == Some(Reference(apiConfig.url + "/" + EntityPath(relatedEntitySet, relatedEntityId)))
  {
    var path := EntityPath(entitySet, id) + "/" + relationship + RefSegment;
    EntityPathKey(entitySet, id, "/" + relationship + RefSegment);
    EndsWithAppend(EntityPath(entitySet, id) + "/" + relationship, RefSegment);
    ConcatAssociative(EntityPath(entitySet, id), "/" + relationship, RefSegment);
    ConcatAssociative(EntityPath(entitySet, id), "/", relationship);
    RequestConfig("POST", JsonContentType, path,
      Some(Reference(apiConfig.url + "/" + EntityPath(relatedEntitySet, relatedEntityId))), apiConfig, queryOptions)
  }

  /** The navigation segment disassociate removes: the property, its `(relatedId)` when given, then `/$ref`. */
  function NavigationReference(property: string, relatedEntityId: Option<string>): (r: string)
    ensures StartsWith(r, property) && EndsWith(r, RefSegment)
    ensures relatedEntityId.None? ==> r == property + RefSegment
    ensures relatedEntityId.Some? ==> r == EntityPath(property, relatedEntityId.value) + RefSegment
  {
    var qs := property + (if relatedEntityId.Some? then "(" + relatedEntityId.value + ")" else "");
    StartsWithAppend(property, (if relatedEntityId.Some? then "(" + relatedEntityId.value + ")" else "") + RefSegment);
    EndsWithAppend(qs, RefSegment);
    qs + RefSegment
  }

  /** disassociate: DELETE `entitySet(id)/` followed by the navigation reference. */
  function Disassociate(apiConfig: WebApiConfig, entitySet: string, id: string, property: string,
                        relatedEntityId: Option<string>): (r: RequestConfig)
    ensures r.contentType == JsonContentType && r.apiConfig == apiConfig
    ensures r.httpMethod == "DELETE" && r.body.None? && r.queryOptions.None?
    ensures r.queryString == EntityPath(entitySet, id) + "/" + NavigationReference(property, relatedEntityId)
    ensures EndsWith(r.queryString, RefSegment)
    ensures KeyReadable(entitySet, id) ==> KeyBetweenParens(r.queryString) == id
  {
    var nav := NavigationReference(property, relatedEntityId);
    var named := property + (if relatedEntityId.Some? then "(" + relatedEntityId.value + ")" else "");
    EntityPathKey(entitySet, id, "/" + nav);
    ConcatAssociative(EntityPath(entitySet, id), "/", nav);
    ConcatAssociative(EntityPath(entitySet, id) + "/", named, RefSegment);
    EndsWithAppend(EntityPath(entitySet, id) + "/" + named, RefSegment);
    RequestConfig("DELETE", JsonContentType, EntityPath(entitySet, id) + "/" + nav, None, apiConfig, None)
  }

  /** The related id segment is there exactly when a related id is given. */
  lemma DisassociateRelatedSegment(property: string, relatedEntityId: Option<string>)
    requires forall i :: 0 <= i < |property| ==> property[i] != '('
    ensures relatedEntityId.None? ==> NavigationReference(property, None) == property + "/$ref"
    ensures relatedEntityId.Some? && (forall i :: 0 <= i < |relatedEntityId.value| ==> relatedEntityId.value[i] != ')')
      ==> KeyBetweenParens(NavigationReference(property, relatedEntityId)) == relatedEntityId.value
  {
    if relatedEntityId.Some? && (forall i :: 0 <= i < |relatedEntityId.value| ==> relatedEntityId.value[i] != ')') {
      KeyBetweenParensOf(property, relatedEntityId.value, RefSegment);
    }
  }

  // ---------------------------------------------------------------------------
  // Actions

  const CrmNamespace: string := "Microsoft.Dynamics.CRM."

  /** The inputs object becomes the JSON body only when given. */
  function ActionBody(inputs: Option<Json>): (r: Option<Payload>)
    ensures r.Some? <==> inputs.Some?
    ensures inputs.Some? ==> r.value == Serialized(inputs.value)
  {
    if inputs.Some? then Some(Serialized(inputs.value)) else None
  }

  /** boundAction: POST to `entitySet(id)/Microsoft.Dynamics.CRM.actionName`. */
  function BoundAction(apiConfig: WebApiConfig, entitySet: string, id: string, actionName: string,
                       inputs: Option<Json>, queryOptions: Option<QueryOptions>): (r: RequestConfig)
    ensures r.contentType == JsonContentType && r.apiConfig == apiConfig
    ensures r.httpMethod == "POST" && r.body == ActionBody(inputs) && r.queryOptions == queryOptions
    ensures r.queryString == EntityPath(entitySet, id) + "/" + CrmNamespace + actionName
    ensures EndsWith(r.queryString, CrmNamespace + actionName)
    ensures KeyReadable(entitySet, id) ==> KeyBetweenParens(r.queryString) == id
  {
    EntityPathKey(entitySet, id, "/" + CrmNamespace + actionName);
    ConcatAssociative(EntityPath(entitySet, id), "/" + CrmNamespace, actionName);
    ConcatAssociative(EntityPath(entitySet, id), "/", CrmNamespace);
    ConcatAssociative(EntityPath(entitySet, id) + "/", CrmNamespace, actionName);
    EndsWithAppend(EntityPath(entitySet, id) + "/", CrmNamespace + actionName);
    RequestConfig("POST", JsonContentType, EntityPath(entitySet, id) + "/" + CrmNamespace + actionName,
      ActionBody(inputs), apiConfig, queryOptions)
  }

  /** unboundAction: POST to the bare action name, with no namespace prefix. */
  function UnboundAction(apiConfig: WebApiConfig, actionName: string, inputs: Option<Json>,
                         queryOptions: Option<QueryOptions>): (r: RequestConfig)
    ensures r.contentType == JsonContentType && r.apiConfig == apiConfig
    ensures r.httpMethod == "POST" && r.body == ActionBody(inputs) && r.queryOptions == queryOptions
    ensures r.queryString == actionName
  {
    RequestConfig("POST", JsonContentType, actionName, ActionBody(inputs), apiConfig, queryOptions)
  }

  // ---------------------------------------------------------------------------
  // getFunctionInputs

  /** What the loop appends for one input, before the comma: `name=@alias` or `name=value`. */
  function ParamText(input: FunctionInput): string {
    input.name + (if input.HasAlias() then "=@" + input.alias.value else "=" + input.value)
  }

  /** `@alias=value`, pushed for an aliased input. */
  function AliasPair(input: FunctionInput): string
    requires input.HasAlias()
  {
    "@" + input.alias.value + "=" + input.value
  }

  /** The text the loop has appended after the inputs so far: each parameter followed by a comma. */
  function Appended(inputs: seq<FunctionInput>): string
    decreases |inputs|
  {
    if |inputs| == 0 then ""
    else Appended(inputs[..|inputs| - 1]) + ParamText(inputs[|inputs| - 1]) + ","
  }

  /** The `aliases` array after the inputs so far. */
  function AliasPairs(inputs: seq<FunctionInput>): seq<string>
    decreases |inputs|
  {
    if |inputs| == 0 then []
    else
      var last := inputs[|inputs| - 1];
      AliasPairs(inputs[..|inputs| - 1]) + (if last.HasAlias() then [AliasPair(last)] else [])
  }

  /** `?` followed by the `&`-joined alias pairs, or nothing when no input is aliased. */
  function AliasQuery(inputs: seq<FunctionInput>): string {
    var pairs := AliasPairs(inputs);
    if |pairs| > 0 then "?" + Join(pairs, "&") else ""
  }

  /** The value getFunctionInputs returns for the text so far and the optional inputs. */
  function FunctionInputs(queryString: string, inputs: Option<seq<FunctionInput>>): string {
    if inputs.None? then queryString + ")"
    else
      var s := queryString + Appended(inputs.value);
      Prefix(s, |s| - 1) + ")" + AliasQuery(inputs.value)
  }

  /** getFunctionInputs: append each parameter and a comma, drop the last character, close, add the aliases. */
  method GetFunctionInputs(queryString: string, inputs: Option<seq<FunctionInput>>) returns (r: string)
    ensures r == FunctionInputs(queryString, inputs)
  {
    if inputs.None? {
      return queryString + ")";
    }
    var ins := inputs.value;
    var qs := queryString;
    var aliases: seq<string> := [];
    var i := 0;
    while i < |ins|
      invariant 0 <= i <= |ins|
      invariant qs == queryString + Appended(ins[..i])
      invariant aliases == AliasPairs(ins[..i])
    {
      var input := ins[i];
      assert ins[..i + 1][..i] == ins[..i];
      AppendStep(qs, input);
      AppendedStep(queryString, ins, i);
      qs := qs + input.name;
      if input.HasAlias() {
        qs := qs + ("=@" + input.alias.value + ",");
        aliases := aliases + ["@" + input.alias.value + "=" + input.value];
      } else {
        qs := qs + ("=" + input.value + ",");
      }
      i := i + 1;
    }
    assert ins[..|ins|] == ins;
    qs := Prefix(qs, |qs| - 1) + ")";
    if |aliases| > 0 {
      qs := qs + "?" + Join(aliases, "&");
    }
    r := qs;
  }

  /** The text after one more input is the text so far, that input's parameter and a comma. */
  lemma AppendedStep(queryString: string, ins: seq<FunctionInput>, i: nat)
    requires i < |ins|
    ensures queryString + Appended(ins[..i + 1]) == queryString + Appended(ins[..i]) + ParamText(ins[i]) + ","
  {
    assert ins[..i + 1][..i] == ins[..i];
    var prev := Appended(ins[..i]);
    assert Appended(ins[..i + 1]) == prev + ParamText(ins[i]) + ",";
    ConcatAssociative(queryString, prev + ParamText(ins[i]), ",");
    ConcatAssociative(queryString, prev, ParamText(ins[i]));
  }

  /** One turn of the loop appends the input's parameter text and a comma. */
  lemma AppendStep(acc: string, input: FunctionInput)
    ensures (acc + input.name) + (if input.HasAlias() then "=@" + input.alias.value + "," else "=" + input.value + ",")
      == acc + ParamText(input) + ","
  {
    var tail := if input.HasAlias() then "=@" + input.alias.value else "=" + input.value;
    ConcatAssociative(acc, input.name, tail + ",");
    ConcatAssociative(input.name, tail, ",");
    ConcatAssociative(acc, input.name + tail, ",");
  }

  /** The parameters in input order, each `name=value` or `name=@alias`. */
  function Params(inputs: seq<FunctionInput>): (r: seq<string>)
    ensures |r| == |inputs|
    ensures forall i :: 0 <= i < |inputs| ==> r[i] == ParamText(inputs[i])
  {
    seq(|inputs|, i requires 0 <= i < |inputs| => ParamText(inputs[i]))
  }

  lemma {:induction false} AppendedIsJoin(inputs: seq<FunctionInput>)
    requires |inputs| > 0
    ensures Appended(inputs) == Join(Params(inputs), ",") + ","
    decreases |inputs|
  {
    var init := inputs[..|inputs| - 1];
    var last := inputs[|inputs| - 1];
    if |init| == 0 {
      assert Params(inputs) == [ParamText(last)];
      JoinSingleton(ParamText(last), ",");
    } else {
      AppendedIsJoin(init);
      assert Params(inputs) == Params(init) + [ParamText(last)];
      JoinSnoc(Params(init), ParamText(last), ",");
    }
  }

  /**
   * For a non-empty list the result is the text so far, the comma-joined
   * parameters, the closing parenthesis and the alias query: the comma after
   * the last parameter is the character that is dropped.
   */
  lemma FunctionInputsNonEmpty(queryString: string, inputs: seq<FunctionInput>)
    requires |inputs| > 0
    ensures FunctionInputs(queryString, Some(inputs)) ==
      queryString + Join(Params(inputs), ",") + ")" + AliasQuery(inputs)
  {
    AppendedIsJoin(inputs);
    var s := queryString + Appended(inputs);
    assert s == (queryString + Join(Params(inputs), ",")) + ",";
    assert Prefix(s, |s| - 1) == queryString + Join(Params(inputs), ",");
  }

  /** For an empty, non-null list the character dropped is the last one of the text so far, normally its `(`. */
  lemma FunctionInputsEmpty(queryString: string)
    ensures FunctionInputs(queryString, Some([])) == Prefix(queryString, |queryString| - 1) + ")"
    ensures FunctionInputs(queryString, None) == queryString + ")"
    ensures EndsWith(queryString, "(") ==>
      FunctionInputs(queryString, Some([])) + "(" == queryString[..|queryString| - 1] + ")("
  {
    assert queryString + "" == queryString;
  }

  /** The indices of the aliased inputs. */
  function AliasedIndices(inputs: seq<FunctionInput>): set<nat> {
    set i: nat | i < |inputs| && inputs[i].HasAlias()
  }

  /** One alias pair per aliased input. */
  lemma {:induction false} AliasPairsCount(inputs: seq<FunctionInput>)
    ensures |AliasPairs(inputs)| == |AliasedIndices(inputs)|
    decreases |inputs|
  {
    if |inputs| > 0 {
      var n := |inputs| - 1;
      var init := inputs[..n];
      var last := inputs[n];
      AliasPairsCount(init);
      var before := AliasedIndices(init);
      var added: set<nat> := if last.HasAlias() then {n} else {};
      forall k: nat
        ensures k in AliasedIndices(inputs) <==> k in before + added
      {
        if k < n {
          assert init[k] == inputs[k];
        }
      }
      assert AliasedIndices(inputs) == before + added;
      assert n !in before;
      assert |before + added| == |before| + |added|;
    }
  }

  /** Every aliased input contributes its pair, and every pair comes from an aliased input. */
  lemma {:induction false} AliasPairsComplete(inputs: seq<FunctionInput>)
    ensures forall i :: 0 <= i < |inputs| && inputs[i].HasAlias() ==> AliasPair(inputs[i]) in AliasPairs(inputs)
    ensures forall p :: p in AliasPairs(inputs) ==>
      exists i :: 0 <= i < |inputs| && inputs[i].HasAlias() && p == AliasPair(inputs[i])
    decreases |inputs|
  {
    if |inputs| > 0 {
      var n := |inputs| - 1;
      var init := inputs[..n];
      AliasPairsComplete(init);
      assert forall i :: 0 <= i < n ==> init[i] == inputs[i];
    }
  }

  /** The alias query is there exactly when some input has a truthy alias. */
  lemma AliasQueryPresent(inputs: seq<FunctionInput>)
    ensures AliasQuery(inputs) != "" <==> exists i :: 0 <= i < |inputs| && inputs[i].HasAlias()
    ensures AliasQuery(inputs) != "" ==> HasQueryMark(AliasQuery(inputs))
  {
    AliasPairsComplete(inputs);
    var pairs := AliasPairs(inputs);
    if |pairs| > 0 {
      assert pairs[0] in pairs;
    }
    if exists i :: 0 <= i < |inputs| && inputs[i].HasAlias() {
      var i :| 0 <= i < |inputs| && inputs[i].HasAlias();
      assert AliasPair(inputs[i]) in AliasPairs(inputs);
    }
  }

  /** One aliased input, in the notation of the URL conventions. */
  lemma AliasedInputExample(one: seq<FunctionInput>)
    requires one == [FunctionInput("Target", "X", Some("tid"))]
    ensures FunctionInputs("f(", Some(one)) == "f(Target=@tid)?@tid=X"
  {
    FunctionInputsNonEmpty("f(", one);
    AliasedInputParams(one);
    AliasedInputPairs(one);
    assert "f(" + "Target=@tid" + ")" + "?@tid=X" == "f(Target=@tid)?@tid=X";
  }

  lemma AliasedInputParams(one: seq<FunctionInput>)
    requires one == [FunctionInput("Target", "X", Some("tid"))]
    ensures Join(Params(one), ",") == "Target=@tid"
  {
    assert ParamText(one[0]) == "Target=@tid";
    assert Params(one) == ["Target=@tid"];
    JoinSingleton("Target=@tid", ",");
  }

  lemma AliasedInputPairs(one: seq<FunctionInput>)
    requires one == [FunctionInput("Target", "X", Some("tid"))]
    ensures AliasQuery(one) == "?@tid=X"
  {
    assert one[..0] == [];
    assert AliasPair(one[0]) == "@tid=X";
    assert AliasPairs(one) == ["@tid=X"];
    JoinSingleton("@tid=X", "&");
  }

  /** One plain input: no alias query. */
  lemma PlainInputExample(plain: seq<FunctionInput>)
    requires plain == [FunctionInput("Count", "5", None)]
    ensures FunctionInputs("f(", Some(plain)) == "f(Count=5)"
  {
    FunctionInputsNonEmpty("f(", plain);
    assert ParamText(plain[0]) == "Count=5";
    assert Params(plain) == ["Count=5"];
    JoinSingleton("Count=5", ",");
    assert plain[..0] == [];
    assert AliasPairs(plain) == [];
    assert AliasQuery(plain) == "";
    assert "f(" + "Count=5" + ")" + "" == "f(Count=5)";
  }

  /** Two aliased inputs: the pairs are joined with `&`. */
  lemma TwoAliasesExample(two: seq<FunctionInput>)
    requires two == [FunctionInput("A", "1", Some("a")), FunctionInput("B", "2", Some("b"))]
    ensures FunctionInputs("f(", Some(two)) == "f(A=@a,B=@b)?@a=1&@b=2"
  {
    FunctionInputsNonEmpty("f(", two);
    TwoAliasParams(two);
    TwoAliasPairs(two);
    assert "f(" + "A=@a,B=@b" + ")" + "?@a=1&@b=2" == "f(A=@a,B=@b)?@a=1&@b=2";
  }

  lemma TwoAliasParams(two: seq<FunctionInput>)
    requires two == [FunctionInput("A", "1", Some("a")), FunctionInput("B", "2", Some("b"))]
    ensures Join(Params(two), ",") == "A=@a,B=@b"
  {
    assert ParamText(two[0]) == "A=@a" && ParamText(two[1]) == "B=@b";
    assert Params(two) == ["A=@a", "B=@b"];
    JoinPair("A=@a", "B=@b", ",");
  }

  lemma TwoAliasPairs(two: seq<FunctionInput>)
    requires two == [FunctionInput("A", "1", Some("a")), FunctionInput("B", "2", Some("b"))]
    ensures AliasPairs(two) == ["@a=1", "@b=2"]
    ensures AliasQuery(two) == "?@a=1&@b=2"
  {
    AliasPairsOfTwo(two);
    assert AliasPair(two[0]) == "@a=1" && AliasPair(two[1]) == "@b=2";
    JoinPair("@a=1", "@b=2", "&");
  }

  /** Two aliased inputs give their two pairs, in order. */
  lemma AliasPairsOfTwo(two: seq<FunctionInput>)
    requires |two| == 2 && two[0].HasAlias() && two[1].HasAlias()
    ensures AliasPairs(two) == [AliasPair(two[0]), AliasPair(two[1])]
  {
    var first := two[..1];
    assert first[..0] == [];
    assert first[0] == two[0];
    assert AliasPairs(first) == [AliasPair(two[0])];
  }

  /** boundFunction: GET `entitySet(id)/Microsoft.Dynamics.CRM.functionName(` completed by getFunctionInputs. */
  method BoundFunction(apiConfig: WebApiConfig, entitySet: string, id: string, functionName: string,
                       inputs: Option<seq<FunctionInput>>, queryOptions: Option<QueryOptions>) returns (r: RequestConfig)
    ensures r.contentType == JsonContentType
    ensures r.httpMethod == "GET" && r.body.None? && r.queryOptions == queryOptions && r.apiConfig == apiConfig
    ensures r.queryString == FunctionInputs(EntityPath(entitySet, id) + ("/" + CrmNamespace + functionName + "("), inputs)
    ensures KeyReadable(entitySet, id) ==> KeyBetweenParens(r.queryString) == id
  {
    var path := EntityPath(entitySet, id);
    var tail := "/" + CrmNamespace + functionName + "(";
    var queryString := GetFunctionInputs(path + tail, inputs);
    FunctionCallKeepsPath(path, tail, inputs);
    var rest := queryString[|path|..];
    assert queryString == queryString[..|path|] + rest;
    EntityPathKey(entitySet, id, rest);
    r := RequestConfig("GET", JsonContentType, queryString, None, apiConfig, queryOptions);
  }

  /** unboundFunction: GET `functionName(` completed by getFunctionInputs. */
  method UnboundFunction(apiConfig: WebApiConfig, functionName: string, inputs: Option<seq<FunctionInput>>,
                         queryOptions: Option<QueryOptions>) returns (r: RequestConfig)
    ensures r.contentType == JsonContentType
    ensures r.httpMethod == "GET" && r.body.None? && r.queryOptions == queryOptions && r.apiConfig == apiConfig
    ensures r.queryString == FunctionInputs(functionName + "(", inputs)
    ensures StartsWith(r.queryString, functionName)
  {
    var queryString := GetFunctionInputs(functionName + "(", inputs);
    FunctionCallKeepsPath(functionName, "(", inputs);
    r := RequestConfig("GET", JsonContentType, queryString, None, apiConfig, queryOptions);
  }

  /** Completing `path + tail` where the tail is non-empty keeps `path` as a prefix, since at most the tail's last character is dropped. */
  lemma FunctionCallKeepsPath(path: string, tail: string, inputs: Option<seq<FunctionInput>>)
    requires |tail| > 0
    ensures StartsWith(FunctionInputs(path + tail, inputs), path)
  {
    var qs := path + tail;
    if inputs.None? {
      StartsWithAppend(path, tail + ")");
      assert qs + ")" == path + (tail + ")");
    } else {
      var s := qs + Appended(inputs.value);
      var p := Prefix(s, |s| - 1);
      assert p[..|path|] == path;
      var out := p + ")" + AliasQuery(inputs.value);
      assert out[..|path|] == path;
    }
  }
}

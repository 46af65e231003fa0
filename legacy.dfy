/**
 * The older single-file build dist/xrm-webapi.js. A `WebApi` object carries the
 * service version, an optional access token and an optional organisation url;
 * every request target is that url, `/api/data/v<version>/` and a relative
 * path. Its Guid is the same code as that of src/models.ts (module Models).
 * It differs from src/webapi.ts in three places that are modelled here: the
 * aliases of a function call are concatenated with no separator, the Prefer
 * value has no `return=representation` branch, and the batch body has
 * six-line reads and a literal POST in every change set entry.
 */
module Legacy {
  import opened Wrappers
  import opened Text
  import opened Models
  import opened Api = WebApi
  import Paths = WebApiPaths
  import Batch = WebApiBatch
  import LegacyBatch

  /** Why `create` gets no record id back. */
  datatype CreateFailure =
    | NoEntityIdHeader          // the reply has no OData-EntityId header: `uri.indexOf` throws
    | NotAGuid(message: string) // the text between the parentheses is not a GUID

  /** What `batchOperation` opens and sends. */
  datatype BatchRequest = BatchRequest(
    httpMethod: string,
    url: string,
    contentType: string,
    callerId: Option<string>,
    body: string)

  /** The versioned service root: the organisation url, or else the one the hosting page reports. */
  function ServiceRootOf(url: Option<string>, version: string, contextUrl: string): string {
    (if url.Some? then url.value else contextUrl) + "/api/data/v" + version + "/"
  }

  class WebApi {
    var version: string
    var accessToken: Option<string>
    var url: Option<string>

    constructor (version: string, accessToken: Option<string>, url: Option<string>)
      ensures this.version == version && this.accessToken == accessToken && this.url == url
    {
      this.version := version;
      this.accessToken := accessToken;
      this.url := url;
    }

    function ServiceRoot(contextUrl: string): string
      reads this
    {
      ServiceRootOf(url, version, contextUrl)
    }

    /**
     * getClientUrl: the service root followed by the query string, which
     * defaults to the empty string. `contextUrl` stands for the client url of
     * the hosting page, the only source of the root when there is no url.
     */
    function GetClientUrl(queryString: Option<string>, contextUrl: string): (r: string)
      reads this
      ensures StartsWith(r, ServiceRoot(contextUrl))
      ensures queryString.None? ==> r == ServiceRoot(contextUrl)
      ensures queryString.Some? ==> r[|ServiceRoot(contextUrl)|..] == queryString.value
      ensures url.Some? ==> StartsWith(r, url.value + "/api/data/v" + version + "/")
    {
      var root := ServiceRoot(contextUrl);
      assert root + "" == root;
      root + (if queryString.Some? then queryString.value else "")
    }

    /**
     * getPreferHeader: the page size when truthy, then exactly one annotation
     * directive; `representation` is never looked at.
     */
    method GetPreferHeader(q: QueryOptions) returns (header: string)
      ensures header == PreferHeader(q.(representation := false))
    {
      var prefer: seq<string> := [];
      if MaxPageSizeGiven(q) {
        prefer := prefer + [MaxPageSizePrefix + IntToString(q.maxPageSize.value)];
      }
      if q.includeFormattedValues && q.includeLookupLogicalNames && q.includeAssociatedNavigationProperties {
        prefer := prefer + [AllAnnotations];
      } else {
        var preferExtra := Join(RemoveEmpty([
          if q.includeFormattedValues then FormattedValueAnnotation else "",
          if q.includeLookupLogicalNames then LookupLogicalNameAnnotation else "",
          if q.includeAssociatedNavigationProperties then AssociatedNavigationPropertyAnnotation else ""]), ",");
        prefer := prefer + [IncludeAnnotationsPrefix + Quoted(preferExtra)];
      }
      header := Join(prefer, ",");
    }

    /** getFunctionInputs: as in src/webapi.ts, but the alias pairs are appended to `?` one after another. */
    method GetFunctionInputs(queryString: string, inputs: Option<seq<FunctionInput>>) returns (r: string)
      ensures r == FunctionInputs(queryString, inputs)
    {
      if inputs.None? {
        return queryString + ")";
      }
      var ins := inputs.value;
      var qs := queryString;
      var aliases := "?";
      var i := 0;
      while i < |ins|
        invariant 0 <= i <= |ins|
        invariant qs == queryString + Paths.Appended(ins[..i])
        invariant aliases == AliasText(ins[..i])
      {
        var input := ins[i];
        assert ins[..i + 1][..i] == ins[..i];
        Paths.AppendStep(qs, input);
        Paths.AppendedStep(queryString, ins, i);
        AliasTextAt(ins, i);
        qs := qs + input.name;
        if input.HasAlias() {
          qs := qs + ("=@" + input.alias.value + ",");
          aliases := aliases + ("@" + input.alias.value + "=" + input.value);
        } else {
          qs := qs + ("=" + input.value + ",");
        }
        i := i + 1;
      }
      assert ins[..|ins|] == ins;
      assert qs == queryString + Paths.Appended(ins) && aliases == AliasText(ins);
      qs := Prefix(qs, |qs| - 1) + ")";
      if aliases != "?" {
        qs := qs + aliases;
      }
      r := qs;
    }

    /** batchOperation: push the lines in two loops, join them with CRLF and POST them to `$batch`. */
    method BatchOperation(batchId: string, changeSetId: string, changeSets: seq<ChangeSet>, batchGets: seq<string>,
                          impersonateUser: Option<Guid>, contextUrl: string) returns (r: BatchRequest)
      ensures r.httpMethod == "POST"
      ensures r.url == GetClientUrl(Some("$batch"), contextUrl)
      ensures r.contentType == Batch.BatchContentType(batchId)
      ensures r.callerId.Some? <==> impersonateUser.Some?
      ensures r.callerId.Some? ==> r.callerId.value == impersonateUser.value.value
      ensures r.body == Join(LegacyBatch.BatchLines(ServiceRoot(contextUrl), batchId, changeSetId, changeSets, batchGets),
        CrLf)
    {
      var body := PushChangeSet(batchId, changeSetId, changeSets, contextUrl);
      body := PushReads(body, batchId, batchGets, contextUrl);
      body := body + [Batch.BatchBoundary(batchId) + "--"];

      var callerId := if impersonateUser.Some? then Some(impersonateUser.value.value) else None;
      r := BatchRequest("POST", GetClientUrl(Some("$batch"), contextUrl), Batch.BatchContentType(batchId),
        callerId, Join(body, CrLf));
    }

    /** The first half of batchOperation: the change set, framed, with one POST entry per change set. */
    method PushChangeSet(batchId: string, changeSetId: string, changeSets: seq<ChangeSet>, contextUrl: string)
      returns (body: seq<string>)
      ensures body == LegacyBatch.ChangeSetPart(ServiceRoot(contextUrl), batchId, changeSetId, changeSets)
    {
      var root := ServiceRoot(contextUrl);
      body := [];

      if |changeSets| > 0 {
        body := body + [Batch.BatchBoundary(batchId)];
        body := body + [Batch.ChangeSetContentType(changeSetId)];
        body := body + [""];
      }

      var i := 0;
      while i < |changeSets|
        invariant 0 <= i <= |changeSets|
        invariant body == (if |changeSets| > 0 then Batch.ChangeSetOpening(batchId, changeSetId) else [])
          + LegacyBatch.Entries(root, changeSetId, changeSets[..i])
      {
        assert changeSets[..i + 1][..i] == changeSets[..i];
        body := body + [
          Batch.ChangeSetBoundary(changeSetId),
          Batch.HttpPartType,
          Batch.BinaryEncoding,
          Batch.ContentId(i),
          "",
          "POST " + GetClientUrl(Some(changeSets[i].queryString), contextUrl) + " HTTP/1.1",
          Batch.EntryType,
          "",
          changeSets[i].entity];
        i := i + 1;
      }
      assert changeSets[..|changeSets|] == changeSets;

      if |changeSets| > 0 {
        body := body + [Batch.ChangeSetBoundary(changeSetId) + "--"];
        body := body + [""];
      }
    }

    /** The second half of batchOperation: one six-line GET part per read, then one blank line if there was any. */
    method PushReads(body0: seq<string>, batchId: string, batchGets: seq<string>, contextUrl: string)
      returns (body: seq<string>)
      ensures body == body0 + LegacyBatch.GetPart(ServiceRoot(contextUrl), batchId, batchGets)
    {
      var root := ServiceRoot(contextUrl);
      body := body0;
      var j := 0;
      while j < |batchGets|
        invariant 0 <= j <= |batchGets|
        invariant body == body0 + LegacyBatch.Gets(root, batchId, batchGets[..j])
      {
        assert batchGets[..j + 1][..j] == batchGets[..j];
        var get := batchGets[j];
        body := body + [
          Batch.BatchBoundary(batchId),
          Batch.HttpPartType,
          Batch.BinaryEncoding,
          "",
          "GET " + GetClientUrl(Some(get), contextUrl) + " HTTP/1.1",
          Batch.AcceptJson];
        j := j + 1;
      }
      assert batchGets[..|batchGets|] == batchGets;

      ghost var readLines := LegacyBatch.Gets(root, batchId, batchGets);
      if |batchGets| > 0 {
        body := body + [""];
        assert body == body0 + (readLines + [""]);
      }
    }
  }

  /**
   * The legacy Prefer value leads with the page size exactly when one is
   * given, always ends with the annotation directive, and never asks for
   * the representation, whatever the options say.
   */
  lemma LegacyPreferOrder(q: QueryOptions)
    ensures StartsWith(PreferHeader(q.(representation := false)), MaxPageSizePrefix) <==> MaxPageSizeGiven(q)
    ensures EndsWith(PreferHeader(q.(representation := false)), AnnotationsDirective(q))
    ensures !EndsWith(PreferHeader(q.(representation := false)), ReturnRepresentation)
  {
    var q' := q.(representation := false);
    PreferMaxPageSizeFirst(q');
    PreferAnnotations(q');
    PreferRepresentationLast(q');
  }

  /** Without an explicit url the root comes from the page; with one the page is never consulted. */
  lemma ClientUrlIgnoresContext(api: WebApi, queryString: Option<string>, a: string, b: string)
    requires api.url.Some?
    ensures api.GetClientUrl(queryString, a) == api.GetClientUrl(queryString, b)
    ensures api.GetClientUrl(Some(""), a) == api.GetClientUrl(None, a)
  {
  }

  // ---------------------------------------------------------------------------
  // Paths

  /** retrieve: `entitySet(id)`, then the query string with a leading `?` when it is given. */
  function RetrievePath(entitySet: string, id: Guid, queryString: Option<string>): (r: string)
    ensures StartsWith(r, Paths.EntityPath(entitySet, id.value))
    ensures queryString.None? <==> r == Paths.EntityPath(entitySet, id.value)
    ensures queryString.Some? ==> EndsWith(r, queryString.value) && r[|Paths.EntityPath(entitySet, id.value)|] == '?'
    ensures Paths.KeyReadable(entitySet, id.value) ==> KeyBetweenParens(r) == id.value
  {
    var rest := Paths.OptionalQuery(queryString);
    Paths.EntityPathKey(entitySet, id.value, rest);
    EndsWithExtend(Paths.EntityPath(entitySet, id.value), rest, if queryString.Some? then queryString.value else "");
    Paths.EntityPath(entitySet, id.value) + rest
  }

  /** The legacy retrieve addresses the same resource as retrieve of src/webapi.ts given `id.value`. */
  lemma RetrieveAgrees(apiConfig: WebApiConfig, entitySet: string, id: Guid, queryString: Option<string>,
                       queryOptions: Option<QueryOptions>)
    ensures RetrievePath(entitySet, id, queryString) ==
      Paths.Retrieve(apiConfig, entitySet, id.value, queryString, queryOptions).queryString
  {
    if queryString.None? {
      assert Paths.EntityPath(entitySet, id.value) + "" == Paths.EntityPath(entitySet, id.value);
    }
  }

  /** deleteProperty: `entitySet(id)/attribute`, and `/$ref` after it exactly for a navigation property. */
  function DeletePropertyPath(entitySet: string, id: Guid, attribute: string, isNavigationProperty: bool): (r: string)
    ensures StartsWith(r, Paths.EntityPath(entitySet, id.value) + "/" + attribute)
    ensures isNavigationProperty <==> |r| > |Paths.EntityPath(entitySet, id.value) + "/" + attribute|
    ensures isNavigationProperty ==> EndsWith(r, Paths.RefSegment)
    ensures Paths.KeyReadable(entitySet, id.value) ==> KeyBetweenParens(r) == id.value
  {
    var queryString := "/" + attribute + (if isNavigationProperty then Paths.RefSegment else "");
    ConcatAssociative(Paths.EntityPath(entitySet, id.value), "/" + attribute,
      if isNavigationProperty then Paths.RefSegment else "");
    ConcatAssociative(Paths.EntityPath(entitySet, id.value), "/", attribute);
    Paths.EntityPathKey(entitySet, id.value, queryString);
    EndsWithAppend(Paths.EntityPath(entitySet, id.value) + "/" + attribute, Paths.RefSegment);
    Paths.EntityPath(entitySet, id.value) + queryString
  }

  /**
   * A plain property is deleted as src/webapi.ts deletes it; a navigation
   * property is deleted as src/webapi.ts disassociates a single-valued one.
   */
  lemma DeletePropertyAgrees(apiConfig: WebApiConfig, entitySet: string, id: Guid, attribute: string)
    ensures DeletePropertyPath(entitySet, id, attribute, false) ==
      Paths.DeleteProperty(apiConfig, entitySet, id.value, attribute).queryString
    ensures DeletePropertyPath(entitySet, id, attribute, true) ==
      Paths.Disassociate(apiConfig, entitySet, id.value, attribute, None).queryString
  {
    var base := Paths.EntityPath(entitySet, id.value);
    ConcatAssociative(base, "/" + attribute, "");
    ConcatAssociative(base, "/", attribute);
    assert base + "/" + attribute + "" == base + "/" + attribute;
    ConcatAssociative(base, "/" + attribute, Paths.RefSegment);
    ConcatAssociative(base + "/", attribute, Paths.RefSegment);
  }

  /** The Guid's text, when there is one. */
  function IdText(id: Option<Guid>): (r: Option<string>)
    ensures r.Some? <==> id.Some?
    ensures r.Some? ==> r.value == id.value.value
  {
    if id.Some? then Some(id.value.value) else None
  }

  /** disassociate: `entitySet(id)/relationship`, `(relatedId)` when given, then `/$ref`. */
  function DisassociatePath(entitySet: string, id: Guid, relationship: string, relatedEntityId: Option<Guid>)
    : (r: string)
    ensures StartsWith(r, Paths.EntityPath(entitySet, id.value) + "/" + relationship)
    ensures EndsWith(r, Paths.RefSegment)
    ensures Paths.KeyReadable(entitySet, id.value) ==> KeyBetweenParens(r) == id.value
  {
    var queryString :=
      if relatedEntityId.Some? then relationship + "(" + relatedEntityId.value.value + ")" + Paths.RefSegment
      else relationship + Paths.RefSegment;
    assert queryString == Paths.NavigationReference(relationship, IdText(relatedEntityId));
    var base := Paths.EntityPath(entitySet, id.value);
    ConcatAssociative(base, "/", queryString);
    ConcatAssociative(base + "/", relationship, queryString[|relationship|..]);
    assert queryString == relationship + queryString[|relationship|..];
    Paths.EntityPathKey(entitySet, id.value, "/" + queryString);
    EndsWithAppend(queryString[..|queryString| - |Paths.RefSegment|], Paths.RefSegment);
    assert queryString == queryString[..|queryString| - |Paths.RefSegment|] + Paths.RefSegment;
    EndsWithExtend(base + "/", queryString, Paths.RefSegment);
    base + "/" + queryString
  }

  /** The legacy disassociate addresses the same reference as disassociate of src/webapi.ts. */
  lemma DisassociateAgrees(apiConfig: WebApiConfig, entitySet: string, id: Guid, relationship: string,
                           relatedEntityId: Option<Guid>)
    ensures DisassociatePath(entitySet, id, relationship, relatedEntityId) ==
      Paths.Disassociate(apiConfig, entitySet, id.value, relationship, IdText(relatedEntityId)).queryString
  {
  }

  // ---------------------------------------------------------------------------
  // The record id of `create`

  /**
   * create: the text between the first `(` of the OData-EntityId header and
   * the next `)`, made a Guid.
   */
  function CreatedId(uri: Option<string>): (r: Result<Guid, CreateFailure>)
    ensures uri.None? ==> r == Err(NoEntityIdHeader)
    ensures uri.Some? ==> (r.Ok? <==> NewGuid(KeyBetweenParens(uri.value)).Ok?)
    ensures r.Ok? ==> IsCanonicalGuid(r.value.value)
    ensures uri.Some? && r.Ok? ==> Lower(r.value.value) == Lower(RemoveBraces(KeyBetweenParens(uri.value)))
    ensures r.Err? && uri.Some? ==> r.error == NotAGuid(NewGuid(KeyBetweenParens(uri.value)).error)
  {
    if uri.None? then Err(NoEntityIdHeader)
    else
      match NewGuid(KeyBetweenParens(uri.value))
      case Ok(g) => Ok(g)
      case Err(e) => Err(NotAGuid(e))
  }

  /**
   * The entity id the service reports for a record is the record's Guid: an
   * OData-EntityId of the form `<root><entitySet>(<guid>)` gives it back.
   */
  lemma CreatedIdRoundTrip(root: string, entitySet: string, id: Guid)
    requires forall i :: 0 <= i < |root + entitySet| ==> (root + entitySet)[i] != '('
    requires NewGuid(id.value) == Ok(id)
    ensures CreatedId(Some(root + Paths.EntityPath(entitySet, id.value))) == Ok(id)
  {
    var uri := root + Paths.EntityPath(entitySet, id.value);
    assert uri == (root + entitySet) + "(" + id.value + ")" + "";
    GuidShapeHasNoParens(id.value);
    KeyBetweenParensOf(root + entitySet, id.value, "");
  }

  /**
   * Any GUID text written between the first `(` and the next `)` of the
   * header, in either case, is the id `create` returns, ignoring case.
   */
  lemma CreatedIdOfKey(a: string, b: string, c: string)
    requires forall i :: 0 <= i < |a| ==> a[i] != '('
    requires IsGuidShape(b)
    ensures CreatedId(Some(a + "(" + b + ")" + c)).Ok?
    ensures Lower(CreatedId(Some(a + "(" + b + ")" + c)).value.value) == Lower(b)
  {
    forall i | 0 <= i < |b|
      ensures b[i] != ')'
    {
      assert IsDashPosition(i) ==> b[i] == '-';
      assert !IsDashPosition(i) ==> IsHexDigit(b[i]);
    }
    KeyBetweenParensOf(a, b, c);
    GuidShapeHasNoBraces(b);
    RemoveBracesNoBraces(b);
  }

  /** A GUID text holds hex digits and dashes only, never a `)`. */
  lemma GuidShapeHasNoParens(s: string)
    requires NewGuid(s).Ok? && NewGuid(s).value.value == s
    ensures forall i :: 0 <= i < |s| ==> s[i] != ')'
  {
    var g := NewGuid(s).value.value;
    assert IsCanonicalGuid(g);
    forall i | 0 <= i < |s|
      ensures s[i] != ')'
    {
      assert g[i] == s[i];
    }
  }

  /** A header with neither parenthesis throws: the extracted text is empty. */
  lemma MalformedEntityIdRejected(uri: string)
    requires forall i :: 0 <= i < |uri| ==> uri[i] != '(' && uri[i] != ')'
    ensures KeyBetweenParens(uri) == ""
    ensures CreatedId(Some(uri)).Err?
  {
    assert IndexOf(uri, '(', 0) == -1;
    assert IndexOf(uri, ')', 0) == -1;
    assert !IsGuidShape(RemoveBraces(""));
  }

  // ---------------------------------------------------------------------------
  // getFunctionInputs

  /** The `aliases` string after the inputs so far: `?` and the `@alias=value` pairs, nothing between them. */
  function AliasText(inputs: seq<FunctionInput>): string {
    "?" + Concat(Paths.AliasPairs(inputs))
  }

  /** The value the legacy getFunctionInputs returns. */
  function FunctionInputs(queryString: string, inputs: Option<seq<FunctionInput>>): string {
    if inputs.None? then queryString + ")"
    else
      var s := queryString + Paths.Appended(inputs.value);
      var aliases := AliasText(inputs.value);
      Prefix(s, |s| - 1) + ")" + (if aliases != "?" then aliases else "")
  }

  /** Input `i` appends its pair to the aliases string when it is aliased, and nothing otherwise. */
  lemma AliasTextAt(inputs: seq<FunctionInput>, i: nat)
    requires i < |inputs|
    ensures inputs[i].HasAlias() ==>
      AliasText(inputs[..i + 1]) == AliasText(inputs[..i]) + ("@" + inputs[i].alias.value + "=" + inputs[i].value)
    ensures !inputs[i].HasAlias() ==> AliasText(inputs[..i + 1]) == AliasText(inputs[..i])
  {
    var init := inputs[..i];
    assert inputs[..i + 1][..i] == init;
    if inputs[i].HasAlias() {
      var pair := Paths.AliasPair(inputs[i]);
      assert Paths.AliasPairs(inputs[..i + 1]) == Paths.AliasPairs(init) + [pair];
      ConcatSnoc(Paths.AliasPairs(init), pair);
      ConcatAssociative("?", Concat(Paths.AliasPairs(init)), pair);
    } else {
      assert Paths.AliasPairs(inputs[..i + 1]) == Paths.AliasPairs(init);
    }
  }

  /** The alias suffix is there exactly when some input has a truthy alias. */
  lemma AliasSuffixPresent(inputs: seq<FunctionInput>)
    ensures AliasText(inputs) != "?" <==> exists i :: 0 <= i < |inputs| && inputs[i].HasAlias()
  {
    var pairs := Paths.AliasPairs(inputs);
    Paths.AliasQueryPresent(inputs);
    Paths.AliasPairsComplete(inputs);
    if |pairs| > 0 {
      assert pairs[0] in pairs;
      var i :| 0 <= i < |inputs| && inputs[i].HasAlias() && pairs[0] == Paths.AliasPair(inputs[i]);
      assert Concat(pairs) == pairs[0] + Concat(pairs[1..]);
      assert |AliasText(inputs)| > 1;
    } else {
      assert AliasText(inputs) == "?" + "";
    }
  }

  /** With at most one aliased input the legacy and the current getFunctionInputs agree. */
  lemma AgreesWithOneAlias(queryString: string, inputs: Option<seq<FunctionInput>>)
    requires inputs.Some? ==> |Paths.AliasPairs(inputs.value)| <= 1
    ensures FunctionInputs(queryString, inputs) == Paths.FunctionInputs(queryString, inputs)
  {
    if inputs.Some? {
      var pairs := Paths.AliasPairs(inputs.value);
      if |pairs| == 0 {
        assert AliasText(inputs.value) == "?" + "";
      } else {
        assert pairs == [pairs[0]];
        JoinSingleton(pairs[0], "&");
        AliasSuffixPresent(inputs.value);
        Paths.AliasQueryPresent(inputs.value);
        assert AliasText(inputs.value) == "?" + pairs[0];
        assert |AliasText(inputs.value)| > 1;
      }
    }
  }

  /** Two aliased inputs run together: `?@a=1@b=2`, where src/webapi.ts writes `?@a=1&@b=2`. */
  lemma TwoAliasesRunTogether(two: seq<FunctionInput>)
    requires two == [FunctionInput("A", "1", Some("a")), FunctionInput("B", "2", Some("b"))]
    ensures FunctionInputs("f(", Some(two)) == "f(A=@a,B=@b)?@a=1@b=2"
  {
    Paths.AppendedIsJoin(two);
    Paths.TwoAliasParams(two);
    var s := "f(" + Paths.Appended(two);
    assert s == "f(A=@a,B=@b,";
    assert Prefix(s, |s| - 1) == "f(A=@a,B=@b";
    TwoAliasText(two);
    assert "f(A=@a,B=@b" + ")" + "?@a=1@b=2" == "f(A=@a,B=@b)?@a=1@b=2";
  }

  lemma TwoAliasText(two: seq<FunctionInput>)
    requires two == [FunctionInput("A", "1", Some("a")), FunctionInput("B", "2", Some("b"))]
    ensures AliasText(two) == "?@a=1@b=2"
  {
    Paths.TwoAliasPairs(two);
    assert Paths.AliasPairs(two) == ["@a=1", "@b=2"];
    assert ["@a=1", "@b=2"][1..] == ["@b=2"];
    JoinSingleton("@b=2", "");
    assert Concat(["@a=1", "@b=2"]) == "@a=1@b=2";
  }

  /** On those inputs the two builds disagree. */
  lemma TwoAliasesDiffer(two: seq<FunctionInput>)
    requires two == [FunctionInput("A", "1", Some("a")), FunctionInput("B", "2", Some("b"))]
    ensures FunctionInputs("f(", Some(two)) != Paths.FunctionInputs("f(", Some(two))
  {
    TwoAliasesRunTogether(two);
    Paths.TwoAliasesExample(two);
    assert |FunctionInputs("f(", Some(two))| == 21;
  }
}

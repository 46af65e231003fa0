/**
 * The request configuration of src/webapi.ts and the two header encoders that
 * every operation goes through: getPreferHeader, which turns QueryOptions into
 * the value of the Prefer header (section 8.2.8 of OData Version 4.0 Part 1:
 * Protocol, and RFC 7240), and getHeaders, which assembles the header map.
 */
module WebApi {
  import opened Wrappers
  import opened Text
  import opened Models

  /** WebApiConfig: the service root, API version and optional bearer token, shared by reference. */
  class WebApiConfig {
    var version: string
    var accessToken: Option<string>
    var url: string

    constructor (version: string, accessToken: Option<string>, url: string)
      ensures this.version == version && this.accessToken == accessToken && this.url == url
    {
      this.version := version;
      this.accessToken := accessToken;
      this.url := url;
    }
  }

  /** A request body before it is handed to the transport; JSON serialization is left abstract. */
  datatype Payload =
    | Serialized(json: Json)         // JSON.stringify of an entity or of action inputs
    | PropertyValue(value: Json)     // JSON.stringify({ value: value })
    | Reference(odataId: string)     // JSON.stringify({ '@odata.id': odataId })
    | Multipart(text: string)        // a $batch body, sent as it is

  /** WebApiRequestConfig: what an operation passes to the injected submitRequest. */
  datatype RequestConfig = RequestConfig(
    httpMethod: string,
    contentType: string,
    queryString: string,
    body: Option<Payload>,
    apiConfig: WebApiConfig,
    queryOptions: Option<QueryOptions>)

  const JsonContentType: string := "application/json; charset=utf-8"

  // ---------------------------------------------------------------------------
  // getPreferHeader

  const FormattedValueAnnotation: string := "OData.Community.Display.V1.FormattedValue"
  const LookupLogicalNameAnnotation: string := "Microsoft.Dynamics.CRM.lookuplogicalname"
  const AssociatedNavigationPropertyAnnotation: string := "Microsoft.Dynamics.CRM.associatednavigationproperty"
  const ReturnRepresentation: string := "return=representation"
  const MaxPageSizePrefix: string := "odata.maxpagesize="
  const IncludeAnnotationsPrefix: string := "odata.include-annotations="
  /** The text between double quotes. */
  function Quoted(s: string): string {
    "\"" + s + "\""
  }

  /** `odata.include-annotations="*"` */
  const AllAnnotations: string := IncludeAnnotationsPrefix + Quoted("*")

  /** `if (queryOptions.maxPageSize)`: present and not 0. */
  predicate MaxPageSizeGiven(q: QueryOptions) {
    q.maxPageSize.Some? && q.maxPageSize.value != 0
  }

  predicate AllAnnotationsRequested(q: QueryOptions) {
    q.includeFormattedValues && q.includeLookupLogicalNames && q.includeAssociatedNavigationProperties
  }

  function MaxPageSizeDirective(n: int): string {
    MaxPageSizePrefix + IntToString(n)
  }

  lemma DiffersAt(s: string, p: string, i: nat)
    requires i < |p| && (i >= |s| || s[i] != p[i])
    ensures !StartsWith(s, p)
  {
    if |p| <= |s| {
      assert s[..|p|][i] == s[i];
    }
  }

  lemma DiffersAtEnd(s: string, p: string)
    requires |s| > 0 && |p| > 0 && s[|s| - 1] != p[|p| - 1]
    ensures !EndsWith(s, p)
  {
    if |p| <= |s| {
      assert s[|s| - |p|..][|p| - 1] == s[|s| - 1];
    }
  }

  /** `.filter((v) => v !== '')` */
  function RemoveEmpty(xs: seq<string>): (r: seq<string>)
    decreases |xs|
    ensures forall x :: x in r <==> x in xs && x != ""
  {
    if |xs| == 0 then [] else (if xs[0] == "" then [] else [xs[0]]) + RemoveEmpty(xs[1..])
  }

  /** Every non-empty entry is kept as often as it occurs. */
  lemma {:induction false} RemoveEmptyCounts(xs: seq<string>, x: string)
    requires x != ""
    ensures multiset(RemoveEmpty(xs))[x] == multiset(xs)[x]
    decreases |xs|
  {
    if |xs| > 0 {
      assert xs == [xs[0]] + xs[1..];
      RemoveEmptyCounts(xs[1..], x);
    }
  }

  /** The filter keeps the order of what it keeps: filtering a concatenation filters each part. */
  lemma {:induction false} RemoveEmptyAppend(xs: seq<string>, ys: seq<string>)
    ensures RemoveEmpty(xs + ys) == RemoveEmpty(xs) + RemoveEmpty(ys)
    decreases |xs|
  {
    if |xs| == 0 {
      assert xs + ys == ys;
    } else {
      assert (xs + ys)[1..] == xs[1..] + ys;
      RemoveEmptyAppend(xs[1..], ys);
    }
  }

  lemma RemoveEmptyOfThree(a: string, b: string, c: string)
    ensures RemoveEmpty([a, b, c]) ==
      (if a == "" then [] else [a]) + (if b == "" then [] else [b]) + (if c == "" then [] else [c])
  {
    assert [c][1..] == [];
    assert RemoveEmpty([c]) == (if c == "" then [] else [c]);
    assert [b, c][1..] == [c];
    assert RemoveEmpty([b, c]) == (if b == "" then [] else [b]) + RemoveEmpty([c]);
    assert [a, b, c][1..] == [b, c];
    assert RemoveEmpty([a, b, c]) == (if a == "" then [] else [a]) + RemoveEmpty([b, c]);
  }

  /** Rank of an annotation name in the fixed order the encoder lists them. */
  function AnnotationRank(name: string): nat {
    if name == FormattedValueAnnotation then 0
    else if name == LookupLogicalNameAnnotation then 1
    else 2
  }

  /** The requested annotation names, in the order FormattedValue, lookuplogicalname, associatednavigationproperty. */
  function AnnotationNames(q: QueryOptions): (r: seq<string>)
    ensures FormattedValueAnnotation in r <==> q.includeFormattedValues
    ensures LookupLogicalNameAnnotation in r <==> q.includeLookupLogicalNames
    ensures AssociatedNavigationPropertyAnnotation in r <==> q.includeAssociatedNavigationProperties
    ensures forall x :: x in r ==>
      x == FormattedValueAnnotation || x == LookupLogicalNameAnnotation || x == AssociatedNavigationPropertyAnnotation
    ensures forall i, j :: 0 <= i < j < |r| ==> AnnotationRank(r[i]) < AnnotationRank(r[j])
    ensures r == [] <==>
      !q.includeFormattedValues && !q.includeLookupLogicalNames && !q.includeAssociatedNavigationProperties
  {
    var listed := [
      if q.includeFormattedValues then FormattedValueAnnotation else "",
      if q.includeLookupLogicalNames then LookupLogicalNameAnnotation else "",
      if q.includeAssociatedNavigationProperties then AssociatedNavigationPropertyAnnotation else ""];
    RemoveEmptyOfThree(listed[0], listed[1], listed[2]);
    RemoveEmpty(listed)
  }

  /** The one annotation directive emitted when representation is not requested. */
  function AnnotationsDirective(q: QueryOptions): string {
    if AllAnnotationsRequested(q) then AllAnnotations
    else IncludeAnnotationsPrefix + Quoted(Join(AnnotationNames(q), ","))
  }

  lemma AnnotationsDirectivePrefix(q: QueryOptions)
    ensures StartsWith(AnnotationsDirective(q), IncludeAnnotationsPrefix)
  {
    if AllAnnotationsRequested(q) {
      StartsWithAppend(IncludeAnnotationsPrefix, Quoted("*"));
    } else {
      StartsWithAppend(IncludeAnnotationsPrefix, Quoted(Join(AnnotationNames(q), ",")));
    }
  }

  /** The directives getPreferHeader pushes, in push order. */
  function PreferDirectives(q: QueryOptions): seq<string> {
    (if MaxPageSizeGiven(q) then [MaxPageSizeDirective(q.maxPageSize.value)] else []) +
    [if q.representation then ReturnRepresentation else AnnotationsDirective(q)]
  }

  function PreferHeader(q: QueryOptions): string {
    Join(PreferDirectives(q), ",")
  }

  /** getPreferHeader: push the directives onto `prefer`, then join them with commas. */
  method GetPreferHeader(q: QueryOptions) returns (header: string)
    ensures header == PreferHeader(q)
  {
    var prefer: seq<string> := [];
    if MaxPageSizeGiven(q) {
      prefer := prefer + [MaxPageSizePrefix + IntToString(q.maxPageSize.value)];
    }
    if q.representation {
      prefer := prefer + [ReturnRepresentation];
    } else if q.includeFormattedValues && q.includeLookupLogicalNames && q.includeAssociatedNavigationProperties {
      prefer := prefer + [AllAnnotations];
    } else {
      var preferExtra := Join(RemoveEmpty([
        if q.includeFormattedValues then FormattedValueAnnotation else "",
        if q.includeLookupLogicalNames then LookupLogicalNameAnnotation else "",
        if q.includeAssociatedNavigationProperties then AssociatedNavigationPropertyAnnotation else ""]), ",");
      prefer := prefer + [IncludeAnnotationsPrefix + Quoted(preferExtra)];
    }
    header := Join(prefer, ",");
  }

  // ---------------------------------------------------------------------------
  // Properties of the Prefer value

  /** What `PreferHeader` is, directive by directive. */
  lemma PreferHeaderShape(q: QueryOptions)
    ensures MaxPageSizeGiven(q) ==>
      PreferHeader(q) == MaxPageSizeDirective(q.maxPageSize.value) + "," + PreferDirectives(q)[1]
    ensures !MaxPageSizeGiven(q) ==> PreferHeader(q) == PreferDirectives(q)[0]
  {
    var ds := PreferDirectives(q);
    if MaxPageSizeGiven(q) {
      assert ds == [ds[0], ds[1]];
      JoinPair(ds[0], ds[1], ",");
    } else {
      assert ds == [ds[0]];
      JoinSingleton(ds[0], ",");
    }
  }

  /** A page size is requested, and then as the first directive, exactly when maxPageSize is truthy. */
  lemma PreferMaxPageSizeFirst(q: QueryOptions)
    ensures StartsWith(PreferHeader(q), MaxPageSizePrefix) <==> MaxPageSizeGiven(q)
    ensures MaxPageSizeGiven(q) ==>
      StartsWith(PreferHeader(q), MaxPageSizeDirective(q.maxPageSize.value) + ",")
  {
    if MaxPageSizeGiven(q) {
      MaxPageSizeLeads(q);
    } else {
      NoMaxPageSizeLeads(q);
    }
  }

  lemma MaxPageSizeLeads(q: QueryOptions)
    requires MaxPageSizeGiven(q)
    ensures StartsWith(PreferHeader(q), MaxPageSizePrefix)
    ensures StartsWith(PreferHeader(q), MaxPageSizeDirective(q.maxPageSize.value) + ",")
  {
    PreferHeaderShape(q);
    var d := MaxPageSizeDirective(q.maxPageSize.value);
    var rest := PreferDirectives(q)[1];
    StartsWithAppend(d + ",", rest);
    StartsWithAppend(MaxPageSizePrefix, IntToString(q.maxPageSize.value) + ",");
    ConcatAssociative(MaxPageSizePrefix, IntToString(q.maxPageSize.value), ",");
    StartsWithTransitive(PreferHeader(q), d + ",", MaxPageSizePrefix);
  }

  lemma NoMaxPageSizeLeads(q: QueryOptions)
    requires !MaxPageSizeGiven(q)
    ensures !StartsWith(PreferHeader(q), MaxPageSizePrefix)
  {
    PreferHeaderShape(q);
    var h := PreferDirectives(q)[0];
    if q.representation {
      assert h == ReturnRepresentation;
    } else if AllAnnotationsRequested(q) {
      assert h == AllAnnotations;
    } else {
      AnnotationsDirectivePrefix(q);
      assert h[6] == IncludeAnnotationsPrefix[6];
    }
    assert h[6] != 'm';
    DiffersAt(h, MaxPageSizePrefix, 6);
  }

  /** return=representation is the last directive exactly when representation is set, and then no annotation directive is sent. */
  lemma PreferRepresentationLast(q: QueryOptions)
    ensures EndsWith(PreferHeader(q), ReturnRepresentation) <==> q.representation
    ensures q.representation ==>
      forall i :: 0 <= i < |PreferDirectives(q)| ==> !StartsWith(PreferDirectives(q)[i], IncludeAnnotationsPrefix)
  {
    if q.representation {
      RepresentationLeavesOutAnnotations(q);
    } else {
      AnnotationsLeaveOutRepresentation(q);
    }
  }

  lemma AnnotationsLeaveOutRepresentation(q: QueryOptions)
    requires !q.representation
    ensures !EndsWith(PreferHeader(q), ReturnRepresentation)
  {
    PreferAnnotations(q);
    AnnotationsDirectiveEnd(q);
    var h := PreferHeader(q);
    var a := AnnotationsDirective(q);
    assert h[|h| - 1] == h[|h| - |a|..][|a| - 1];
    DiffersAtEnd(h, ReturnRepresentation);
  }

  lemma RepresentationLeavesOutAnnotations(q: QueryOptions)
    requires q.representation
    ensures EndsWith(PreferHeader(q), ReturnRepresentation)
    ensures forall i :: 0 <= i < |PreferDirectives(q)| ==> !StartsWith(PreferDirectives(q)[i], IncludeAnnotationsPrefix)
  {
    PreferHeaderShape(q);
    var ds := PreferDirectives(q);
    if MaxPageSizeGiven(q) {
      EndsWithAppend(MaxPageSizeDirective(q.maxPageSize.value) + ",", ReturnRepresentation);
      assert ds[0][6] == MaxPageSizePrefix[6];
      DiffersAt(ds[0], IncludeAnnotationsPrefix, 6);
    } else {
      EndsWithAppend("", ReturnRepresentation);
    }
    DiffersAt(ReturnRepresentation, IncludeAnnotationsPrefix, 0);
  }

  /** The annotation directive always ends in the closing double quote. */
  lemma AnnotationsDirectiveEnd(q: QueryOptions)
    ensures |AnnotationsDirective(q)| > 0
    ensures AnnotationsDirective(q)[|AnnotationsDirective(q)| - 1] == '"'
  {
    var t := if AllAnnotationsRequested(q) then "*" else Join(AnnotationNames(q), ",");
    assert AnnotationsDirective(q) == IncludeAnnotationsPrefix + Quoted(t);
  }

  /**
   * Without representation the last directive is the annotation one: `"*"` when
   * all three flags are set, otherwise the requested names comma-joined in
   * their fixed order, an empty quoted string when none is set.
   */
  lemma PreferAnnotations(q: QueryOptions)
    requires !q.representation
    ensures EndsWith(PreferHeader(q), AnnotationsDirective(q))
  {
    PreferHeaderShape(q);
    var a := AnnotationsDirective(q);
    var before := if MaxPageSizeGiven(q) then MaxPageSizeDirective(q.maxPageSize.value) + "," else "";
    assert PreferHeader(q) == before + a;
    EndsWithAppend(before, a);
  }

  /** All three annotations: the wildcard. */
  lemma PreferAllAnnotationsExample()
    ensures PreferHeader(QueryOptions(true, true, true, None, None, None, false)) ==
      "odata.include-annotations=\"*\""
  {
    PreferHeaderShape(QueryOptions(true, true, true, None, None, None, false));
  }

  /** Representation with a page size of 50. */
  lemma PreferPageSizeExample(q: QueryOptions)
    requires q == QueryOptions(false, false, false, Some(50), None, None, true)
    ensures PreferHeader(q) == "odata.maxpagesize=50,return=representation"
  {
    assert IntToString(50) == "50" by {
      assert NatToString(50) == NatToString(5) + [DigitChar(0)];
    }
    PreferHeaderShape(q);
    PageSizeText();
  }

  lemma PageSizeText()
    ensures MaxPageSizePrefix + "50" + "," + ReturnRepresentation == "odata.maxpagesize=50,return=representation"
  {
  }

  /** Two of the three annotations, and a page size of 0, which counts as absent. */
  lemma PreferTwoAnnotationsExample(q: QueryOptions)
    requires q == QueryOptions(true, false, true, Some(0), None, None, false)
    ensures PreferHeader(q) ==
      IncludeAnnotationsPrefix + Quoted(FormattedValueAnnotation + "," + AssociatedNavigationPropertyAnnotation)
  {
    TwoAnnotationNames(q);
    JoinPair(FormattedValueAnnotation, AssociatedNavigationPropertyAnnotation, ",");
    PreferHeaderShape(q);
  }

  lemma TwoAnnotationNames(q: QueryOptions)
    requires q.includeFormattedValues && !q.includeLookupLogicalNames && q.includeAssociatedNavigationProperties
    ensures AnnotationNames(q) == [FormattedValueAnnotation, AssociatedNavigationPropertyAnnotation]
  {
    RemoveEmptyOfThree(FormattedValueAnnotation, "", AssociatedNavigationPropertyAnnotation);
  }

  // ---------------------------------------------------------------------------
  // getHeaders

  const FixedHeaderNames: set<string> := {"Accept", "OData-MaxVersion", "OData-Version", "Content-Type"}

  /** The four headers every request carries: JSON, OData 4.0, and the request's content type. */
  function FixedHeaders(contentType: string): (h: map<string, string>)
    ensures h.Keys == FixedHeaderNames
    ensures h["Accept"] == "application/json"
    ensures h["OData-MaxVersion"] == "4.0" && h["OData-Version"] == "4.0"
    ensures h["Content-Type"] == contentType
  {
    map["Accept" := "application/json", "OData-MaxVersion" := "4.0", "OData-Version" := "4.0",
        "Content-Type" := contentType]
  }

  /**
   * The headers getHeaders sends for a request of content type `contentType`
   * over a connection holding `accessToken`: the fixed protocol headers, the
   * bearer token, and Prefer plus caller id when options are given.
   */
  function Headers(contentType: string, accessToken: Option<string>, queryOptions: Option<QueryOptions>)
    : map<string, string>
  {
    var fixed := FixedHeaders(contentType);
    var authorized := if accessToken.Some? then fixed["Authorization" := "Bearer " + accessToken.value] else fixed;
    if queryOptions.None? then authorized
    else
      var q := queryOptions.value;
      var preferred := authorized["Prefer" := PreferHeader(q)];
      if q.impersonateUserId.Some? then preferred["CallerObjectId" := q.impersonateUserId.value] else preferred
  }

  /** getHeaders: set the fixed headers, then the optional ones, on a fresh map. */
  method GetHeaders(config: RequestConfig) returns (headers: map<string, string>)
    ensures headers == Headers(config.contentType, config.apiConfig.accessToken, config.queryOptions)
  {
    headers := map[];
    headers := headers["Accept" := "application/json"];
    headers := headers["OData-MaxVersion" := "4.0"];
    headers := headers["OData-Version" := "4.0"];
    headers := headers["Content-Type" := config.contentType];

    if config.apiConfig.accessToken.Some? {
      headers := headers["Authorization" := "Bearer " + config.apiConfig.accessToken.value];
    }

    if config.queryOptions.Some? {
      var prefer := GetPreferHeader(config.queryOptions.value);
      headers := headers["Prefer" := prefer];

      if config.queryOptions.value.impersonateUserId.Some? {
        headers := headers["CallerObjectId" := config.queryOptions.value.impersonateUserId.value];
      }
    }
  }

  /** Exactly the four fixed headers, plus Authorization with a token, Prefer with options, and CallerObjectId when impersonating. */
  lemma HeadersKeys(contentType: string, accessToken: Option<string>, queryOptions: Option<QueryOptions>)
    ensures Headers(contentType, accessToken, queryOptions).Keys == FixedHeaderNames
      + (if accessToken.Some? then {"Authorization"} else {})
      + (if queryOptions.Some? then {"Prefer"} else {})
      + (if queryOptions.Some? && queryOptions.value.impersonateUserId.Some? then {"CallerObjectId"} else {})
  {
    OptionalHeaderNamesDistinct();
  }

  /** No optional header name is a fixed one, and the optional names differ from each other. */
  lemma OptionalHeaderNamesDistinct()
    ensures "Authorization" !in FixedHeaderNames && "Prefer" !in FixedHeaderNames
    ensures "CallerObjectId" !in FixedHeaderNames && "MSCRMCallerID" !in FixedHeaderNames
    ensures "Authorization" != "Prefer" && "Prefer" != "CallerObjectId" && "CallerObjectId" != "Authorization"
    ensures "MSCRMCallerID" != "Authorization" && "MSCRMCallerID" != "Prefer" && "MSCRMCallerID" != "CallerObjectId"
  {
    assert "Prefer"[0] == 'P';
    assert "Accept"[0] == 'A';
    assert "CallerObjectId"[1] == 'a';
    assert "Content-Type"[1] == 'o';
  }

  /** The fixed headers: JSON, OData 4.0, and the request's content type. */
  lemma FixedHeaderValues(contentType: string, accessToken: Option<string>, queryOptions: Option<QueryOptions>)
    ensures var h := Headers(contentType, accessToken, queryOptions);
      "Accept" in h && h["Accept"] == "application/json" &&
      "OData-MaxVersion" in h && h["OData-MaxVersion"] == "4.0" &&
      "OData-Version" in h && h["OData-Version"] == "4.0" &&
      "Content-Type" in h && h["Content-Type"] == contentType
  {
    OptionalHeaderNamesDistinct();
  }

  /** Authorization carries the bearer token, Prefer the Prefer value and CallerObjectId the impersonated id, each exactly when it applies. */
  lemma OptionalHeaderValues(contentType: string, accessToken: Option<string>, queryOptions: Option<QueryOptions>)
    ensures var h := Headers(contentType, accessToken, queryOptions);
      ("Authorization" in h <==> accessToken.Some?) &&
      ("Authorization" in h ==> h["Authorization"] == "Bearer " + accessToken.value) &&
      ("Prefer" in h <==> queryOptions.Some?) &&
      ("Prefer" in h ==> h["Prefer"] == PreferHeader(queryOptions.value)) &&
      ("CallerObjectId" in h <==> queryOptions.Some? && queryOptions.value.impersonateUserId.Some?) &&
      ("CallerObjectId" in h ==> h["CallerObjectId"] == queryOptions.value.impersonateUserId.value)
  {
    OptionalHeaderNamesDistinct();
  }
}

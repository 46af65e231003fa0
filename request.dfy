/**
 * The request object of src/request.ts: a `WebApiRequest` holds the connection
 * settings and builds the headers of each request it submits. Unlike the free
 * function of src/webapi.ts it impersonates through `MSCRMCallerID`, taken from
 * the Guid `impersonateUser`, and it reads the token from its own settings.
 */
module Request {
  import opened Wrappers
  import opened Text
  import opened Models
  import opened WebApi

  /** What a caller hands to `submitRequest`: there is no connection or options part here. */
  datatype WebApiRequestConfig = WebApiRequestConfig(
    httpMethod: string,
    contentType: string,
    body: Option<string>,
    queryString: string)

  class WebApiRequest {
    var config: WebApiConfig

    constructor (config: WebApiConfig)
      ensures this.config == config
    {
      this.config := config;
    }

    /** getHeaders: set the fixed headers, then the optional ones, on a fresh map. */
    method GetHeaders(c: WebApiRequestConfig, queryOptions: Option<QueryOptions>) returns (headers: map<string, string>)
      ensures headers == RequestHeaders(c.contentType, config.accessToken, queryOptions)
    {
      var token := config.accessToken;
      headers := map["Accept" := "application/json", "OData-MaxVersion" := "4.0", "OData-Version" := "4.0",
                     "Content-Type" := c.contentType];

      if token.Some? {
        headers := headers["Authorization" := "Bearer " + token.value];
      }

      if queryOptions.Some? {
        var prefer := this.GetPreferHeader(queryOptions.value);
        headers := headers["Prefer" := prefer];

        if queryOptions.value.impersonateUser.Some? {
          headers := headers["MSCRMCallerID" := queryOptions.value.impersonateUser.value.value];
        }
      }
    }

    /**
     * getPreferHeader: the class's own pushes onto `prefer`. They give the
     * same directives, in the same order, as the free function of
     * src/webapi.ts, so every property proved of PreferHeader in module
     * WebApi holds of it.
     */
    method GetPreferHeader(q: QueryOptions) returns (header: string)
      ensures header == PreferHeader(q)
    {
      var prefer: seq<string> := [];
      if MaxPageSizeGiven(q) {
        prefer := prefer + [MaxPageSizePrefix + IntToString(q.maxPageSize.value)];
      }
      if q.representation {
        prefer := prefer + [ReturnRepresentation];
      } else if q.includeFormattedValues && q.includeLookupLogicalNames && q.includeAssociatedNavigationProperties {
        prefer := prefer + [AllAnnotations];
      } else {
        var preferExtra := Join(RemoveEmpty([
          if q.includeFormattedValues then FormattedValueAnnotation else "",
          if q.includeLookupLogicalNames then LookupLogicalNameAnnotation else "",
          if q.includeAssociatedNavigationProperties then AssociatedNavigationPropertyAnnotation else ""]), ",");
        prefer := prefer + [IncludeAnnotationsPrefix + Quoted(preferExtra)];
      }
      header := Join(prefer, ",");
    }
  }

  /**
   * The headers a WebApiRequest sends: the fixed protocol headers, the bearer
   * token of its settings, and Prefer plus MSCRMCallerID when options are given.
   */
  function RequestHeaders(contentType: string, accessToken: Option<string>, queryOptions: Option<QueryOptions>)
    : map<string, string>
  {
    var fixed := FixedHeaders(contentType);
    var authorized := if accessToken.Some? then fixed["Authorization" := "Bearer " + accessToken.value] else fixed;
    if queryOptions.None? then authorized
    else
      var q := queryOptions.value;
      var preferred := authorized["Prefer" := PreferHeader(q)];
      if q.impersonateUser.Some? then preferred["MSCRMCallerID" := q.impersonateUser.value.value] else preferred
  }

  /** Exactly the four fixed headers, plus Authorization with a token, Prefer with options, and MSCRMCallerID when impersonating. */
  lemma RequestHeadersKeys(contentType: string, accessToken: Option<string>, queryOptions: Option<QueryOptions>)
    ensures RequestHeaders(contentType, accessToken, queryOptions).Keys == FixedHeaderNames
      + (if accessToken.Some? then {"Authorization"} else {})
      + (if queryOptions.Some? then {"Prefer"} else {})
      + (if queryOptions.Some? && queryOptions.value.impersonateUser.Some? then {"MSCRMCallerID"} else {})
  {
    OptionalHeaderNamesDistinct();
  }

  /** The fixed headers: JSON, OData 4.0, and the request's content type. */
  lemma RequestFixedHeaderValues(contentType: string, accessToken: Option<string>, queryOptions: Option<QueryOptions>)
    ensures var h := RequestHeaders(contentType, accessToken, queryOptions);
      "Accept" in h && h["Accept"] == "application/json" &&
      "OData-MaxVersion" in h && h["OData-MaxVersion"] == "4.0" &&
      "OData-Version" in h && h["OData-Version"] == "4.0" &&
      "Content-Type" in h && h["Content-Type"] == contentType
  {
    OptionalHeaderNamesDistinct();
  }

  /**
   * Authorization carries the bearer token, Prefer the Prefer value and
   * MSCRMCallerID the impersonated user's Guid, each exactly when it applies;
   * the CallerObjectId header of src/webapi.ts is never sent.
   */
  lemma RequestOptionalHeaderValues(contentType: string, accessToken: Option<string>, queryOptions: Option<QueryOptions>)
    ensures var h := RequestHeaders(contentType, accessToken, queryOptions);
      ("Authorization" in h <==> accessToken.Some?) &&
      ("Authorization" in h ==> h["Authorization"] == "Bearer " + accessToken.value) &&
      ("Prefer" in h <==> queryOptions.Some?) &&
      ("Prefer" in h ==> h["Prefer"] == PreferHeader(queryOptions.value)) &&
      ("MSCRMCallerID" in h <==> queryOptions.Some? && queryOptions.value.impersonateUser.Some?) &&
      ("MSCRMCallerID" in h ==> h["MSCRMCallerID"] == queryOptions.value.impersonateUser.value.value) &&
      "CallerObjectId" !in h
  {
    OptionalHeaderNamesDistinct();
  }

  /** The Prefer value a WebApiRequest sends leads with the page size, and ends with representation or else the annotations. */
  lemma PreferHeaderOrder(q: QueryOptions)
    ensures StartsWith(PreferHeader(q), MaxPageSizePrefix) <==> MaxPageSizeGiven(q)
    ensures q.representation <==> EndsWith(PreferHeader(q), ReturnRepresentation)
    ensures !q.representation ==> EndsWith(PreferHeader(q), AnnotationsDirective(q))
  {
    PreferMaxPageSizeFirst(q);
    PreferRepresentationLast(q);
    if !q.representation {
      PreferAnnotations(q);
    }
  }
}

/**
 * The value types of src/models.ts: the validated Guid with its canonical
 * form and case-insensitive comparison, and the QueryOptions, ChangeSet and
 * FunctionInput records the request encoders take.
 */
module Models {
  import opened Wrappers
  import opened Text

  // ---------------------------------------------------------------------------
  // Guid

  /** A Guid object; `value` is set once by the constructor and never changed. */
  datatype Guid = Guid(value: string)

  /** The message of the Error the constructor throws. */
  function InvalidGuidMessage(value: string): string {
    "Id " + value + " is not a valid GUID"
  }

  /**
   * `new Guid(raw)`: remove every brace, test the 8-4-4-4-12 hex pattern in
   * any case, store the upper-cased text; otherwise throw.
   */
  function NewGuid(raw: string): (r: Result<Guid, string>)
    ensures r.Ok? <==> IsGuidShape(RemoveBraces(raw))
    ensures r.Ok? ==> IsCanonicalGuid(r.value.value) && |r.value.value| == 36
    ensures r.Ok? ==> forall i :: 0 <= i < 36 ==> !IsBrace(r.value.value[i])
    ensures r.Ok? ==> Lower(r.value.value) == Lower(RemoveBraces(raw))
    ensures r.Err? ==> r.error == InvalidGuidMessage(RemoveBraces(raw))
  {
    var value := RemoveBraces(raw);
    GuidPatternIsShape(value);
    if MatchesGuidPattern(value) then
      UpperKeepsShape(value);
      LowerOfUpper(value);
      GuidShapeHasNoBraces(Upper(value));
      Ok(Guid(Upper(value)))
    else
      Err(InvalidGuidMessage(value))
  }

  /** `g.areEqual(compare)`: false for a missing `compare`, else equal ignoring case. */
  function AreEqual(g: Guid, compare: Option<Guid>): (r: bool)
    ensures compare.None? ==> !r
    ensures compare.Some? ==>
      (r <==> (|g.value| == |compare.value.value| &&
               forall i :: 0 <= i < |g.value| ==> LowerChar(g.value[i]) == LowerChar(compare.value.value[i])))
  {
    compare.Some? && Lower(g.value) == Lower(compare.value.value)
  }

  /** The braced spelling `{h}` of a GUID `h` gives the same Guid as `h` itself. */
  lemma BracedSameAsBare(h: string)
    requires IsGuidShape(h)
    ensures NewGuid("{" + h + "}") == NewGuid(h) == Ok(Guid(Upper(h)))
  {
    assert RemoveBraces("{" + h + "}") == h by {
      assert "{" + h + "}" == "{" + (h + "}");
      RemoveBracesAppend("{", h + "}");
      RemoveBracesAppend(h, "}");
      GuidShapeHasNoBraces(h);
      RemoveBracesNoBraces(h);
    }
    assert NewGuid(h) == Ok(Guid(Upper(h))) by {
      GuidShapeHasNoBraces(h);
      RemoveBracesNoBraces(h);
      GuidPatternIsShape(h);
    }
  }

  /** Constructing a Guid from the canonical `value` of a Guid gives that Guid back. */
  lemma ReparseIsIdentity(raw: string)
    requires NewGuid(raw).Ok?
    ensures NewGuid(NewGuid(raw).value.value) == NewGuid(raw)
  {
    var v := RemoveBraces(raw);
    var g := NewGuid(raw).value;
    assert g.value == Upper(v) by { GuidPatternIsShape(v); }
    GuidShapeHasNoBraces(g.value);
    RemoveBracesNoBraces(g.value);
    UpperIsNormal(v);
  }

  /** areEqual is reflexive on every Guid and false against a missing one. */
  lemma AreEqualReflexive(g: Guid)
    ensures AreEqual(g, Some(g))
    ensures !AreEqual(g, None)
  {
  }

  lemma AreEqualSymmetric(g: Guid, h: Guid)
    ensures AreEqual(g, Some(h)) == AreEqual(h, Some(g))
  {
  }

  lemma AreEqualTransitive(f: Guid, g: Guid, h: Guid)
    requires AreEqual(f, Some(g)) && AreEqual(g, Some(h))
    ensures AreEqual(f, Some(h))
  {
  }

  /**
   * Two constructed Guids are areEqual exactly when they are the same value,
   * exactly when their inputs name the same GUID up to braces and case.
   */
  lemma AreEqualOnConstructed(a: string, b: string)
    requires NewGuid(a).Ok? && NewGuid(b).Ok?
    ensures AreEqual(NewGuid(a).value, Some(NewGuid(b).value)) <==> NewGuid(a) == NewGuid(b)
    ensures AreEqual(NewGuid(a).value, Some(NewGuid(b).value)) <==>
      Lower(RemoveBraces(a)) == Lower(RemoveBraces(b))
  {
    LowerInjectiveOnNormal(NewGuid(a).value.value, NewGuid(b).value.value);
  }

  // ---------------------------------------------------------------------------
  // Records passed by callers

  /**
   * QueryOptions. Optional booleans read as false when absent. Besides the
   * fields models.ts declares, `impersonateUserId` is the caller id that
   * src/webapi.ts reads from the same record.
   */
  datatype QueryOptions = QueryOptions(
    includeFormattedValues: bool,
    includeLookupLogicalNames: bool,
    includeAssociatedNavigationProperties: bool,
    maxPageSize: Option<int>,
    impersonateUser: Option<Guid>,
    impersonateUserId: Option<string>,
    representation: bool)

  /** An options record with every field absent: `{}`. */
  const NoOptions: QueryOptions :=
    QueryOptions(false, false, false, None, None, None, false)

  /** Serialized JSON text of an entity: what JSON.stringify returns for it. */
  type Json = string

  /** A change set entry of a batch; `httpMethod` is the `method` field the batch encoder of src/webapi.ts reads. */
  datatype ChangeSet = ChangeSet(httpMethod: string, queryString: string, entity: Json)

  /** An input of an OData function call; the alias is used only when it is a non-empty string. */
  datatype FunctionInput = FunctionInput(name: string, value: string, alias: Option<string>) {
    predicate HasAlias() {
      alias.Some? && alias.value != ""
    }
  }
}

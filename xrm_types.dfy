/**
 * The Guid of src/xrm-types.ts. Its constructor calls `value.replace(/[{}]/g, "")`
 * but discards the result, so the pattern is tested on the raw input: braces are
 * never stripped and a braced GUID is rejected.
 */
module XrmTypes {
  import opened Wrappers
  import opened Text
  import Models

  datatype Guid = Guid(value: string)

  /** `new Guid(raw)` as written: validate and upper-case the unmodified input. */
  function NewGuid(raw: string): (r: Result<Guid, string>)
    ensures r.Ok? <==> IsGuidShape(raw)
    ensures r.Ok? ==> r.value.value == Upper(raw) && |r.value.value| == 36
    ensures r.Ok? ==> IsCanonicalGuid(r.value.value)
    ensures r.Err? ==> r.error == Models.InvalidGuidMessage(raw)
  {
    GuidPatternIsShape(raw);
    UpperKeepsShape(raw);
    if MatchesGuidPattern(raw) then Ok(Guid(Upper(raw))) else Err(Models.InvalidGuidMessage(raw))
  }

  /** Any input holding a brace is rejected, whatever else it holds. */
  lemma BracesAlwaysRejected(raw: string)
    requires exists i :: 0 <= i < |raw| && IsBrace(raw[i])
    ensures NewGuid(raw).Err?
    ensures NewGuid(raw).error == Models.InvalidGuidMessage(raw)
  {
    var i :| 0 <= i < |raw| && IsBrace(raw[i]);
    if IsGuidShape(raw) {
      GuidShapeHasNoBraces(raw);
      assert false;
    }
  }

  /**
   * The discrepancy: for every GUID text `h`, the braced input `{h}` is rejected
   * here while the constructor of src/models.ts accepts it as `h`.
   */
  lemma BracedGuidRejected(h: string)
    requires IsGuidShape(h)
    ensures NewGuid("{" + h + "}").Err?
    ensures Models.NewGuid("{" + h + "}") == Models.NewGuid(h) == Ok(Models.Guid(Upper(h)))
  {
    assert ("{" + h + "}")[0] == '{';
    BracesAlwaysRejected("{" + h + "}");
    Models.BracedSameAsBare(h);
  }

  /** On inputs without braces the two constructors agree. */
  lemma AgreesWithoutBraces(raw: string)
    requires forall i :: 0 <= i < |raw| ==> !IsBrace(raw[i])
    ensures NewGuid(raw).Ok? <==> Models.NewGuid(raw).Ok?
    ensures NewGuid(raw).Ok? ==> NewGuid(raw).value.value == Models.NewGuid(raw).value.value
    ensures NewGuid(raw).Err? ==> NewGuid(raw).error == Models.NewGuid(raw).error
  {
    RemoveBracesNoBraces(raw);
    GuidPatternIsShape(raw);
  }
}

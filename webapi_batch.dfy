/**
 * The $batch request of src/webapi.ts (section 11.7 of OData Version 4.0
 * Part 1: Protocol): an optional change set of write requests, each a part of
 * its own with a 1-based Content-ID, followed by one part per read, framed by
 * multipart boundaries (section 5.1 of RFC 2046) and joined with CRLF.
 */
module WebApiBatch {
  import opened Wrappers
  import opened Text
  import opened Models
  import opened WebApi

  // ---------------------------------------------------------------------------
  // The lines of the body

  function BatchBoundary(batchId: string): string {
    "--batch_" + batchId
  }

  function ChangeSetBoundary(changeSetId: string): string {
    "--changeset_" + changeSetId
  }

  const MixedType: string := "Content-Type: multipart/mixed;"
  const ChangeSetTypePrefix: string := MixedType + "boundary=changeset_"

  function ChangeSetContentType(changeSetId: string): string {
    ChangeSetTypePrefix + changeSetId
  }

  /** The fixed header lines of the parts. */
  const HttpPartType: string := "Content-Type: application/http"
  const BinaryEncoding: string := "Content-Transfer-Encoding:binary"
  const EntryType: string := "Content-Type: application/json;type=entry"
  const AcceptJson: string := "Accept: application/json"

  lemma FixedLinesWithoutCr()
    ensures NoCarriageReturn(HttpPartType) && NoCarriageReturn(BinaryEncoding)
    ensures NoCarriageReturn(EntryType) && NoCarriageReturn(AcceptJson)
  {
    HttpPartTypeWithoutCr();
    BinaryEncodingWithoutCr();
    EntryTypeWithoutCr();
    AcceptJsonWithoutCr();
  }

  lemma HttpPartTypeWithoutCr() ensures NoCarriageReturn(HttpPartType) { }
  lemma BinaryEncodingWithoutCr() ensures NoCarriageReturn(BinaryEncoding) { }
  lemma EntryTypeWithoutCr() ensures NoCarriageReturn(EntryType) { }
  lemma AcceptJsonWithoutCr() ensures NoCarriageReturn(AcceptJson) { }
  lemma MixedTypeWithoutCr() ensures NoCarriageReturn(MixedType) { }

  lemma ChangeSetTypePrefixWithoutCr() ensures NoCarriageReturn(ChangeSetTypePrefix) {
    MixedTypeWithoutCr();
    ConcatWithoutCr(MixedType, "boundary=changeset_");
  }

  lemma FramingWithoutCr()
    ensures NoCarriageReturn("--batch_") && NoCarriageReturn("--changeset_") && NoCarriageReturn("--")
    ensures NoCarriageReturn(ChangeSetTypePrefix)
  {
    ChangeSetTypePrefixWithoutCr();
  }

  /** `<method> <url>/<path> HTTP/1.1` */
  function RequestLine(httpMethod: string, url: string, path: string): string {
    httpMethod + " " + url + "/" + path + " HTTP/1.1"
  }

  function ContentId(i: nat): string {
    "Content-ID: " + NatToString(i + 1)
  }

  /** The three lines that open the change set. */
  function ChangeSetOpening(batchId: string, changeSetId: string): seq<string> {
    [BatchBoundary(batchId), ChangeSetContentType(changeSetId), ""]
  }

  /** The two lines that close the change set. */
  function ChangeSetClosing(changeSetId: string): seq<string> {
    [ChangeSetBoundary(changeSetId) + "--", ""]
  }

  /** The nine lines of the change set entry at position `i`. */
  function ChangeSetEntry(url: string, changeSetId: string, c: ChangeSet, i: nat): (r: seq<string>)
    ensures |r| == 9
  {
    [ChangeSetBoundary(changeSetId),
     HttpPartType,
     BinaryEncoding,
     ContentId(i),
     "",
     RequestLine(c.httpMethod, url, c.queryString),
     EntryType,
     "",
     c.entity]
  }

  /** The lines of the change set entries, in input order. */
  function ChangeSetEntries(url: string, changeSetId: string, cs: seq<ChangeSet>): seq<string>
    decreases |cs|
  {
    if |cs| == 0 then []
    else ChangeSetEntries(url, changeSetId, cs[..|cs| - 1]) + ChangeSetEntry(url, changeSetId, cs[|cs| - 1], |cs| - 1)
  }

  /** The seven lines of one read. */
  function GetRequest(url: string, batchId: string, get: string): (r: seq<string>)
    ensures |r| == 7
  {
    [BatchBoundary(batchId),
     HttpPartType,
     BinaryEncoding,
     "",
     RequestLine("GET", url, get),
     AcceptJson,
     ""]
  }

  function GetRequests(url: string, batchId: string, gets: seq<string>): seq<string>
    decreases |gets|
  {
    if |gets| == 0 then []
    else GetRequests(url, batchId, gets[..|gets| - 1]) + GetRequest(url, batchId, gets[|gets| - 1])
  }

  /** The change set part: framed entries, or nothing when there are no change sets. */
  function ChangeSetPart(url: string, batchId: string, changeSetId: string, cs: seq<ChangeSet>): seq<string> {
    if |cs| > 0 then
      ChangeSetOpening(batchId, changeSetId) + ChangeSetEntries(url, changeSetId, cs) + ChangeSetClosing(changeSetId)
    else []
  }

  /** The read part: one block per read, then a blank line when there is any read. */
  function GetPart(url: string, batchId: string, gets: seq<string>): seq<string> {
    GetRequests(url, batchId, gets) + (if |gets| > 0 then [""] else [])
  }

  /** Every line of the body, in push order. */
  function BatchLines(url: string, batchId: string, changeSetId: string, cs: seq<ChangeSet>, gets: seq<string>)
    : seq<string>
  {
    ChangeSetPart(url, batchId, changeSetId, cs) + GetPart(url, batchId, gets) + [BatchBoundary(batchId) + "--"]
  }

  function BatchContentType(batchId: string): string {
    "multipart/mixed;boundary=batch_" + batchId
  }

  // ---------------------------------------------------------------------------
  // batchOperation

  /** batchOperation: push the lines in two loops, join them with CRLF and POST them to `$batch`. */
  method BatchOperation(apiConfig: WebApiConfig, batchId: string, changeSetId: string, changeSets: seq<ChangeSet>,
                        batchGets: seq<string>, queryOptions: Option<QueryOptions>) returns (r: RequestConfig)
    ensures r.httpMethod == "POST" && r.queryString == "$batch"
    ensures r.contentType == BatchContentType(batchId)
    ensures r.apiConfig == apiConfig && r.queryOptions == queryOptions
    ensures r.body == Some(Multipart(Join(BatchLines(apiConfig.url, batchId, changeSetId, changeSets, batchGets), CrLf)))
  {
    var body := PushChangeSet(apiConfig.url, batchId, changeSetId, changeSets);
    body := PushReads(body, apiConfig.url, batchId, batchGets);
    body := body + [BatchBoundary(batchId) + "--"];

    r := RequestConfig("POST", BatchContentType(batchId), "$batch", Some(Multipart(Join(body, CrLf))),
      apiConfig, queryOptions);
  }

  /** The first half of batchOperation: the change set, framed, with one entry per change set. */
  method PushChangeSet(url: string, batchId: string, changeSetId: string, changeSets: seq<ChangeSet>)
    returns (body: seq<string>)
    ensures body == ChangeSetPart(url, batchId, changeSetId, changeSets)
  {
    body := [];

    if |changeSets| > 0 {
      body := body + [BatchBoundary(batchId)];
      body := body + [ChangeSetContentType(changeSetId)];
      body := body + [""];
    }

    var i := 0;
    while i < |changeSets|
      invariant 0 <= i <= |changeSets|
      invariant body == (if |changeSets| > 0 then ChangeSetOpening(batchId, changeSetId) else [])
        + ChangeSetEntries(url, changeSetId, changeSets[..i])
    {
      assert changeSets[..i + 1][..i] == changeSets[..i];
      body := body + [
        ChangeSetBoundary(changeSetId),
        HttpPartType,
        BinaryEncoding,
        ContentId(i),
        "",
        RequestLine(changeSets[i].httpMethod, url, changeSets[i].queryString),
        EntryType,
        "",
        changeSets[i].entity];
      i := i + 1;
    }
    assert changeSets[..|changeSets|] == changeSets;

    if |changeSets| > 0 {
      body := body + [ChangeSetBoundary(changeSetId) + "--"];
      body := body + [""];
    }
  }

  /** The second half of batchOperation: one seven-line GET part per read, then one blank line if there was any. */
  method PushReads(body0: seq<string>, url: string, batchId: string, batchGets: seq<string>)
    returns (body: seq<string>)
    ensures body == body0 + GetPart(url, batchId, batchGets)
  {
    body := body0;
    var j := 0;
    while j < |batchGets|
      invariant 0 <= j <= |batchGets|
      invariant body == body0 + GetRequests(url, batchId, batchGets[..j])
    {
      assert batchGets[..j + 1][..j] == batchGets[..j];
      var get := batchGets[j];
      body := body + [
        BatchBoundary(batchId),
        HttpPartType,
        BinaryEncoding,
        "",
        RequestLine("GET", url, get),
        AcceptJson,
        ""];
      j := j + 1;
    }
    assert batchGets[..|batchGets|] == batchGets;

    ghost var readLines := GetRequests(url, batchId, batchGets);
    if |batchGets| > 0 {
      body := body + [""];
      assert body == body0 + (readLines + [""]);
    }
  }

  // ---------------------------------------------------------------------------
  // Layout of the lines

  lemma {:induction false} ChangeSetEntriesLength(url: string, changeSetId: string, cs: seq<ChangeSet>)
    ensures |ChangeSetEntries(url, changeSetId, cs)| == 9 * |cs|
    decreases |cs|
  {
    if |cs| > 0 {
      ChangeSetEntriesLength(url, changeSetId, cs[..|cs| - 1]);
    }
  }

  /** Line `k` of entry `i` sits at `9 * i + k`: entries keep input order and each carries Content-ID `i + 1`. */
  lemma {:induction false} ChangeSetEntryAt(url: string, changeSetId: string, cs: seq<ChangeSet>, i: nat, k: nat)
    requires i < |cs| && k < 9
    ensures 9 * i + k < |ChangeSetEntries(url, changeSetId, cs)|
    ensures ChangeSetEntries(url, changeSetId, cs)[9 * i + k] == ChangeSetEntry(url, changeSetId, cs[i], i)[k]
    decreases |cs|
  {
    var n := |cs| - 1;
    var init := cs[..n];
    var prefix := ChangeSetEntries(url, changeSetId, init);
    ChangeSetEntriesLength(url, changeSetId, init);
    assert ChangeSetEntries(url, changeSetId, cs) == prefix + ChangeSetEntry(url, changeSetId, cs[n], n);
    if i < n {
      ChangeSetEntryAt(url, changeSetId, init, i, k);
      assert init[i] == cs[i];
    } else {
      assert 9 * i + k - |prefix| == k;
    }
  }

  lemma {:induction false} GetRequestsLength(url: string, batchId: string, gets: seq<string>)
    ensures |GetRequests(url, batchId, gets)| == 7 * |gets|
    decreases |gets|
  {
    if |gets| > 0 {
      GetRequestsLength(url, batchId, gets[..|gets| - 1]);
    }
  }

  /** Line `k` of read `j` sits at `7 * j + k`, in input order. */
  lemma {:induction false} GetRequestAt(url: string, batchId: string, gets: seq<string>, j: nat, k: nat)
    requires j < |gets| && k < 7
    ensures 7 * j + k < |GetRequests(url, batchId, gets)|
    ensures GetRequests(url, batchId, gets)[7 * j + k] == GetRequest(url, batchId, gets[j])[k]
    decreases |gets|
  {
    var n := |gets| - 1;
    var init := gets[..n];
    var prefix := GetRequests(url, batchId, init);
    GetRequestsLength(url, batchId, init);
    assert GetRequests(url, batchId, gets) == prefix + GetRequest(url, batchId, gets[n]);
    if j < n {
      GetRequestAt(url, batchId, init, j, k);
      assert init[j] == gets[j];
    } else {
      assert 7 * j + k - |prefix| == k;
    }
  }

  /** Lines before the first read: the framed change set, or none. */
  function ChangeSetLines(cs: seq<ChangeSet>): nat {
    if |cs| > 0 then 5 + 9 * |cs| else 0
  }

  lemma BatchLineCount(url: string, batchId: string, changeSetId: string, cs: seq<ChangeSet>, gets: seq<string>)
    ensures |ChangeSetPart(url, batchId, changeSetId, cs)| == ChangeSetLines(cs)
    ensures |BatchLines(url, batchId, changeSetId, cs, gets)| ==
      ChangeSetLines(cs) + 7 * |gets| + (if |gets| > 0 then 1 else 0) + 1
  {
    ChangeSetEntriesLength(url, changeSetId, cs);
    GetRequestsLength(url, batchId, gets);
  }

  /**
   * The change set wrapper is there exactly when there are change sets: the
   * second line is the change set content type if and only if `cs` is non-empty,
   * and then the entries are followed by the closing boundary and a blank line.
   */
  lemma ChangeSetFraming(url: string, batchId: string, changeSetId: string, cs: seq<ChangeSet>, gets: seq<string>)
    ensures |cs| > 0 <==>
      (|BatchLines(url, batchId, changeSetId, cs, gets)| > 1 &&
       BatchLines(url, batchId, changeSetId, cs, gets)[1] == ChangeSetContentType(changeSetId))
    ensures |cs| > 0 ==> 4 + 9 * |cs| < |BatchLines(url, batchId, changeSetId, cs, gets)|
    ensures |cs| > 0 ==>
      BatchLines(url, batchId, changeSetId, cs, gets)[..3] == ChangeSetOpening(batchId, changeSetId) &&
      BatchLines(url, batchId, changeSetId, cs, gets)[3 + 9 * |cs|] == ChangeSetBoundary(changeSetId) + "--" &&
      BatchLines(url, batchId, changeSetId, cs, gets)[4 + 9 * |cs|] == ""
  {
    var lines := BatchLines(url, batchId, changeSetId, cs, gets);
    BatchLineCount(url, batchId, changeSetId, cs, gets);
    ChangeSetEntriesLength(url, changeSetId, cs);
    if |cs| == 0 && |gets| > 0 {
      GetRequestAt(url, batchId, gets, 0, 1);
      assert lines[1] == "Content-Type: application/http";
      assert lines[1][14] != ChangeSetContentType(changeSetId)[14];
    }
  }

  /** Line `k` of change set entry `i` is line `3 + 9 * i + k` of the body. */
  lemma ChangeSetLineAt(url: string, batchId: string, changeSetId: string, cs: seq<ChangeSet>, gets: seq<string>,
                        i: nat, k: nat)
    requires i < |cs| && k < 9
    ensures 3 + 9 * i + k < |BatchLines(url, batchId, changeSetId, cs, gets)|
    ensures BatchLines(url, batchId, changeSetId, cs, gets)[3 + 9 * i + k] == ChangeSetEntry(url, changeSetId, cs[i], i)[k]
  {
    BatchLineCount(url, batchId, changeSetId, cs, gets);
    ChangeSetEntriesLength(url, changeSetId, cs);
    var entries := ChangeSetEntries(url, changeSetId, cs);
    ChangeSetEntryAt(url, changeSetId, cs, i, k);
    var lines := BatchLines(url, batchId, changeSetId, cs, gets);
    var csp := ChangeSetPart(url, batchId, changeSetId, cs);
    assert csp == ChangeSetOpening(batchId, changeSetId) + entries + ChangeSetClosing(changeSetId);
    assert csp[3 + 9 * i + k] == entries[9 * i + k];
    assert lines[3 + 9 * i + k] == csp[3 + 9 * i + k];
  }

  /** The lines of change set entry `i`: its boundary, Content-ID `i + 1`, its own method and path under the url, and its entity. */
  lemma ChangeSetEntryLines(url: string, batchId: string, changeSetId: string, cs: seq<ChangeSet>, gets: seq<string>,
                            i: nat)
    requires i < |cs|
    ensures 3 + 9 * i + 8 < |BatchLines(url, batchId, changeSetId, cs, gets)|
    ensures BatchLines(url, batchId, changeSetId, cs, gets)[3 + 9 * i] == ChangeSetBoundary(changeSetId)
    ensures BatchLines(url, batchId, changeSetId, cs, gets)[3 + 9 * i + 3] == "Content-ID: " + NatToString(i + 1)
    ensures BatchLines(url, batchId, changeSetId, cs, gets)[3 + 9 * i + 5] ==
      cs[i].httpMethod + " " + url + "/" + cs[i].queryString + " HTTP/1.1"
    ensures BatchLines(url, batchId, changeSetId, cs, gets)[3 + 9 * i + 8] == cs[i].entity
  {
    ChangeSetLineAt(url, batchId, changeSetId, cs, gets, i, 0);
    ChangeSetLineAt(url, batchId, changeSetId, cs, gets, i, 3);
    ChangeSetLineAt(url, batchId, changeSetId, cs, gets, i, 5);
    ChangeSetLineAt(url, batchId, changeSetId, cs, gets, i, 8);
  }

  /** Line `k` of read `j` is line `ChangeSetLines(cs) + 7 * j + k` of the body. */
  lemma GetLineAt(url: string, batchId: string, changeSetId: string, cs: seq<ChangeSet>, gets: seq<string>,
                  j: nat, k: nat)
    requires j < |gets| && k < 7
    ensures ChangeSetLines(cs) + 7 * j + k < |BatchLines(url, batchId, changeSetId, cs, gets)|
    ensures BatchLines(url, batchId, changeSetId, cs, gets)[ChangeSetLines(cs) + 7 * j + k] ==
      GetRequest(url, batchId, gets[j])[k]
  {
    BatchLineCount(url, batchId, changeSetId, cs, gets);
    GetRequestsLength(url, batchId, gets);
    GetRequestAt(url, batchId, gets, j, k);
    var lines := BatchLines(url, batchId, changeSetId, cs, gets);
    var o := ChangeSetLines(cs);
    var readLines := GetRequests(url, batchId, gets);
    var gp := GetPart(url, batchId, gets);
    assert gp[7 * j + k] == readLines[7 * j + k];
    assert lines[o + 7 * j + k] == gp[7 * j + k];
  }

  lemma GetRequestLine(url: string, path: string)
    ensures RequestLine("GET", url, path) == "GET " + url + "/" + path + " HTTP/1.1"
  {
    assert "GET" + " " == "GET ";
  }

  /** The lines of read `j`: its batch boundary, `GET <url>/<path>`, the Accept line and a blank line. */
  lemma GetRequestLines(url: string, batchId: string, changeSetId: string, cs: seq<ChangeSet>, gets: seq<string>,
                        j: nat)
    requires j < |gets|
    ensures ChangeSetLines(cs) + 7 * j + 6 < |BatchLines(url, batchId, changeSetId, cs, gets)|
    ensures BatchLines(url, batchId, changeSetId, cs, gets)[ChangeSetLines(cs) + 7 * j] == BatchBoundary(batchId)
    ensures BatchLines(url, batchId, changeSetId, cs, gets)[ChangeSetLines(cs) + 7 * j + 4] ==
      "GET " + url + "/" + gets[j] + " HTTP/1.1"
    ensures BatchLines(url, batchId, changeSetId, cs, gets)[ChangeSetLines(cs) + 7 * j + 5] == AcceptJson
    ensures BatchLines(url, batchId, changeSetId, cs, gets)[ChangeSetLines(cs) + 7 * j + 6] == ""
  {
    GetLineAt(url, batchId, changeSetId, cs, gets, j, 0);
    GetLineAt(url, batchId, changeSetId, cs, gets, j, 4);
    GetRequestLine(url, gets[j]);
    GetLineAt(url, batchId, changeSetId, cs, gets, j, 5);
    GetLineAt(url, batchId, changeSetId, cs, gets, j, 6);
  }

  /** After the readLines comes one blank line when there is any read, and the last line is always the closing batch boundary. */
  lemma BatchClosing(url: string, batchId: string, changeSetId: string, cs: seq<ChangeSet>, gets: seq<string>)
    ensures |BatchLines(url, batchId, changeSetId, cs, gets)| > ChangeSetLines(cs) + 7 * |gets|
    ensures BatchLines(url, batchId, changeSetId, cs, gets)[|BatchLines(url, batchId, changeSetId, cs, gets)| - 1]
      == "--batch_" + batchId + "--"
    ensures |gets| > 0 ==>
      BatchLines(url, batchId, changeSetId, cs, gets)[ChangeSetLines(cs) + 7 * |gets|] == ""
  {
    BatchLineCount(url, batchId, changeSetId, cs, gets);
    GetRequestsLength(url, batchId, gets);
  }

  // ---------------------------------------------------------------------------
  // Splitting the body back into lines

  predicate LinesWithoutCr(lines: seq<string>) {
    forall i :: 0 <= i < |lines| ==> NoCarriageReturn(lines[i])
  }

  lemma LinesWithoutCrAppend(a: seq<string>, b: seq<string>)
    requires LinesWithoutCr(a) && LinesWithoutCr(b)
    ensures LinesWithoutCr(a + b)
  {
    forall i | 0 <= i < |a + b|
      ensures NoCarriageReturn((a + b)[i])
    {
      if i >= |a| {
        assert (a + b)[i] == b[i - |a|];
      }
    }
  }

  lemma RequestLineWithoutCr(httpMethod: string, url: string, path: string)
    requires NoCarriageReturn(httpMethod) && NoCarriageReturn(url) && NoCarriageReturn(path)
    ensures NoCarriageReturn(RequestLine(httpMethod, url, path))
  {
    ConcatWithoutCr(httpMethod, " ");
    ConcatWithoutCr(httpMethod + " ", url);
    ConcatWithoutCr(httpMethod + " " + url, "/");
    ConcatWithoutCr(httpMethod + " " + url + "/", path);
    ConcatWithoutCr(httpMethod + " " + url + "/" + path, " HTTP/1.1");
  }

  /** The inputs that end up inside lines hold no carriage return. */
  predicate InputsWithoutCr(url: string, batchId: string, changeSetId: string, cs: seq<ChangeSet>, gets: seq<string>) {
    NoCarriageReturn(url) && NoCarriageReturn(batchId) && NoCarriageReturn(changeSetId) &&
    (forall i :: 0 <= i < |cs| ==>
      NoCarriageReturn(cs[i].httpMethod) && NoCarriageReturn(cs[i].queryString) && NoCarriageReturn(cs[i].entity)) &&
    (forall j :: 0 <= j < |gets| ==> NoCarriageReturn(gets[j]))
  }

  lemma ChangeSetEntryWithoutCr(url: string, changeSetId: string, c: ChangeSet, i: nat)
    requires NoCarriageReturn(url) && NoCarriageReturn(changeSetId)
    requires NoCarriageReturn(c.httpMethod) && NoCarriageReturn(c.queryString) && NoCarriageReturn(c.entity)
    ensures LinesWithoutCr(ChangeSetEntry(url, changeSetId, c, i))
  {
    FramingWithoutCr();
    ConcatWithoutCr("--changeset_", changeSetId);
    ConcatWithoutCr("Content-ID: ", NatToString(i + 1));
    RequestLineWithoutCr(c.httpMethod, url, c.queryString);
    FixedLinesWithoutCr();
  }

  lemma {:induction false} ChangeSetEntriesWithoutCr(url: string, changeSetId: string, cs: seq<ChangeSet>)
    requires NoCarriageReturn(url) && NoCarriageReturn(changeSetId)
    requires forall i :: 0 <= i < |cs| ==>
      NoCarriageReturn(cs[i].httpMethod) && NoCarriageReturn(cs[i].queryString) && NoCarriageReturn(cs[i].entity)
    ensures LinesWithoutCr(ChangeSetEntries(url, changeSetId, cs))
    decreases |cs|
  {
    if |cs| > 0 {
      var n := |cs| - 1;
      var c := cs[n];
      ChangeSetEntriesWithoutCr(url, changeSetId, cs[..n]);
      ChangeSetEntryWithoutCr(url, changeSetId, c, n);
      LinesWithoutCrAppend(ChangeSetEntries(url, changeSetId, cs[..n]), ChangeSetEntry(url, changeSetId, c, n));
    }
  }

  lemma GetRequestWithoutCr(url: string, batchId: string, get: string)
    requires NoCarriageReturn(url) && NoCarriageReturn(batchId) && NoCarriageReturn(get)
    ensures LinesWithoutCr(GetRequest(url, batchId, get))
  {
    FramingWithoutCr();
    ConcatWithoutCr("--batch_", batchId);
    RequestLineWithoutCr("GET", url, get);
    FixedLinesWithoutCr();
  }

  lemma {:induction false} GetRequestsWithoutCr(url: string, batchId: string, gets: seq<string>)
    requires NoCarriageReturn(url) && NoCarriageReturn(batchId)
    requires forall j :: 0 <= j < |gets| ==> NoCarriageReturn(gets[j])
    ensures LinesWithoutCr(GetRequests(url, batchId, gets))
    decreases |gets|
  {
    if |gets| > 0 {
      var n := |gets| - 1;
      GetRequestsWithoutCr(url, batchId, gets[..n]);
      GetRequestWithoutCr(url, batchId, gets[n]);
      LinesWithoutCrAppend(GetRequests(url, batchId, gets[..n]), GetRequest(url, batchId, gets[n]));
    }
  }

  /**
   * When no input holds a carriage return, splitting the body at CRLF gives
   * back exactly the lines, so every entry and read can be read back at the
   * positions the layout lemmas give.
   */
  lemma BatchBodyRoundTrip(url: string, batchId: string, changeSetId: string, cs: seq<ChangeSet>, gets: seq<string>)
    requires InputsWithoutCr(url, batchId, changeSetId, cs, gets)
    ensures SplitLines(Join(BatchLines(url, batchId, changeSetId, cs, gets), CrLf)) ==
      BatchLines(url, batchId, changeSetId, cs, gets)
  {
    ChangeSetPartWithoutCr(url, batchId, changeSetId, cs);
    GetPartWithoutCr(url, batchId, gets);
    FramingWithoutCr();
    ConcatWithoutCr("--batch_", batchId);
    ConcatWithoutCr("--batch_" + batchId, "--");
    LinesWithoutCrAppend(ChangeSetPart(url, batchId, changeSetId, cs), GetPart(url, batchId, gets));
    LinesWithoutCrAppend(ChangeSetPart(url, batchId, changeSetId, cs) + GetPart(url, batchId, gets),
      [BatchBoundary(batchId) + "--"]);
    SplitJoin(BatchLines(url, batchId, changeSetId, cs, gets));
  }

  lemma ChangeSetPartWithoutCr(url: string, batchId: string, changeSetId: string, cs: seq<ChangeSet>)
    requires NoCarriageReturn(url) && NoCarriageReturn(batchId) && NoCarriageReturn(changeSetId)
    requires forall i :: 0 <= i < |cs| ==>
      NoCarriageReturn(cs[i].httpMethod) && NoCarriageReturn(cs[i].queryString) && NoCarriageReturn(cs[i].entity)
    ensures LinesWithoutCr(ChangeSetPart(url, batchId, changeSetId, cs))
  {
    if |cs| > 0 {
      FramingWithoutCr();
      ConcatWithoutCr("--batch_", batchId);
      ConcatWithoutCr("--changeset_", changeSetId);
      ConcatWithoutCr("--changeset_" + changeSetId, "--");
      ConcatWithoutCr(ChangeSetTypePrefix, changeSetId);
      var opening := ChangeSetOpening(batchId, changeSetId);
      var entries := ChangeSetEntries(url, changeSetId, cs);
      ChangeSetEntriesWithoutCr(url, changeSetId, cs);
      assert LinesWithoutCr(opening);
      LinesWithoutCrAppend(opening, entries);
      LinesWithoutCrAppend(opening + entries, ChangeSetClosing(changeSetId));
    }
  }

  lemma GetPartWithoutCr(url: string, batchId: string, gets: seq<string>)
    requires NoCarriageReturn(url) && NoCarriageReturn(batchId)
    requires forall j :: 0 <= j < |gets| ==> NoCarriageReturn(gets[j])
    ensures LinesWithoutCr(GetPart(url, batchId, gets))
  {
    GetRequestsWithoutCr(url, batchId, gets);
    LinesWithoutCrAppend(GetRequests(url, batchId, gets), if |gets| > 0 then [""] else []);
  }

  /** One change set entry and one read: the body has 5 + 9 + 7 + 1 + 1 lines, framed as described. */
  lemma BatchScenario(url: string)
    ensures var lines := BatchLines(url, "B1", "C1", [ChangeSet("POST", "accounts", "{\"name\":\"A\"}")],
                                    ["accounts?$select=name"]);
      |lines| == 23 &&
      lines[0] == "--batch_B1" &&
      lines[3] == "--changeset_C1" &&
      lines[6] == "Content-ID: 1" &&
      lines[8] == "POST " + url + "/accounts HTTP/1.1" &&
      lines[12] == "--changeset_C1--" &&
      lines[14] == "--batch_B1" &&
      lines[18] == "GET " + url + "/accounts?$select=name HTTP/1.1" &&
      lines[22] == "--batch_B1--"
  {
    var cs := [ChangeSet("POST", "accounts", "{\"name\":\"A\"}")];
    var gets := ["accounts?$select=name"];
    ScenarioChangeSet(url, cs, gets);
    ScenarioRead(url, cs, gets);
  }

  /** The change set half of the scenario. */
  lemma ScenarioChangeSet(url: string, cs: seq<ChangeSet>, gets: seq<string>)
    requires |cs| == 1 && cs[0] == ChangeSet("POST", "accounts", "{\"name\":\"A\"}") && |gets| == 1
    ensures var lines := BatchLines(url, "B1", "C1", cs, gets);
      |lines| == 23 &&
      lines[0] == "--batch_B1" &&
      lines[3] == "--changeset_C1" &&
      lines[6] == "Content-ID: 1" &&
      lines[8] == "POST " + url + "/accounts HTTP/1.1" &&
      lines[12] == "--changeset_C1--"
  {
    var lines := BatchLines(url, "B1", "C1", cs, gets);
    BatchLineCount(url, "B1", "C1", cs, gets);
    ChangeSetFraming(url, "B1", "C1", cs, gets);
    assert lines[..3] == ChangeSetOpening("B1", "C1");
    assert lines[0] == "--batch_B1";
    ChangeSetEntryLines(url, "B1", "C1", cs, gets, 0);
    assert NatToString(1) == "1";
    assert lines[6] == "Content-ID: 1";
    ConcatAssociative("POST " + url, "/", cs[0].queryString);
    assert lines[8] == "POST " + url + "/accounts HTTP/1.1";
    assert lines[12] == "--changeset_C1--";
  }

  /** The read half of the scenario. */
  lemma ScenarioRead(url: string, cs: seq<ChangeSet>, gets: seq<string>)
    requires |cs| == 1 && |gets| == 1 && gets[0] == "accounts?$select=name"
    ensures var lines := BatchLines(url, "B1", "C1", cs, gets);
      |lines| == 23 &&
      lines[14] == "--batch_B1" &&
      lines[18] == "GET " + url + "/accounts?$select=name HTTP/1.1" &&
      lines[22] == "--batch_B1--"
  {
    var lines := BatchLines(url, "B1", "C1", cs, gets);
    BatchLineCount(url, "B1", "C1", cs, gets);
    assert ChangeSetLines(cs) == 14;
    GetRequestLines(url, "B1", "C1", cs, gets, 0);
    ConcatAssociative("GET " + url, "/", gets[0]);
    assert lines[18] == "GET " + url + "/accounts?$select=name HTTP/1.1";
    BatchClosing(url, "B1", "C1", cs, gets);
    assert lines[22] == "--batch_B1--";
  }
}

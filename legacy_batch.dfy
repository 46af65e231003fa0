/**
 * The lines of the $batch body of dist/xrm-webapi.js. The framing is that of
 * src/webapi.ts (module WebApiBatch), but every change set entry is a POST to
 * the full client url whatever its method, and a read is six lines with no
 * blank line of its own.
 */
module LegacyBatch {
  import opened Text
  import opened Models
  import opened WebApiBatch

  /** The nine lines of change set entry `i`; `root` is the versioned service root. */
  function Entry(root: string, changeSetId: string, c: ChangeSet, i: nat): (r: seq<string>)
    ensures |r| == 9
  {
    [ChangeSetBoundary(changeSetId),
     HttpPartType,
     BinaryEncoding,
     ContentId(i),
     "",
     "POST " + (root + c.queryString) + " HTTP/1.1",
     EntryType,
     "",
     c.entity]
  }

  function Entries(root: string, changeSetId: string, cs: seq<ChangeSet>): seq<string>
    decreases |cs|
  {
    if |cs| == 0 then []
    else Entries(root, changeSetId, cs[..|cs| - 1]) + Entry(root, changeSetId, cs[|cs| - 1], |cs| - 1)
  }

  /** The six lines of one read. */
  function Get(root: string, batchId: string, get: string): (r: seq<string>)
    ensures |r| == 6
  {
    [BatchBoundary(batchId),
     HttpPartType,
     BinaryEncoding,
     "",
     "GET " + (root + get) + " HTTP/1.1",
     AcceptJson]
  }

  function Gets(root: string, batchId: string, gets: seq<string>): seq<string>
    decreases |gets|
  {
    if |gets| == 0 then []
    else Gets(root, batchId, gets[..|gets| - 1]) + Get(root, batchId, gets[|gets| - 1])
  }

  function ChangeSetPart(root: string, batchId: string, changeSetId: string, cs: seq<ChangeSet>): seq<string> {
    if |cs| > 0 then ChangeSetOpening(batchId, changeSetId) + Entries(root, changeSetId, cs) + ChangeSetClosing(changeSetId)
    else []
  }

  function GetPart(root: string, batchId: string, gets: seq<string>): seq<string> {
    Gets(root, batchId, gets) + (if |gets| > 0 then [""] else [])
  }

  /** Every line of the body, in push order. */
  function BatchLines(root: string, batchId: string, changeSetId: string, cs: seq<ChangeSet>, gets: seq<string>)
    : seq<string>
  {
    ChangeSetPart(root, batchId, changeSetId, cs) + GetPart(root, batchId, gets) + [BatchBoundary(batchId) + "--"]
  }

  // ---------------------------------------------------------------------------
  // Layout of the lines

  lemma {:induction false} EntriesLength(root: string, changeSetId: string, cs: seq<ChangeSet>)
    ensures |Entries(root, changeSetId, cs)| == 9 * |cs|
    decreases |cs|
  {
    if |cs| > 0 {
      EntriesLength(root, changeSetId, cs[..|cs| - 1]);
    }
  }

  lemma {:induction false} EntryAt(root: string, changeSetId: string, cs: seq<ChangeSet>, i: nat, k: nat)
    requires i < |cs| && k < 9
    ensures 9 * i + k < |Entries(root, changeSetId, cs)|
    ensures Entries(root, changeSetId, cs)[9 * i + k] == Entry(root, changeSetId, cs[i], i)[k]
    decreases |cs|
  {
    var n := |cs| - 1;
    var init := cs[..n];
    var prefix := Entries(root, changeSetId, init);
    EntriesLength(root, changeSetId, init);
    assert Entries(root, changeSetId, cs) == prefix + Entry(root, changeSetId, cs[n], n);
    if i < n {
      EntryAt(root, changeSetId, init, i, k);
      assert init[i] == cs[i];
    } else {
      assert 9 * i + k - |prefix| == k;
    }
  }

  lemma {:induction false} GetsLength(root: string, batchId: string, gets: seq<string>)
    ensures |Gets(root, batchId, gets)| == 6 * |gets|
    decreases |gets|
  {
    if |gets| > 0 {
      GetsLength(root, batchId, gets[..|gets| - 1]);
    }
  }

  lemma {:induction false} GetAt(root: string, batchId: string, gets: seq<string>, j: nat, k: nat)
    requires j < |gets| && k < 6
    ensures 6 * j + k < |Gets(root, batchId, gets)|
    ensures Gets(root, batchId, gets)[6 * j + k] == Get(root, batchId, gets[j])[k]
    decreases |gets|
  {
    var n := |gets| - 1;
    var init := gets[..n];
    var prefix := Gets(root, batchId, init);
    GetsLength(root, batchId, init);
    assert Gets(root, batchId, gets) == prefix + Get(root, batchId, gets[n]);
    if j < n {
      GetAt(root, batchId, init, j, k);
      assert init[j] == gets[j];
    } else {
      assert 6 * j + k - |prefix| == k;
    }
  }

  lemma LineCount(root: string, batchId: string, changeSetId: string, cs: seq<ChangeSet>, gets: seq<string>)
    ensures |ChangeSetPart(root, batchId, changeSetId, cs)| == ChangeSetLines(cs)
    ensures |BatchLines(root, batchId, changeSetId, cs, gets)| ==
      ChangeSetLines(cs) + 6 * |gets| + (if |gets| > 0 then 1 else 0) + 1
  {
    EntriesLength(root, changeSetId, cs);
    GetsLength(root, batchId, gets);
  }

  /** Line `k` of change set entry `i` is line `3 + 9 * i + k` of the body. */
  lemma EntryLineAt(root: string, batchId: string, changeSetId: string, cs: seq<ChangeSet>, gets: seq<string>,
                    i: nat, k: nat)
    requires i < |cs| && k < 9
    ensures 3 + 9 * i + k < |BatchLines(root, batchId, changeSetId, cs, gets)|
    ensures BatchLines(root, batchId, changeSetId, cs, gets)[3 + 9 * i + k] == Entry(root, changeSetId, cs[i], i)[k]
  {
    LineCount(root, batchId, changeSetId, cs, gets);
    EntriesLength(root, changeSetId, cs);
    var entries := Entries(root, changeSetId, cs);
    EntryAt(root, changeSetId, cs, i, k);
    var lines := BatchLines(root, batchId, changeSetId, cs, gets);
    var csp := ChangeSetPart(root, batchId, changeSetId, cs);
    assert csp == ChangeSetOpening(batchId, changeSetId) + entries + ChangeSetClosing(changeSetId);
    assert csp[3 + 9 * i + k] == entries[9 * i + k];
    assert lines[3 + 9 * i + k] == csp[3 + 9 * i + k];
  }

  /**
   * Change set entry `i` carries Content-ID `i + 1` and is a POST to the
   * service root and its path, whatever method the change set names.
   */
  lemma EntryLines(root: string, batchId: string, changeSetId: string, cs: seq<ChangeSet>, gets: seq<string>, i: nat)
    requires i < |cs|
    ensures 3 + 9 * i + 8 < |BatchLines(root, batchId, changeSetId, cs, gets)|
    ensures BatchLines(root, batchId, changeSetId, cs, gets)[3 + 9 * i] == ChangeSetBoundary(changeSetId)
    ensures BatchLines(root, batchId, changeSetId, cs, gets)[3 + 9 * i + 3] == "Content-ID: " + NatToString(i + 1)
    ensures BatchLines(root, batchId, changeSetId, cs, gets)[3 + 9 * i + 5] ==
      "POST " + root + cs[i].queryString + " HTTP/1.1"
    ensures BatchLines(root, batchId, changeSetId, cs, gets)[3 + 9 * i + 8] == cs[i].entity
  {
    EntryLineAt(root, batchId, changeSetId, cs, gets, i, 0);
    EntryLineAt(root, batchId, changeSetId, cs, gets, i, 3);
    EntryLineAt(root, batchId, changeSetId, cs, gets, i, 5);
    ConcatAssociative("POST ", root, cs[i].queryString);
    EntryLineAt(root, batchId, changeSetId, cs, gets, i, 8);
  }

  /** Line `k` of read `j` is line `ChangeSetLines(cs) + 6 * j + k` of the body. */
  lemma GetLineAt(root: string, batchId: string, changeSetId: string, cs: seq<ChangeSet>, gets: seq<string>,
                  j: nat, k: nat)
    requires j < |gets| && k < 6
    ensures ChangeSetLines(cs) + 6 * j + k < |BatchLines(root, batchId, changeSetId, cs, gets)|
    ensures BatchLines(root, batchId, changeSetId, cs, gets)[ChangeSetLines(cs) + 6 * j + k] ==
      Get(root, batchId, gets[j])[k]
  {
    LineCount(root, batchId, changeSetId, cs, gets);
    GetsLength(root, batchId, gets);
    GetAt(root, batchId, gets, j, k);
    var lines := BatchLines(root, batchId, changeSetId, cs, gets);
    var o := ChangeSetLines(cs);
    var readLines := Gets(root, batchId, gets);
    var gp := GetPart(root, batchId, gets);
    assert gp[6 * j + k] == readLines[6 * j + k];
    assert lines[o + 6 * j + k] == gp[6 * j + k];
  }

  /**
   * The line after read `j` is the next read's boundary (no blank line in
   * between) or, after the last read, the one blank line.
   */
  lemma AfterGet(root: string, batchId: string, changeSetId: string, cs: seq<ChangeSet>, gets: seq<string>, j: nat)
    requires j < |gets|
    ensures ChangeSetLines(cs) + 6 * j + 6 < |BatchLines(root, batchId, changeSetId, cs, gets)|
    ensures j + 1 < |gets| ==>
      BatchLines(root, batchId, changeSetId, cs, gets)[ChangeSetLines(cs) + 6 * j + 6] == BatchBoundary(batchId)
    ensures j + 1 == |gets| ==> BatchLines(root, batchId, changeSetId, cs, gets)[ChangeSetLines(cs) + 6 * j + 6] == ""
  {
    LineCount(root, batchId, changeSetId, cs, gets);
    if j + 1 < |gets| {
      GetLineAt(root, batchId, changeSetId, cs, gets, j + 1, 0);
      assert ChangeSetLines(cs) + 6 * (j + 1) + 0 == ChangeSetLines(cs) + 6 * j + 6;
    } else {
      var lines := BatchLines(root, batchId, changeSetId, cs, gets);
      GetsLength(root, batchId, gets);
      var gp := GetPart(root, batchId, gets);
      assert gp[6 * |gets|] == "";
      assert lines[ChangeSetLines(cs) + 6 * j + 6] == gp[6 * |gets|];
    }
  }

  /**
   * Read `j` is six lines: its boundary, a GET of the service root and its
   * path, and the Accept line last; what follows is given by AfterGet.
   */
  lemma GetLines(root: string, batchId: string, changeSetId: string, cs: seq<ChangeSet>, gets: seq<string>, j: nat)
    requires j < |gets|
    ensures ChangeSetLines(cs) + 6 * j + 6 < |BatchLines(root, batchId, changeSetId, cs, gets)|
    ensures BatchLines(root, batchId, changeSetId, cs, gets)[ChangeSetLines(cs) + 6 * j] == BatchBoundary(batchId)
    ensures BatchLines(root, batchId, changeSetId, cs, gets)[ChangeSetLines(cs) + 6 * j + 4] ==
      "GET " + root + gets[j] + " HTTP/1.1"
    ensures BatchLines(root, batchId, changeSetId, cs, gets)[ChangeSetLines(cs) + 6 * j + 5] == AcceptJson
    ensures j + 1 < |gets| ==>
      BatchLines(root, batchId, changeSetId, cs, gets)[ChangeSetLines(cs) + 6 * j + 6] == BatchBoundary(batchId)
    ensures j + 1 == |gets| ==> BatchLines(root, batchId, changeSetId, cs, gets)[ChangeSetLines(cs) + 6 * j + 6] == ""
  {
    GetLineAt(root, batchId, changeSetId, cs, gets, j, 0);
    GetLineAt(root, batchId, changeSetId, cs, gets, j, 4);
    ConcatAssociative("GET ", root, gets[j]);
    GetLineAt(root, batchId, changeSetId, cs, gets, j, 5);
    AfterGet(root, batchId, changeSetId, cs, gets, j);
  }

  /** The last line is always the closing batch boundary. */
  lemma LastLine(root: string, batchId: string, changeSetId: string, cs: seq<ChangeSet>, gets: seq<string>)
    ensures |BatchLines(root, batchId, changeSetId, cs, gets)| > 0
    ensures BatchLines(root, batchId, changeSetId, cs, gets)[|BatchLines(root, batchId, changeSetId, cs, gets)| - 1]
      == "--batch_" + batchId + "--"
  {
  }

  // ---------------------------------------------------------------------------
  // Against the current body

  /** A POST entry line of the legacy body is the request line of src/webapi.ts for `url` = root without its slash. */
  lemma PostLineAgrees(url: string, path: string)
    ensures "POST " + ((url + "/") + path) + " HTTP/1.1" == RequestLine("POST", url, path)
  {
    ConcatAssociative(url, "/", path);
    ConcatAssociative("POST ", url + "/", path);
    ConcatAssociative("POST ", url, "/");
    assert "POST" + " " == "POST ";
  }

  /** With only POST change sets, both builds write the same entries. */
  lemma {:induction false} EntriesAgree(url: string, changeSetId: string, cs: seq<ChangeSet>)
    requires forall i :: 0 <= i < |cs| ==> cs[i].httpMethod == "POST"
    ensures Entries(url + "/", changeSetId, cs) == ChangeSetEntries(url, changeSetId, cs)
    decreases |cs|
  {
    if |cs| > 0 {
      var n := |cs| - 1;
      EntriesAgree(url, changeSetId, cs[..n]);
      PostLineAgrees(url, cs[n].queryString);
      assert Entry(url + "/", changeSetId, cs[n], n) == ChangeSetEntry(url, changeSetId, cs[n], n);
    }
  }

  /**
   * A batch of POST change sets and no reads has the same body in both builds,
   * once the legacy service root is the current url followed by `/`.
   */
  lemma WritesOnlyAgree(url: string, batchId: string, changeSetId: string, cs: seq<ChangeSet>)
    requires forall i :: 0 <= i < |cs| ==> cs[i].httpMethod == "POST"
    ensures BatchLines(url + "/", batchId, changeSetId, cs, []) == WebApiBatch.BatchLines(url, batchId, changeSetId, cs, [])
  {
    EntriesAgree(url, changeSetId, cs);
  }

  /** Reads are where the builds part: one read is 6 + 1 lines here and 7 + 1 in src/webapi.ts. */
  lemma ReadsDiffer(root: string, url: string, batchId: string, changeSetId: string, get: string)
    ensures |BatchLines(root, batchId, changeSetId, [], [get])| == 8
    ensures |WebApiBatch.BatchLines(url, batchId, changeSetId, [], [get])| == 9
  {
    LineCount(root, batchId, changeSetId, [], [get]);
    BatchLineCount(url, batchId, changeSetId, [], [get]);
  }
}

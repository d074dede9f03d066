/**
 `find_datasets`: locates the post payloads among the page's embedded
 script blobs and normalises them with parse_thread.
 */
module Datasets {

  import opened Wrappers
  import opened Text
  import opened Json
  import opened NestedLookup
  import opened Threads

  /**
   One embedded script blob: its raw text and what `json.loads` makes of it
   (None where it raises). Parsing is outside the model.
   */
  datatype Blob = Blob(text: string, parsed: Option<Json>)

  const ScheduledMarker: string := "\"ScheduledServerJS\""
  const ThreadItemsKey: string := "thread_items"

  /** The cheap pre-filter: both marker substrings occur in the raw text. */
  predicate MayHoldThreads(text: string) {
    Contains(text, ScheduledMarker) && Contains(text, ThreadItemsKey)
  }

  /**
   `[parse_thread(t) for thread in found for t in thread]`: each found value
   is iterated in turn and its elements parsed before the next one is iterated.
   */
  function Normalise(found: seq<Json>): (r: Result<seq<Thread>, Error>)
    ensures r.Failure? ==> r.error.NotIterable? || RecordError(r.error)
    decreases |found|
  {
    if found == [] then Success([])
    else match Iterate(found[0])
      case None => Failure(NotIterable(found[0]))
      case Some(ts) =>
        MapAllPointwise(ParseThread, ts);
        var head :- MapAll(ParseThread, ts);
        var tail :- Normalise(found[1..]);
        Success(head + tail)
  }

  /** The found values' elements, flattened one level, as Python iterates them. */
  function IterateAll(found: seq<Json>): (r: Option<seq<Json>>)
    ensures r.Some? <==> forall i :: 0 <= i < |found| ==> Iterate(found[i]).Some?
    decreases |found|
  {
    if found == [] then Some([])
    else match Iterate(found[0])
      case None => None
      case Some(ts) =>
        var tail := IterateAll(found[1..]);
        assert forall i :: 1 <= i < |found| ==> found[i] == found[1..][i - 1];
        if tail.None? then None else Some(ts + tail.value)
  }

  /** The number of elements Python visits when iterating every found value. */
  function ElementCount(found: seq<Json>): nat
    decreases |found|
  {
    if found == [] then 0
    else (match Iterate(found[0]) case Some(ts) => |ts| case None => 0) + ElementCount(found[1..])
  }

  lemma {:induction false} IterateAllLength(found: seq<Json>)
    requires IterateAll(found).Some?
    ensures |IterateAll(found).value| == ElementCount(found)
    decreases |found|
  {
    if found != [] {
      IterateAllLength(found[1..]);
    }
  }

  /**
   The interleaved comprehension succeeds exactly when every found value is
   iterable and every element parses, and then it is parse_thread mapped over
   the one-level flattening: one record per element, in order.
   */
  lemma {:induction false} NormaliseIsParseOfFlattening(found: seq<Json>)
    ensures Normalise(found).Success? <==>
              IterateAll(found).Some? && MapAll(ParseThread, IterateAll(found).value).Success?
    ensures Normalise(found).Success? ==>
              Normalise(found).value == MapAll(ParseThread, IterateAll(found).value).value
    decreases |found|
  {
    if found != [] {
      NormaliseIsParseOfFlattening(found[1..]);
      match Iterate(found[0])
      case None =>
      case Some(ts) =>
        if IterateAll(found[1..]).Some? {
          var rest := IterateAll(found[1..]).value;
          MapAllConcat(ParseThread, ts, rest);
        }
    }
  }

  /** The result has one record per element of the found values. */
  lemma NormaliseLength(found: seq<Json>)
    ensures Normalise(found).Success? ==> |Normalise(found).value| == ElementCount(found)
  {
  }

  /** A blob that ends the scan: it passes the filter and either fails to parse or holds matches. */
  predicate Decisive(b: Blob) {
    MayHoldThreads(b.text) && (b.parsed.None? || Lookup(ThreadItemsKey, b.parsed.value) != [])
  }

  /** What the scan returns on reaching a decisive blob. */
  function Verdict(b: Blob): Result<seq<Thread>, Error>
    requires Decisive(b)
  {
    match b.parsed
    case None => Failure(MalformedJson)
    case Some(doc) => Normalise(Lookup(ThreadItemsKey, doc))
  }

  /**
   find_datasets: the blobs in order; those failing the filter are skipped
   unparsed, those whose deep search finds nothing are skipped after
   parsing, and the first one with matches decides the result.
   */
  function FindDatasets(blobs: seq<Blob>): (r: Result<seq<Thread>, Error>)
    ensures (forall i :: 0 <= i < |blobs| ==> !MayHoldThreads(blobs[i].text)) ==> r == Failure(NoThreadData)
    decreases |blobs|
  {
    if blobs == [] then Failure(NoThreadData)
    else
      var b := blobs[0];
      if !Contains(b.text, ScheduledMarker) then FindDatasets(blobs[1..])
      else if !Contains(b.text, ThreadItemsKey) then FindDatasets(blobs[1..])
      else match b.parsed
        case None => Failure(MalformedJson)
        case Some(doc) =>
          var found := Lookup(ThreadItemsKey, doc);
          if found == [] then FindDatasets(blobs[1..]) else Normalise(found)
  }

  /**
   The scan fails with NoThreadData exactly when no blob is decisive, and
   otherwise returns the verdict of the first decisive blob.
   */
  lemma {:induction false} FirstDecisiveBlobDecides(blobs: seq<Blob>)
    ensures FindDatasets(blobs) == Failure(NoThreadData) <==> forall i :: 0 <= i < |blobs| ==> !Decisive(blobs[i])
    ensures forall i :: (0 <= i < |blobs| && Decisive(blobs[i])
                         && forall j :: 0 <= j < i ==> !Decisive(blobs[j])) ==> FindDatasets(blobs) == Verdict(blobs[i])
    decreases |blobs|
  {
    if blobs != [] {
      FirstDecisiveBlobDecides(blobs[1..]);
      assert forall i :: 1 <= i < |blobs| ==> blobs[i] == blobs[1..][i - 1];
    }
  }

  /**
   Blobs that fail the marker filter are never parsed: changing what their
   text would parse to does not change the result.
   */
  lemma {:induction false} SkippedBlobsNeverParsed(blobs: seq<Blob>, others: seq<Blob>)
    requires |blobs| == |others|
    requires forall i :: 0 <= i < |blobs| ==> blobs[i].text == others[i].text
    requires forall i :: 0 <= i < |blobs| && MayHoldThreads(blobs[i].text) ==> blobs[i].parsed == others[i].parsed
    ensures FindDatasets(blobs) == FindDatasets(others)
    decreases |blobs|
  {
    if blobs != [] {
      SkippedBlobsNeverParsed(blobs[1..], others[1..]);
    }
  }

  /** The scan stops at the first decisive blob: blobs after it are never examined. */
  lemma {:induction false} LaterBlobsNotExamined(blobs: seq<Blob>, more: seq<Blob>)
    requires FindDatasets(blobs) != Failure(NoThreadData)
    ensures FindDatasets(blobs + more) == FindDatasets(blobs)
    decreases |blobs|
  {
    assert blobs != [];
    assert (blobs + more)[0] == blobs[0];
    assert (blobs + more)[1..] == blobs[1..] + more;
    var b := blobs[0];
    if !MayHoldThreads(b.text) || (b.parsed.Some? && Lookup(ThreadItemsKey, b.parsed.value) == []) {
      LaterBlobsNotExamined(blobs[1..], more);
    }
  }

  /**
   On success the records are parse_thread of every element of every value
   found under `thread_items` in the first decisive blob, in order, one per element.
   */
  lemma FirstHitRecords(blobs: seq<Blob>, i: nat, doc: Json)
    requires i < |blobs| && Decisive(blobs[i]) && blobs[i].parsed == Some(doc)
    requires forall j :: 0 <= j < i ==> !Decisive(blobs[j])
    requires FindDatasets(blobs).Success?
    ensures var found := Lookup(ThreadItemsKey, doc);
            && found != []
            && IterateAll(found).Some?
            && MapAll(ParseThread, IterateAll(found).value).Success?
            && FindDatasets(blobs).value == MapAll(ParseThread, IterateAll(found).value).value
            && |FindDatasets(blobs).value| == ElementCount(found)
  {
    var found := Lookup(ThreadItemsKey, doc);
    FirstDecisiveBlobDecides(blobs);
    assert FindDatasets(blobs) == Verdict(blobs[i]) == Normalise(found);
    NormaliseFacts(found);
  }

  lemma NormaliseFacts(found: seq<Json>)
    ensures Normalise(found).Success? ==>
              && IterateAll(found).Some? && MapAll(ParseThread, IterateAll(found).value).Success?
              && Normalise(found).value == MapAll(ParseThread, IterateAll(found).value).value
              && |Normalise(found).value| == ElementCount(found)
  {
    NormaliseIsParseOfFlattening(found);
    NormaliseLength(found);
  }

  /** Every value iterates to nothing: each is an empty list, dict or string. */
  predicate AllIterateEmpty(found: seq<Json>) {
    forall i :: 0 <= i < |found| ==> Iterate(found[i]) == Some([])
  }

  /**
   Normalising gives no records, without error, exactly when every found
   value iterates to nothing: an empty list, an empty dict or an empty string.
   */
  lemma {:induction false} NoRecordsFromEmptyValues(found: seq<Json>)
    ensures Normalise(found) == Success([]) <==> AllIterateEmpty(found)
    decreases |found|
  {
    if found != [] {
      NoRecordsFromEmptyValues(found[1..]);
      assert forall i :: 1 <= i < |found| ==> found[i] == found[1..][i - 1];
      match Iterate(found[0])
      case None =>
      case Some(ts) =>
        if ts == [] {
          var empty: seq<Thread> := [];
          assert MapAll(ParseThread, ts) == Success(empty);
          if Normalise(found[1..]).Success? {
            assert Normalise(found) == Success(empty + Normalise(found[1..]).value);
            assert empty + Normalise(found[1..]).value == Normalise(found[1..]).value;
          }
        }
    }
  }

  /**
   When every value the first decisive blob holds under `thread_items`
   iterates to nothing, the scan ends there with no records rather than
   moving on or failing; and only then does it return no records.
   */
  lemma EmptyThreadItemsEndTheScan(blobs: seq<Blob>, i: nat, doc: Json)
    requires i < |blobs| && Decisive(blobs[i]) && blobs[i].parsed == Some(doc)
    requires forall j :: 0 <= j < i ==> !Decisive(blobs[j])
    ensures FindDatasets(blobs) == Success([]) <==> AllIterateEmpty(Lookup(ThreadItemsKey, doc))
  {
    var found := Lookup(ThreadItemsKey, doc);
    FirstDecisiveBlobDecides(blobs);
    assert FindDatasets(blobs) == Verdict(blobs[i]) == Normalise(found);
    NoRecordsFromEmptyValues(found);
  }
}

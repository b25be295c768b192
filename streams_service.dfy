/** The streams service: listing the active streams with their upvote counts,
    most upvoted first or newest first, and creating a stream from a YouTube
    URL. The database is a `StreamStore` object; the YouTube id extractor is a
    function parameter. */
module StreamsService {
  import opened Wrappers
  import opened ErrorConstants
  import opened CustomErrors

  /** An active stream as fetched, with its upvotes and its owner. */
  datatype StreamRow = StreamRow(
    id: string, userId: string, url: string, extractedId: string,
    upvoteIds: seq<string>, ownerEmail: string)

  /** The row spread into a new object with `upvoteCount` added. */
  datatype StreamWithUpvotes = StreamWithUpvotes(row: StreamRow, upvoteCount: int)

  datatype SortOrder = MostUpvoted | Newest

  /** The order used when the caller names none. */
  const DEFAULT_SORT: SortOrder := MostUpvoted

  /** The `map` step: every row with the length of its upvote list. */
  function WithCounts(rows: seq<StreamRow>): (r: seq<StreamWithUpvotes>)
    ensures |r| == |rows|
    ensures forall k :: 0 <= k < |rows| ==> r[k].row == rows[k] && r[k].upvoteCount == |rows[k].upvoteIds|
  {
    if rows == [] then [] else [StreamWithUpvotes(rows[0], |rows[0].upvoteIds|)] + WithCounts(rows[1..])
  }

  predicate CountsMatch(s: seq<StreamWithUpvotes>) {
    forall k :: 0 <= k < |s| ==> s[k].upvoteCount == |s[k].row.upvoteIds|
  }

  predicate SortedByUpvotesDesc(s: seq<StreamWithUpvotes>) {
    forall p, q :: 0 <= p < q < |s| ==> s[p].upvoteCount >= s[q].upvoteCount
  }

  function Reversed<T>(s: seq<T>): (r: seq<T>)
    ensures |r| == |s|
    ensures forall k :: 0 <= k < |s| ==> r[k] == s[|s| - 1 - k]
  {
    if s == [] then [] else Reversed(s[1..]) + [s[0]]
  }

  lemma {:induction false} ReversedKeepsElements<T>(s: seq<T>)
    ensures multiset(Reversed(s)) == multiset(s)
  {
    if s != [] {
      ReversedKeepsElements(s[1..]);
      assert s == [s[0]] + s[1..];
    }
  }

  /** Exchanges `a[j - 1]` and `a[j]`. */
  method SwapDown(a: array<StreamWithUpvotes>, j: int)
    requires 0 < j < a.Length
    modifies a
    ensures a[..] == old(a[..])[j - 1 := old(a[j])][j := old(a[j - 1])]
    ensures multiset(a[..]) == multiset(old(a[..]))
  {
    a[j - 1], a[j] := a[j], a[j - 1];
  }

  /** One pass of the insertion: `a[i]` moves up past every stream with fewer upvotes. */
  method InsertInto(a: array<StreamWithUpvotes>, i: int)
    requires 0 < i < a.Length && SortedByUpvotesDesc(a[..i])
    modifies a
    ensures SortedByUpvotesDesc(a[..i + 1])
    ensures multiset(a[..]) == multiset(old(a[..]))
  {
    var j := i;
    while j > 0 && a[j - 1].upvoteCount < a[j].upvoteCount
      invariant 0 <= j <= i
      invariant forall p, q :: 0 <= p < q <= i && p != j && q != j ==> a[p].upvoteCount >= a[q].upvoteCount
      invariant forall q :: j < q <= i ==> a[j].upvoteCount > a[q].upvoteCount
      invariant multiset(a[..]) == multiset(old(a[..]))
    {
      SwapDown(a, j);
      j := j - 1;
    }
  }

  /** `streams.sort((a, b) => b.upvoteCount - a.upvoteCount)`, in place, by
      insertion with adjacent swaps. */
  method SortByUpvotesDesc(a: array<StreamWithUpvotes>)
    modifies a
    ensures SortedByUpvotesDesc(a[..])
    ensures multiset(a[..]) == multiset(old(a[..]))
  {
    if a.Length == 0 {
      return;
    }
    for i := 1 to a.Length
      invariant SortedByUpvotesDesc(a[..i])
      invariant multiset(a[..]) == multiset(old(a[..]))
    {
      InsertInto(a, i);
    }
  }

  /** `streams.reverse()`, in place. */
  method ReverseInPlace<T>(a: array<T>)
    modifies a
    ensures a[..] == Reversed(old(a[..]))
  {
    var n := a.Length;
    for i := 0 to n / 2
      invariant forall k :: 0 <= k < i ==> a[k] == old(a[n - 1 - k]) && a[n - 1 - k] == old(a[k])
      invariant forall k :: i <= k < n - i ==> a[k] == old(a[k])
    {
      a[i], a[n - 1 - i] := a[n - 1 - i], a[i];
    }
  }

  /** `getStreams` after the fetch: the rows with their counts, most upvoted
      first or in reverse fetch order. */
  method GetStreams(rows: seq<StreamRow>, sort: SortOrder) returns (streams: seq<StreamWithUpvotes>)
    ensures |streams| == |rows|
    ensures CountsMatch(streams)
    ensures multiset(streams) == multiset(WithCounts(rows))
    ensures sort == MostUpvoted ==> SortedByUpvotesDesc(streams)
    ensures sort == Newest ==> streams == Reversed(WithCounts(rows))
  {
    var counted := WithCounts(rows);
    var a := new StreamWithUpvotes[|counted|](k requires 0 <= k < |counted| => counted[k]);
    assert a[..] == counted;
    if sort == MostUpvoted {
      SortByUpvotesDesc(a);
    } else {
      ReverseInPlace(a);
      ReversedKeepsElements(counted);
    }
    streams := a[..];
    assert |multiset(streams)| == |multiset(counted)|;
    forall k | 0 <= k < |streams| ensures streams[k].upvoteCount == |streams[k].row.upvoteIds| {
      assert streams[k] in multiset(counted);
    }
  }

  /** The rows of the example in the service's tests: two upvotes, then one. */
  lemma MostUpvotedExample()
    ensures var rows := [StreamRow("stream-1", "user-1", "", "", ["upvote-1", "upvote-2"], "user1@example.com"),
                         StreamRow("stream-2", "user-2", "", "", ["upvote-3"], "user2@example.com")];
            WithCounts(rows)[0].upvoteCount == 2 && WithCounts(rows)[1].upvoteCount == 1 &&
            SortedByUpvotesDesc(WithCounts(rows))
  {
  }

  /** A stream as created in the database. */
  datatype StreamType = Youtube
  datatype CreatedStream = CreatedStream(id: string, userId: string, url: string, extractedId: string, streamType: StreamType)

  /** The tables `createStream` touches: the known user ids, the streams and,
      in order, the user ids looked up. */
  class StreamStore {
    var users: set<string>
    var streams: seq<CreatedStream>
    var lookups: seq<string>

    constructor(users: set<string>)
      ensures this.users == users && streams == [] && lookups == []
    {
      this.users := users;
      streams := [];
      lookups := [];
    }

    /** `createStream`: a URL without a YouTube id is refused before the user
        is looked up; an unknown creator is refused after it; otherwise one
        stream is added. `newId` is the id the database assigns. */
    method CreateStream(creatorId: string, url: string, extractId: string -> Option<string>, newId: string)
      returns (r: Result<CreatedStream, ApiError>)
      modifies this
      ensures users == old(users)
      ensures var id := extractId(url);
        if id.None? || id.value == "" then
          && r == Failure(NewBusinessLogicError(YoutubeIdExtractionFailed, None, None))
          && streams == old(streams) && lookups == old(lookups)
        else if creatorId !in users then
          && r == Failure(NewNotFoundError(Some(UserNotFound), None, None))
          && streams == old(streams) && lookups == old(lookups) + [creatorId]
        else
          && r == Success(CreatedStream(newId, creatorId, url, id.value, Youtube))
          && streams == old(streams) + [r.value] && lookups == old(lookups) + [creatorId]
    {
      var extractedId := extractId(url);
      if extractedId.None? || extractedId.value == "" {
        return Failure(NewBusinessLogicError(YoutubeIdExtractionFailed, None, None));
      }
      lookups := lookups + [creatorId];
      if creatorId !in users {
        return Failure(NewNotFoundError(Some(UserNotFound), None, None));
      }
      var stream := CreatedStream(newId, creatorId, url, extractedId.value, Youtube);
      streams := streams + [stream];
      return Success(stream);
    }
  }

  /** The two refusals carry the codes and statuses the routes answer with. */
  lemma CreateStreamRefusals()
    ensures NewBusinessLogicError(YoutubeIdExtractionFailed, None, None).statusCode == 400
    ensures NewNotFoundError(Some(UserNotFound), None, None).statusCode == 404
    ensures NewNotFoundError(Some(UserNotFound), None, None).message == "User not found"
  {
  }
}

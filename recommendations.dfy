/** The recommendations route: from the titles of a user's streams it derives
    up to three search terms, queries the search library with each, and keeps
    the first ten distinct videos that are not already among the user's own
    streams. The database rows and the search results are inputs. */
module Recommendations {
  import opened Wrappers
  import opened Text
  import opened ErrorConstants
  import opened CustomErrors

  /** A stream of the user, as fetched. */
  datatype UserStream = UserStream(title: Option<string>, extractedId: string)

  /** `s.slice(0, n)`. */
  function Take<T>(s: seq<T>, n: nat): (r: seq<T>)
    ensures |r| <= n && |r| <= |s|
    ensures r == s[..|r|]
    ensures |s| <= n ==> r == s
    ensures |s| > n ==> |r| == n
  {
    if |s| <= n then s else s[..n]
  }

  predicate NonBlank(title: Option<string>) {
    title.Some? && title.value != "" && Trim(title.value) != ""
  }

  /** `filter(title => title && title.trim() !== "")`, keeping the order. */
  function NonBlankTitlesOf(streams: seq<UserStream>): (titles: seq<string>)
    ensures |titles| <= |streams|
    ensures forall t :: t in titles ==> Trim(t) != ""
  {
    if streams == [] then []
    else (if NonBlank(streams[0].title) then [streams[0].title.value] else []) + NonBlankTitlesOf(streams[1..])
  }

  /** The titles the terms are derived from: the first five non-blank ones. */
  function StreamTitles(streams: seq<UserStream>): (titles: seq<string>)
    ensures |titles| <= 5
    ensures forall t :: t in titles ==> Trim(t) != ""
  {
    Take(NonBlankTitlesOf(streams), 5)
  }

  /** The longest prefix of `s` without whitespace. */
  function FirstWord(s: string): (w: string)
    ensures |w| <= |s| && w == s[..|w|]
    ensures forall c :: c in w ==> !IsWhitespace(c)
    ensures |w| < |s| ==> IsWhitespace(s[|w|])
  {
    if s == [] || IsWhitespace(s[0]) then [] else [s[0]] + FirstWord(s[1..])
  }

  predicate Word(w: string) {
    w != [] && forall c :: c in w ==> !IsWhitespace(c)
  }

  /** `s.split(/\s+/)` without the empty pieces at the ends; the length filter
      that follows drops those pieces in any case. */
  function Tokens(s: string): (words: seq<string>)
    ensures forall w :: w in words ==> Word(w)
    decreases |s|
  {
    var t := TrimStart(s);
    if t == [] then []
    else
      var w := FirstWord(t);
      assert w != [];
      [w] + Tokens(t[|w|..])
  }

  /** The words of a string without capitals have no capitals. */
  lemma {:induction false} TokensOfNoUpperCase(s: string)
    requires NoUpperCase(s)
    ensures forall w :: w in Tokens(s) ==> NoUpperCase(w)
    decreases |s|
  {
    var t := TrimStart(s);
    assert NoUpperCase(t) by {
      forall k | 0 <= k < |t| ensures !('A' <= t[k] <= 'Z') {
        assert t[k] == s[|s| - |t| + k];
      }
    }
    if t != [] {
      var w := FirstWord(t);
      var rest := t[|w|..];
      assert NoUpperCase(w) by {
        forall k | 0 <= k < |w| ensures !('A' <= w[k] <= 'Z') {
          assert w[k] == t[k];
        }
      }
      assert NoUpperCase(rest) by {
        forall k | 0 <= k < |rest| ensures !('A' <= rest[k] <= 'Z') {
          assert rest[k] == t[|w| + k];
        }
      }
      TokensOfNoUpperCase(rest);
      assert Tokens(s) == [w] + Tokens(rest);
    }
  }

  /** The first word of a word followed by whitespace or nothing is that word. */
  lemma {:induction false} FirstWordOfConcat(w: string, rest: string)
    requires forall c :: c in w ==> !IsWhitespace(c)
    requires rest == [] || IsWhitespace(rest[0])
    ensures FirstWord(w + rest) == w
  {
    if w == [] {
      assert w + rest == rest;
    } else {
      assert (w + rest)[0] == w[0];
      assert (w + rest)[1..] == w[1..] + rest;
      FirstWordOfConcat(w[1..], rest);
    }
  }

  lemma TokensOfWordThen(w: string, rest: string)
    requires Word(w)
    requires rest == [] || IsWhitespace(rest[0])
    ensures Tokens(w + rest) == [w] + Tokens(rest)
  {
    assert (w + rest)[0] == w[0];
    TrimStartOfTrimmed(w + rest);
    FirstWordOfConcat(w, rest);
    assert (w + rest)[|w|..] == rest;
  }

  lemma TokensOfSpaceThen(rest: string)
    requires rest == [] || !IsWhitespace(rest[0])
    ensures Tokens(" " + rest) == Tokens(rest)
  {
    assert (" " + rest)[1..] == rest;
    TrimStartOfTrimmed(rest);
    assert TrimStart(" " + rest) == rest;
  }

  /** Words joined with single spaces split back into the same words. */
  lemma {:induction false} TokensOfJoin(words: seq<string>)
    requires forall w :: w in words ==> Word(w)
    ensures Tokens(Join(words, " ")) == words
  {
    if words == [] {
    } else {
      var w := words[0];
      assert Word(w);
      if |words| == 1 {
        assert Join(words, " ") == w + [];
        TokensOfWordThen(w, []);
      } else {
        var tail := words[1..];
        assert forall x :: x in tail ==> Word(x) by {
          forall x | x in tail ensures Word(x) {
            assert x in words;
          }
        }
        var rest := Join(tail, " ");
        JoinSplit(words);
        JoinStartsWithWord(tail);
        calc {
          Tokens(Join(words, " "));
          Tokens(w + (" " + rest));
          { TokensOfWordThen(w, " " + rest); }
          [w] + Tokens(" " + rest);
          { TokensOfSpaceThen(rest); }
          [w] + Tokens(rest);
          { TokensOfJoin(tail); }
          [w] + tail;
          words;
        }
      }
    }
  }

  lemma JoinSplit(words: seq<string>)
    requires |words| > 1
    ensures Join(words, " ") == words[0] + (" " + Join(words[1..], " "))
  {
  }

  lemma {:induction false} JoinStartsWithWord(words: seq<string>)
    requires words != [] && forall w :: w in words ==> Word(w)
    ensures Join(words, " ") != [] && !IsWhitespace(Join(words, " ")[0])
  {
    assert Word(words[0]);
    if |words| > 1 {
      assert Join(words, " ") == words[0] + " " + Join(words[1..], " ");
      assert Join(words, " ")[0] == words[0][0];
    }
  }

  const COMMON_WORDS: seq<string> := [
    "the", "a", "an", "and", "or", "but", "in", "on", "at", "to", "for", "of",
    "with", "by", "from", "video", "official", "music", "song"]

  predicate Qualifies(word: string) {
    |word| > 3 && word !in COMMON_WORDS
  }

  /** `filter(word => word.length > 3 && !commonWords.includes(word))`. */
  function Qualifying(words: seq<string>): (r: seq<string>)
    ensures forall w :: w in r ==> w in words && Qualifies(w)
  {
    if words == [] then []
    else (if Qualifies(words[0]) then [words[0]] else []) + Qualifying(words[1..])
  }

  predicate NoUpperCase(s: string) {
    forall k :: 0 <= k < |s| ==> !('A' <= s[k] <= 'Z')
  }

  /** The words a title contributes: at most four lower-case words, each longer
      than three characters and none of them a common word. */
  function TermWords(title: string): (words: seq<string>)
    ensures |words| <= 4
    ensures forall w :: w in words ==> Word(w) && Qualifies(w) && NoUpperCase(w)
  {
    var lower := ToLower(title);
    assert NoUpperCase(lower);
    var tokens := Tokens(lower);
    var words := Take(Qualifying(tokens), 4);
    assert forall w :: w in words ==> w in tokens && Qualifies(w) by {
      forall w | w in words ensures w in tokens && Qualifies(w) {
        assert w in Qualifying(tokens);
      }
    }
    TokensOfNoUpperCase(lower);
    words
  }

  const FALLBACK_TITLE_LENGTH: nat := 30

  /** The search term of one title: its qualifying words joined with spaces,
      or, with no such word, the title cut to 30 characters. */
  function TermFor(title: string): string {
    var words := TermWords(title);
    if words != [] then Join(words, " ")
    else if |title| > FALLBACK_TITLE_LENGTH then title[..FALLBACK_TITLE_LENGTH]
    else title
  }

  /** A word-based term splits back into exactly the words chosen; a
      fallback term is a prefix of the title of at most 30 characters, and
      the whole title when that is short enough. */
  lemma TermForMeaning(title: string)
    ensures TermWords(title) != [] ==> Tokens(TermFor(title)) == TermWords(title)
    ensures TermWords(title) == [] ==>
      var term := TermFor(title);
      && |term| <= FALLBACK_TITLE_LENGTH && |term| <= |title| && term == title[..|term|]
      && (|title| <= FALLBACK_TITLE_LENGTH ==> term == title)
  {
    var words := TermWords(title);
    if words != [] {
      TokensOfJoin(words);
    }
  }

  const DEFAULT_TERMS: seq<string> := ["popular music", "trending videos", "top videos"]
  const DEFAULT_BASED_ON: seq<string> := ["popular content"]

  /** `f` applied to every element, in order. */
  function MapSeq<A, B>(f: A -> B, s: seq<A>): (r: seq<B>)
    ensures |r| == |s|
    ensures forall k :: 0 <= k < |s| ==> r[k] == f(s[k])
  {
    if s == [] then [] else MapSeq(f, s[..|s| - 1]) + [f(s[|s| - 1])]
  }

  /** One term per title, in order. */
  function TermsOf(titles: seq<string>): (terms: seq<string>) {
    MapSeq(TermFor, titles)
  }

  /** The terms the titles give: one per title, or the defaults when there is none. */
  function DeriveTerms(titles: seq<string>): (terms: seq<string>)
    ensures titles == [] ==> terms == DEFAULT_TERMS
    ensures titles != [] ==> |terms| == |titles| && forall k :: 0 <= k < |titles| ==> terms[k] == TermFor(titles[k])
  {
    if titles == [] then DEFAULT_TERMS else TermsOf(titles)
  }

  /** The titles the terms are said to be based on: never empty, and the
      titles themselves when there are any. */
  function BasedOn(titles: seq<string>): (basedOn: seq<string>)
    ensures basedOn != []
    ensures titles != [] ==> basedOn == titles
  {
    if titles == [] then DEFAULT_BASED_ON else titles
  }

  /** Mapping over a sequence one more element along. */
  lemma MapSeqSnoc<A, B>(f: A -> B, s: seq<A>, i: nat)
    requires i < |s|
    ensures MapSeq(f, s[..i + 1]) == MapSeq(f, s[..i]) + [f(s[i])]
  {
    assert s[..i + 1][..i] == s[..i];
  }

  /** The `forEach` itself: one term per title, computed by `term`, each title
      recorded as a basis. */
  method ForEachTitle(titles: seq<string>, term: string -> string) returns (searchTerms: seq<string>, basedOn: seq<string>)
    ensures searchTerms == MapSeq(term, titles)
    ensures basedOn == titles
  {
    searchTerms := [];
    basedOn := [];
    for i := 0 to |titles|
      invariant basedOn == titles[..i]
      invariant searchTerms == MapSeq(term, titles[..i])
    {
      var title := titles[i];
      var searchTerm := term(title);
      MapSeqSnoc(term, titles, i);
      searchTerms := searchTerms + [searchTerm];
      basedOn := basedOn + [title];
    }
    assert titles[..|titles|] == titles;
  }

  /** The `forEach` over the titles, or, with no title at all, the three
      default terms. */
  method DeriveSearchTerms(titles: seq<string>) returns (searchTerms: seq<string>, basedOn: seq<string>)
    ensures searchTerms == DeriveTerms(titles)
    ensures basedOn == BasedOn(titles)
  {
    if |titles| > 0 {
      searchTerms, basedOn := ForEachTitle(titles, TermFor);
    } else {
      searchTerms := [] + DEFAULT_TERMS;
      basedOn := [] + DEFAULT_BASED_ON;
    }
  }

  /** A search hit as the search library returns it. */
  datatype Item = Item(
    id: string, title: Option<string>, thumbnails: seq<string>,
    channelTitle: Option<string>, duration: Option<string>)

  /** The outcome of one search: it threw, or it returned its list of items. */
  datatype SearchOutcome = Failed | Items(items: seq<Item>)

  datatype Recommendation = Recommendation(
    id: string, title: string, url: string, extractedId: string,
    thumbnail: string, channelTitle: string, duration: string)

  /** `value || fallback` on an optional string. */
  function OrElse(value: Option<string>, fallback: string): string {
    if value.Some? && value.value != "" then value.value else fallback
  }

  const WATCH_URL_PREFIX: string := "https://www.youtube.com/watch?v="

  function ToRecommendation(item: Item): (r: Recommendation)
    ensures r.id == item.id && r.extractedId == item.id && r.url == WATCH_URL_PREFIX + item.id
    ensures r.title != ""
  {
    var thumbnail := if item.thumbnails == [] then "" else item.thumbnails[|item.thumbnails| - 1];
    Recommendation(item.id, OrElse(item.title, "Untitled"), WATCH_URL_PREFIX + item.id, item.id,
                   thumbnail, OrElse(item.channelTitle, ""), OrElse(item.duration, ""))
  }

  function ItemsOf(outcome: SearchOutcome): seq<Item> {
    if outcome.Items? then outcome.items else []
  }

  /** Every item of every search that did not fail, in order. */
  function Flatten(outcomes: seq<SearchOutcome>): seq<Item> {
    if outcomes == [] then []
    else Flatten(outcomes[..|outcomes| - 1]) + ItemsOf(outcomes[|outcomes| - 1])
  }

  lemma {:induction false} FlattenConcat(a: seq<SearchOutcome>, b: seq<SearchOutcome>)
    ensures Flatten(a + b) == Flatten(a) + Flatten(b)
    decreases |b|
  {
    if b == [] {
      assert a + b == a;
    } else {
      var b' := b[..|b| - 1];
      assert (a + b)[..|a + b| - 1] == a + b';
      assert (a + b)[|a + b| - 1] == b[|b| - 1];
      FlattenConcat(a, b');
    }
  }

  /** A search that fails contributes nothing and the later searches are
      still used: the result is as if that search had not been made. */
  lemma {:induction false} FailedSearchIsSkipped(before: seq<SearchOutcome>, after: seq<SearchOutcome>)
    ensures Flatten(before + [Failed] + after) == Flatten(before + after)
  {
    FlattenAppendOne(before, Failed);
    FlattenConcat(before + [Failed], after);
    FlattenConcat(before, after);
  }

  lemma FlattenAppendOne(outcomes: seq<SearchOutcome>, outcome: SearchOutcome)
    ensures Flatten(outcomes + [outcome]) == Flatten(outcomes) + ItemsOf(outcome)
  {
    assert (outcomes + [outcome])[..|outcomes|] == outcomes;
  }

  function IdsOf(recs: seq<Recommendation>): set<string> {
    set r | r in recs :: r.id
  }

  predicate Wanted(item: Item, own: set<string>) {
    item.id != "" && item.id !in own
  }

  /** The recommendations discovered in `items`: each wanted item whose id has
      not been seen before, in discovery order. */
  function Discover(items: seq<Item>, own: set<string>): (recs: seq<Recommendation>)
    ensures |recs| <= |items|
  {
    if items == [] then []
    else
      var prev := Discover(items[..|items| - 1], own);
      var item := items[|items| - 1];
      if !Wanted(item, own) || item.id in IdsOf(prev) then prev
      else prev + [ToRecommendation(item)]
  }

  /** What is discovered has pairwise distinct ids, none of them empty or the user's own. */
  lemma {:induction false} DiscoverDistinct(items: seq<Item>, own: set<string>)
    ensures var recs := Discover(items, own);
      && (forall i, j :: 0 <= i < j < |recs| ==> recs[i].id != recs[j].id)
      && (forall r :: r in recs ==> r.id != "" && r.id !in own)
  {
    if items != [] {
      var prefix := items[..|items| - 1];
      var item := items[|items| - 1];
      DiscoverDistinct(prefix, own);
      var prev := Discover(prefix, own);
      if Wanted(item, own) && item.id !in IdsOf(prev) {
        assert forall i :: 0 <= i < |prev| ==> prev[i].id != item.id by {
          forall i | 0 <= i < |prev| ensures prev[i].id != item.id {
            assert prev[i] in prev;
          }
        }
      }
    }
  }

  /** Each recommendation is built from one of the items. */
  lemma {:induction false} DiscoverFromItems(items: seq<Item>, own: set<string>)
    ensures forall r :: r in Discover(items, own) ==> exists item :: item in items && r == ToRecommendation(item)
  {
    if items != [] {
      var prefix := items[..|items| - 1];
      var item := items[|items| - 1];
      assert items == prefix + [item];
      DiscoverFromItems(prefix, own);
    }
  }

  /** Every wanted item has its id among the recommendations. */
  lemma {:induction false} DiscoverCovers(items: seq<Item>, own: set<string>)
    ensures forall item :: item in items && Wanted(item, own) ==> item.id in IdsOf(Discover(items, own))
  {
    if items != [] {
      var prefix := items[..|items| - 1];
      var item := items[|items| - 1];
      assert items == prefix + [item];
      DiscoverCovers(prefix, own);
      var prev := Discover(prefix, own);
      if Wanted(item, own) && item.id !in IdsOf(prev) {
        assert IdsOf(prev + [ToRecommendation(item)]) == IdsOf(prev) + {item.id};
      }
    }
  }

  const MAX_TERMS: nat := 3
  const MAX_RECOMMENDATIONS: nat := 10
  const MAX_BASED_ON: nat := 3

  /** The search loop: the first three terms are searched in order; each item
      with an id not yet seen and not one of the user's own is kept. `search`
      stands for the search library, called with its cap of 10 results. */
  method CollectRecommendations(searchTerms: seq<string>, search: string -> SearchOutcome, own: set<string>)
    returns (all: seq<Recommendation>, queried: seq<string>)
    ensures queried == Take(searchTerms, MAX_TERMS)
    ensures all == Discover(Flatten(OutcomesOf(queried, search)), own)
  {
    queried := Take(searchTerms, MAX_TERMS);
    ghost var outcomes := OutcomesOf(queried, search);
    all := [];
    var seenVideoIds: set<string> := {};
    for i := 0 to |queried|
      invariant all == Discover(Flatten(outcomes[..i]), own)
      invariant seenVideoIds == IdsOf(all)
    {
      var results := search(queried[i]);
      FlattenSnoc(outcomes, i);
      ghost var before := Flatten(outcomes[..i]);
      if results.Items? && |results.items| > 0 {
        assert before + results.items[..0] == before;
        for j := 0 to |results.items|
          invariant all == Discover(before + results.items[..j], own)
          invariant seenVideoIds == IdsOf(all)
        {
          var item := results.items[j];
          PrefixSnoc(before, results.items, j);
          DiscoverSnoc(before + results.items[..j], item, own);
          if item.id != "" {
            if item.id !in seenVideoIds && item.id !in own {
              IdsOfSnoc(all, ToRecommendation(item));
              seenVideoIds := seenVideoIds + {item.id};
              all := all + [ToRecommendation(item)];
            }
          }
        }
        assert results.items[..|results.items|] == results.items;
      } else {
        assert before + ItemsOf(results) == before;
      }
    }
    assert outcomes[..|queried|] == outcomes;
  }

  lemma PrefixSnoc<T>(a: seq<T>, b: seq<T>, j: nat)
    requires j < |b|
    ensures a + b[..j + 1] == (a + b[..j]) + [b[j]]
  {
    assert b[..j + 1] == b[..j] + [b[j]];
  }

  lemma FlattenSnoc(outcomes: seq<SearchOutcome>, i: nat)
    requires i < |outcomes|
    ensures Flatten(outcomes[..i + 1]) == Flatten(outcomes[..i]) + ItemsOf(outcomes[i])
  {
    assert outcomes[..i + 1][..i] == outcomes[..i];
  }

  lemma DiscoverSnoc(items: seq<Item>, item: Item, own: set<string>)
    ensures Discover(items + [item], own) ==
      if !Wanted(item, own) || item.id in IdsOf(Discover(items, own)) then Discover(items, own)
      else Discover(items, own) + [ToRecommendation(item)]
  {
    assert (items + [item])[..|items|] == items;
  }

  lemma IdsOfSnoc(recs: seq<Recommendation>, r: Recommendation)
    ensures IdsOf(recs + [r]) == IdsOf(recs) + {r.id}
  {
  }

  function OutcomesOf(terms: seq<string>, search: string -> SearchOutcome): (r: seq<SearchOutcome>)
    ensures |r| == |terms| && forall k :: 0 <= k < |terms| ==> r[k] == search(terms[k])
  {
    seq(|terms|, k requires 0 <= k < |terms| => search(terms[k]))
  }

  /** The route's answer when it succeeds. */
  datatype RecommendationsBody = RecommendationsBody(
    message: Option<string>, recommendations: seq<Recommendation>, basedOn: seq<string>,
    totalStreams: Option<nat>)

  function OwnIds(streams: seq<UserStream>): set<string> {
    set s | s in streams :: s.extractedId
  }

  /** `GET /api/youtube/recommendations`: a missing user id is a validation
      error; a user without streams gets nothing; otherwise at most ten
      distinct videos, none of them already the user's, and at most three
      titles they are based on. */
  method GetRecommendations(userId: Option<string>, userStreams: seq<UserStream>, search: string -> SearchOutcome)
    returns (r: Result<RecommendationsBody, ApiError>)
    ensures userId.None? || userId.value == "" <==> r.Failure?
    ensures r.Failure? ==> r.error.code == ValidationError && r.error.message == "User ID is required"
    ensures r.Success? && userStreams == [] ==>
      r.value == RecommendationsBody(Some("No streams found for user"), [], [], None)
    ensures r.Success? && userStreams != [] ==>
      var recs := r.value.recommendations;
      && recs == Take(Discover(Flatten(OutcomesOf(Take(DeriveTerms(StreamTitles(userStreams)), MAX_TERMS), search)),
                               OwnIds(userStreams)), MAX_RECOMMENDATIONS)
      && |recs| <= MAX_RECOMMENDATIONS && |r.value.basedOn| <= MAX_BASED_ON
      && (forall i, j :: 0 <= i < j < |recs| ==> recs[i].id != recs[j].id)
      && (forall rec :: rec in recs ==> rec.id !in OwnIds(userStreams))
      && r.value.basedOn == Take(BasedOn(StreamTitles(userStreams)), MAX_BASED_ON)
      && r.value.message.None?
      && r.value.totalStreams == Some(|userStreams|)
  {
    if userId.None? || userId.value == "" {
      return Failure(NewValidationError(Some("User ID is required"), None));
    }
    if |userStreams| == 0 {
      return Success(RecommendationsBody(Some("No streams found for user"), [], [], None));
    }
    var titles := StreamTitles(userStreams);
    var searchTerms, basedOn := DeriveSearchTerms(titles);
    var all, queried := CollectRecommendations(searchTerms, search, OwnIds(userStreams));
    DiscoverDistinct(Flatten(OutcomesOf(queried, search)), OwnIds(userStreams));
    var recommendations := Take(all, MAX_RECOMMENDATIONS);
    forall rec | rec in recommendations ensures rec in all { }
    return Success(RecommendationsBody(None, recommendations, Take(basedOn, MAX_BASED_ON), Some(|userStreams|)));
  }
}

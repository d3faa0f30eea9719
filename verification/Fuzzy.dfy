/** The fuzzy matcher: greedy subsequence matching with a score, and filtering by several tokens. */
module Fuzzy {
  import opened Wrappers
  import opened Sorting

  /** Lower score is better. */
  datatype Match = Match(matches: bool, score: real)

  datatype Scored<T> = Scored(item: T, score: real)

  // ---------------------------------------------------------------- embeddings

  /** `places` are increasing positions of `text`, none before `from`, that spell `query`. */
  predicate Embedding(query: string, text: string, from: nat, places: seq<nat>) {
    && |places| == |query|
    && (forall k | 0 <= k < |places| :: from <= places[k] < |text| && text[places[k]] == query[k])
    && (forall j, k | 0 <= j < k < |places| :: places[j] < places[k])
  }

  ghost predicate IsSubsequence(query: string, text: string) {
    exists places :: Embedding(query, text, 0, places)
  }

  function Cons(place: nat, rest: Option<seq<nat>>): Option<seq<nat>> {
    if rest.Some? then Some([place] + rest.value) else None
  }

  /** Every character at the first place where it still fits. */
  function Greedy(query: string, text: string, from: nat): Option<seq<nat>>
    decreases |text| - from
  {
    if query == "" then Some([])
    else if from >= |text| then None
    else if text[from] == query[0] then Cons(from, Greedy(query[1..], text, from + 1))
    else Greedy(query, text, from + 1)
  }

  /** The greedy places are an embedding that lies nowhere later than any other. */
  lemma {:induction false} GreedyIsLeftmost(query: string, text: string, from: nat, others: seq<nat>)
    requires Embedding(query, text, from, others)
    ensures var greedy := Greedy(query, text, from);
            && greedy.Some? && Embedding(query, text, from, greedy.value)
            && forall k | 0 <= k < |others| :: greedy.value[k] <= others[k]
    decreases |text| - from
  {
    if query == "" {
      return;
    }
    assert from <= others[0] < |text|;
    if text[from] == query[0] {
      assert Embedding(query[1..], text, from + 1, others[1..]) by {
        assert others[0] >= from;
      }
      GreedyIsLeftmost(query[1..], text, from + 1, others[1..]);
      var rest := Greedy(query[1..], text, from + 1).value;
      forall k | 0 <= k < |others| ensures ([from] + rest)[k] <= others[k] {
        if k > 0 {
          assert rest[k - 1] <= others[1..][k - 1];
        }
      }
    } else {
      assert others[0] != from;
      assert Embedding(query, text, from + 1, others);
      GreedyIsLeftmost(query, text, from + 1, others);
    }
  }

  lemma {:induction false} GreedyIsAnEmbedding(query: string, text: string, from: nat)
    requires Greedy(query, text, from).Some?
    ensures Embedding(query, text, from, Greedy(query, text, from).value)
    decreases |text| - from
  {
    if query == "" {
    } else if text[from] == query[0] {
      GreedyIsAnEmbedding(query[1..], text, from + 1);
    } else {
      GreedyIsAnEmbedding(query, text, from + 1);
    }
  }

  /** Greedy matching is complete. */
  lemma GreedyIsComplete(query: string, text: string)
    ensures Greedy(query, text, 0).Some? <==> IsSubsequence(query, text)
    ensures IsSubsequence(query, text) ==> |query| <= |text|
  {
    if Greedy(query, text, 0).Some? {
      GreedyIsAnEmbedding(query, text, 0);
    }
    if others :| Embedding(query, text, 0, others) {
      GreedyIsLeftmost(query, text, 0, others);
      if |others| > 0 {
        PlacesSpread(query, text, others, |others| - 1);
      }
    }
  }

  lemma {:induction false} PlacesSpread(query: string, text: string, places: seq<nat>, k: nat)
    requires Embedding(query, text, 0, places) && k < |places|
    ensures k <= places[k] < |text|
  {
    if k > 0 {
      PlacesSpread(query, text, places, k - 1);
    }
  }

  // ---------------------------------------------------------------- scores

  /** How many matches in a row end with match `k`; a match at the very start counts as following another. */
  function RunLength(places: seq<nat>, k: nat): nat
    requires k < |places|
  {
    if k == 0 then (if places[0] == 0 then 1 else 0)
    else if places[k] == places[k - 1] + 1 then 1 + RunLength(places, k - 1)
    else 0
  }

  predicate AtBoundary(text: string, place: nat, isSpace: char -> bool)
    requires place < |text|
  {
    place == 0 || isSpace(text[place - 1]) || text[place - 1] in "-_./:"
  }

  /** A run is rewarded, a gap penalised, a word start rewarded, lateness penalised. */
  function PlaceScore(text: string, places: seq<nat>, k: nat, isSpace: char -> bool): real
    requires k < |places| && places[k] < |text|
  {
    var gap: int := if k > 0 then places[k] as int - places[k - 1] as int - 1 else 0;
    - 5.0 * RunLength(places, k) as real
    + 2.0 * gap as real
    - (if AtBoundary(text, places[k], isSpace) then 10.0 else 0.0)
    + places[k] as real * 0.1
  }

  function PlacesScore(text: string, places: seq<nat>, n: nat, isSpace: char -> bool): real
    requires n <= |places| && forall k | 0 <= k < n :: places[k] < |text|
  {
    if n == 0 then 0.0
    else PlacesScore(text, places, n - 1, isSpace) + PlaceScore(text, places, n - 1, isSpace)
  }

  lemma {:induction false} RunLengthOfPrefix(places: seq<nat>, more: seq<nat>, k: nat)
    requires k < |places|
    ensures RunLength(places + more, k) == RunLength(places, k)
  {
    if k > 0 {
      RunLengthOfPrefix(places, more, k - 1);
    }
  }

  lemma {:induction false} ScoreOfPrefix(text: string, places: seq<nat>, more: seq<nat>, n: nat, isSpace: char -> bool)
    requires n <= |places| && forall k | 0 <= k < n :: places[k] < |text|
    ensures PlacesScore(text, places + more, n, isSpace) == PlacesScore(text, places, n, isSpace)
  {
    if n > 0 {
      ScoreOfPrefix(text, places, more, n - 1, isSpace);
      RunLengthOfPrefix(places, more, n - 1);
    }
  }

  /** What matching one lower-cased query against one lower-cased text yields. */
  function QueryMatch(query: string, text: string, isSpace: char -> bool): Match {
    var places := Greedy(query, text, 0);
    if places.None? then Match(false, 0.0)
    else
      GreedyIsAnEmbedding(query, text, 0);
      Match(true, PlacesScore(text, places.value, |places.value|, isSpace)
                  - (if query == text && query != "" then 100.0 else 0.0))
  }

  /** The matching loop. */
  method MatchQuery(query: string, text: string, isSpace: char -> bool) returns (m: Match)
    ensures m == QueryMatch(query, text, isSpace)
    ensures m.matches <==> IsSubsequence(query, text)
  {
    hide Greedy, Prepend, PlacesScore, PlaceScore, RunLength, AtBoundary, Embedding, IsSubsequence;
    GreedyIsComplete(query, text);
    StartAndEnd(query, text, isSpace);
    if |query| == 0 {
      return Match(true, 0.0);
    }
    if |query| > |text| {
      return Match(false, 0.0);
    }
    var queryIndex, score, last, consecutive := 0, 0.0, -1, 0;
    ghost var places: seq<nat> := [];
    var i := 0;
    while i < |text| && queryIndex < |query|
      invariant 0 <= i <= |text| && 0 <= queryIndex <= |query|
      invariant Embedding(query[..queryIndex], text, 0, places)
      invariant forall k | 0 <= k < |places| :: places[k] < i
      invariant Greedy(query, text, 0) == Prepend(places, Greedy(query[queryIndex..], text, i))
      invariant last == if places == [] then -1 else places[|places| - 1] as int
      invariant |places| == queryIndex
      invariant consecutive == if places == [] then 0 else RunLength(places, |places| - 1)
      invariant score == PlacesScore(text, places, |places|, isSpace)
    {
      if text[i] == query[queryIndex] {
        if last == i - 1 {
          consecutive := consecutive + 1;
          score := score - (consecutive * 5) as real;
        } else {
          consecutive := 0;
          if last >= 0 {
            score := score + ((i - last - 1) * 2) as real;
          }
        }
        if i == 0 || isSpace(text[i - 1]) || text[i - 1] in "-_./:" {
          score := score - 10.0;
        }
        score := score + i as real * 0.1;
        OneMorePlace(query, text, places, queryIndex, i);
        GreedyTakesIt(query, text, places, queryIndex, i);
        ScoreOfPlace(text, places, i, isSpace);
        places := places + [i];
        last := i;
        queryIndex := queryIndex + 1;
      } else {
        SkippedPlace(query, text, places, queryIndex, i);
      }
      i := i + 1;
    }
    Finished(query, text, places, queryIndex, i);
    if queryIndex < |query| {
      return Match(false, 0.0);
    }
    if query == text {
      score := score - 100.0;
    }
    return Match(true, score);
  }

  function Prepend(places: seq<nat>, rest: Option<seq<nat>>): Option<seq<nat>> {
    if rest.Some? then Some(places + rest.value) else None
  }

  lemma StartAndEnd(query: string, text: string, isSpace: char -> bool)
    ensures PlacesScore(text, [], 0, isSpace) == 0.0
    ensures Embedding("", text, 0, []) && query[..0] == ""
    ensures Greedy(query, text, 0) == Prepend([], Greedy(query[0..], text, 0))
    ensures query == "" ==> Greedy(query, text, 0) == Some([])
  {
    assert query[0..] == query;
    var greedy := Greedy(query, text, 0);
    if greedy.Some? {
      assert [] + greedy.value == greedy.value;
    }
  }

  lemma Finished(query: string, text: string, places: seq<nat>, queryIndex: nat, i: nat)
    requires queryIndex <= |query| && i <= |text| && (i == |text| || queryIndex == |query|)
    ensures Prepend(places, Greedy(query[queryIndex..], text, i)) ==
            if queryIndex == |query| then Some(places) else None
  {
    assert places + [] == places;
  }

  lemma SkippedPlace(query: string, text: string, places: seq<nat>, queryIndex: nat, i: nat)
    requires queryIndex < |query| && i < |text| && text[i] != query[queryIndex]
    ensures Greedy(query[queryIndex..], text, i) == Greedy(query[queryIndex..], text, i + 1)
  {
    assert query[queryIndex..][0] == query[queryIndex];
  }

  lemma OneMorePlace(query: string, text: string, places: seq<nat>, queryIndex: nat, i: nat)
    requires queryIndex < |query| && i < |text| && text[i] == query[queryIndex]
    requires Embedding(query[..queryIndex], text, 0, places) && forall k | 0 <= k < |places| :: places[k] < i
    ensures Embedding(query[..queryIndex + 1], text, 0, places + [i])
  {
    var longer := places + [i];
    forall k | 0 <= k < |longer| ensures longer[k] < |text| && text[longer[k]] == query[..queryIndex + 1][k] {
      if k < |places| {
        assert query[..queryIndex][k] == query[k];
      }
    }
  }

  lemma GreedyTakesIt(query: string, text: string, places: seq<nat>, queryIndex: nat, i: nat)
    requires queryIndex < |query| && i < |text| && text[i] == query[queryIndex]
    ensures Prepend(places, Greedy(query[queryIndex..], text, i)) ==
            Prepend(places + [i], Greedy(query[queryIndex + 1..], text, i + 1))
  {
    var left := query[queryIndex..];
    assert left[0] == query[queryIndex] && left[1..] == query[queryIndex + 1..];
    var rest := Greedy(query[queryIndex + 1..], text, i + 1);
    assert Greedy(left, text, i) == Cons(i, rest);
    if rest.Some? {
      assert places + ([i] + rest.value) == (places + [i]) + rest.value;
    }
  }

  lemma ScoreOfPlace(text: string, places: seq<nat>, i: nat, isSpace: char -> bool)
    requires i < |text| && forall k | 0 <= k < |places| :: places[k] < i
    ensures RunLength(places + [i], |places|) ==
            if i == (if places == [] then -1 else places[|places| - 1] as int) + 1
            then 1 + (if places == [] then 0 else RunLength(places, |places| - 1)) else 0
    ensures PlacesScore(text, places + [i], |places| + 1, isSpace) ==
            PlacesScore(text, places, |places|, isSpace)
            - 5.0 * RunLength(places + [i], |places|) as real
            + (if places != [] then 2.0 * (i - places[|places| - 1] - 1) as real else 0.0)
            - (if i == 0 || isSpace(text[i - 1]) || text[i - 1] in "-_./:" then 10.0 else 0.0)
            + i as real * 0.1
  {
    ScoreOfPrefix(text, places, [i], |places|, isSpace);
    if places != [] {
      RunLengthOfPrefix(places, [i], |places| - 1);
    }
  }

  /** The places 0 to n - 1 after k. */
  function Straight(k: nat, n: nat): (places: seq<nat>)
    requires k <= n
    ensures |places| == n - k && forall i | 0 <= i < |places| :: places[i] == k + i
  {
    seq(n - k, i requires 0 <= i < n - k => k + i)
  }

  lemma {:induction false} GreedyOfPrefix(query: string, text: string, k: nat)
    requires query <= text && k <= |query|
    ensures Greedy(query[k..], text, k) == Some(Straight(k, |query|))
    decreases |query| - k
  {
    if k == |query| {
      assert query[k..] == "" && Straight(k, k) == [];
    } else {
      GreedyOfPrefix(query, text, k + 1);
      assert query[k..][0] == text[k] && query[k..][1..] == query[k + 1..];
      assert [k] + Straight(k + 1, |query|) == Straight(k, |query|);
    }
  }

  lemma {:induction false} SameBeginningSameScore(text: string, more: string, places: seq<nat>, n: nat,
                                                  isSpace: char -> bool)
    requires n <= |places| && forall k | 0 <= k < n :: places[k] < |text|
    ensures PlacesScore(text + more, places, n, isSpace) == PlacesScore(text, places, n, isSpace)
  {
    hide RunLength;
    if n > 0 {
      SameBeginningSameScore(text, more, places, n - 1, isSpace);
    }
  }

  /** A text that is the query scores exactly a hundred better than one that goes on behind it. */
  lemma ExactMatchIsRewarded(query: string, more: string, isSpace: char -> bool)
    requires query != "" && more != ""
    ensures QueryMatch(query, query, isSpace).matches && QueryMatch(query, query + more, isSpace).matches
    ensures QueryMatch(query, query, isSpace).score == QueryMatch(query, query + more, isSpace).score - 100.0
  {
    hide PlacesScore, Greedy;
    GreedyOfPrefix(query, query, 0);
    GreedyOfPrefix(query, query + more, 0);
    assert query[0..] == query;
    SameBeginningSameScore(query, more, Straight(0, |query|), |query|, isSpace);
    assert query + more != query;
  }

  /** The reward of a place at the start of a word. */
  function StartReward(text: string, place: nat, isSpace: char -> bool): real
    requires place < |text|
  {
    if place == 0 then 10.0
    else if isSpace(text[place - 1]) || text[place - 1] in ['-', '_', '.', '/', ':'] then 10.0 else 0.0
  }

  /** The score of a query of one character, found first at a place, in a text that is longer. */
  lemma OneCharacterScore(text: string, place: nat, isSpace: char -> bool)
    requires place < |text| && |text| > 1 && forall i | 0 <= i < place :: text[i] != text[place]
    ensures QueryMatch([text[place]], text, isSpace) ==
            Match(true, place as real * 0.1 - StartReward(text, place, isSpace) - if place == 0 then 5.0 else 0.0)
  {
    GreedyFindsFirst([text[place]], text, 0, place);
    assert [text[place]][1..] == "" && Greedy("", text, place + 1) == Some([]);
    assert [place] + [] == [place];
    assert PlacesScore(text, [place], 0, isSpace) == 0.0;
    assert PlacesScore(text, [place], 1, isSpace) == 0.0 + PlaceScore(text, [place], 0, isSpace);
  }

  lemma {:induction false} GreedyFindsFirst(query: string, text: string, from: nat, place: nat)
    requires query != "" && from <= place < |text| && text[place] == query[0]
    requires forall i | from <= i < place :: text[i] != query[0]
    ensures Greedy(query, text, from) == Cons(place, Greedy(query[1..], text, place + 1))
    decreases place - from
  {
    if from < place {
      GreedyFindsFirst(query, text, from + 1, place);
    }
  }

  /** A second character adds the reward of a run, or the penalty of a gap, and its own start and lateness. */
  lemma SecondCharacterScore(text: string, first: nat, second: nat, isSpace: char -> bool)
    requires first < second < |text| && |text| > 2
    requires forall i | 0 <= i < first :: text[i] != text[first]
    requires forall i | first < i < second :: text[i] != text[second]
    ensures QueryMatch([text[first], text[second]], text, isSpace) ==
            Match(true, QueryMatch([text[first]], text, isSpace).score
                        + second as real * 0.1 - StartReward(text, second, isSpace)
                        + if second == first + 1 then (if first == 0 then -10.0 else -5.0)
                          else 2.0 * (second - first - 1) as real)
  {
    var query := [text[first], text[second]];
    GreedyFindsFirst(query, text, 0, first);
    assert query[1..] == [text[second]];
    GreedyFindsFirst(query[1..], text, first + 1, second);
    assert query[1..][1..] == "" && Greedy("", text, second + 1) == Some([]);
    assert [second] + [] == [second] && [first] + [second] == [first, second];
    OneCharacterScore(text, first, isSpace);
    var places := [first, second];
    assert PlacesScore(text, places, 0, isSpace) == 0.0;
    assert PlacesScore(text, places, 1, isSpace) == 0.0 + PlaceScore(text, places, 0, isSpace);
    assert PlacesScore(text, places, 2, isSpace)
           == PlacesScore(text, places, 1, isSpace) + PlaceScore(text, places, 1, isSpace);
  }

  // ---------------------------------------------------------------- letters and digits swapped

  predicate Letters(s: string) {
    s != "" && forall c <- s :: 'a' <= c <= 'z'
  }

  predicate Digits(s: string) {
    s != "" && forall c <- s :: '0' <= c <= '9'
  }

  function LettersPrefix(s: string): (n: nat)
    ensures n <= |s| && (forall i | 0 <= i < n :: 'a' <= s[i] <= 'z') && (n < |s| ==> !('a' <= s[n] <= 'z'))
  {
    if s != "" && 'a' <= s[0] <= 'z' then 1 + LettersPrefix(s[1..]) else 0
  }

  function DigitsPrefix(s: string): (n: nat)
    ensures n <= |s| && (forall i | 0 <= i < n :: '0' <= s[i] <= '9') && (n < |s| ==> !('0' <= s[n] <= '9'))
  {
    if s != "" && '0' <= s[0] <= '9' then 1 + DigitsPrefix(s[1..]) else 0
  }

  /** "abc12" as "12abc" and the other way round; "" when the query is not of either form. */
  function Swapped(query: string): string {
    var l, d := LettersPrefix(query), DigitsPrefix(query);
    if Letters(query[..l]) && Digits(query[l..]) then query[l..] + query[..l]
    else if Digits(query[..d]) && Letters(query[d..]) then query[d..] + query[..d]
    else ""
  }

  lemma LettersThenDigits(letters: string, digits: string)
    requires Letters(letters) && Digits(digits)
    ensures LettersPrefix(letters + digits) == |letters|
    ensures Swapped(letters + digits) == digits + letters
  {
    var q := letters + digits;
    var l := LettersPrefix(q);
    assert q[|letters|] == digits[0] && digits[0] in digits;
    forall i | 0 <= i < |letters| ensures 'a' <= q[i] <= 'z' {
      assert q[i] == letters[i] && letters[i] in letters;
    }
    assert q[..|letters|] == letters && q[|letters|..] == digits;
  }

  lemma DigitsThenLetters(letters: string, digits: string)
    requires Letters(letters) && Digits(digits)
    ensures DigitsPrefix(digits + letters) == |digits| && LettersPrefix(digits + letters) == 0
    ensures Swapped(digits + letters) == letters + digits
  {
    var r := digits + letters;
    var d := DigitsPrefix(r);
    assert r[|digits|] == letters[0] && letters[0] in letters;
    forall i | 0 <= i < |digits| ensures '0' <= r[i] <= '9' {
      assert r[i] == digits[i] && digits[i] in digits;
    }
    assert r[0] == digits[0] && digits[0] in digits;
    assert r[..|digits|] == digits && r[|digits|..] == letters;
  }

  predicate Swappable(query: string, n: nat)
    requires n <= |query|
  {
    || (Letters(query[..n]) && Digits(query[n..]))
    || (Digits(query[..n]) && Letters(query[n..]))
  }

  lemma SwappedAt(query: string, n: nat)
    requires n <= |query| && Swappable(query, n)
    ensures Swapped(query) == query[n..] + query[..n] && Swapped(Swapped(query)) == query
  {
    hide Letters, Digits, Swapped;
    var a, b := query[..n], query[n..];
    assert a + b == query;
    if Letters(a) && Digits(b) {
      LettersThenDigits(a, b);
      DigitsThenLetters(a, b);
    } else {
      LettersThenDigits(b, a);
      DigitsThenLetters(b, a);
    }
  }

  /** Swapping is defined exactly on letters-digits and digits-letters, and undoes itself. */
  lemma SwappedExactly(query: string)
    ensures Swapped(query) != "" <==> exists n | 0 <= n <= |query| :: Swappable(query, n)
    ensures Swapped(query) != "" ==> Swapped(Swapped(query)) == query && multiset(Swapped(query)) == multiset(query)
  {
    hide Swapped, Swappable;
    SwappedSomewhere(query);
    if n :| 0 <= n <= |query| && Swappable(query, n) {
      SwappedAt(query, n);
      SwappableIsNotEmpty(query, n);
      assert query == query[..n] + query[n..];
    }
  }

  lemma SwappedSomewhere(query: string)
    ensures Swapped(query) != "" ==> exists n | 0 <= n <= |query| :: Swappable(query, n)
  {
    hide Letters, Digits;
    var l, d := LettersPrefix(query), DigitsPrefix(query);
    assert Swapped(query) != "" ==> Swappable(query, l) || Swappable(query, d);
  }

  lemma SwappableIsNotEmpty(query: string, n: nat)
    requires n <= |query| && Swappable(query, n)
    ensures query[n..] + query[..n] != ""
  {}

  /** What `fuzzyMatch` yields on lower-cased strings. */
  function FuzzyResult(query: string, text: string, isSpace: char -> bool): Match {
    var primary, swapped := QueryMatch(query, text, isSpace), QueryMatch(Swapped(query), text, isSpace);
    if primary.matches || Swapped(query) == "" || !swapped.matches then primary
    else Match(true, swapped.score + 5.0)
  }

  /** The query, or its swap, is a subsequence. */
  ghost predicate Found(query: string, text: string) {
    IsSubsequence(query, text) || (Swapped(query) != "" && IsSubsequence(Swapped(query), text))
  }

  lemma FoundWhenMatched(query: string, text: string, isSpace: char -> bool)
    ensures FuzzyResult(query, text, isSpace).matches <==> Found(query, text)
  {
    GreedyIsComplete(query, text);
    GreedyIsComplete(Swapped(query), text);
  }

  /** A query that is found only with letters and digits swapped scores five worse than the swapped query. */
  lemma SwapCostsFive(query: string, text: string, isSpace: char -> bool)
    requires !IsSubsequence(query, text) && Swapped(query) != "" && IsSubsequence(Swapped(query), text)
    ensures FuzzyResult(query, text, isSpace).matches && FuzzyResult(Swapped(query), text, isSpace).matches
    ensures FuzzyResult(query, text, isSpace).score == FuzzyResult(Swapped(query), text, isSpace).score + 5.0
  {
    hide IsSubsequence, PlacesScore;
    GreedyIsComplete(query, text);
    GreedyIsComplete(Swapped(query), text);
  }

  method FuzzyMatch(query: string, text: string, lower: string -> string, isSpace: char -> bool) returns (m: Match)
    ensures m == FuzzyResult(lower(query), lower(text), isSpace)
    ensures m.matches <==> Found(lower(query), lower(text))
    ensures !m.matches ==> m.score == 0.0
  {
    FoundWhenMatched(lower(query), lower(text), isSpace);
    var queryLower, textLower := lower(query), lower(text);
    var primary := MatchQuery(queryLower, textLower, isSpace);
    if primary.matches {
      return primary;
    }
    var swappedQuery := Swapped(queryLower);
    if swappedQuery == "" {
      return primary;
    }
    var swapped := MatchQuery(swappedQuery, textLower, isSpace);
    if !swapped.matches {
      return primary;
    }
    return Match(true, swapped.score + 5.0);
  }

  // ---------------------------------------------------------------- tokens

  function TrimStart(s: string, isSpace: char -> bool): (r: string)
    ensures |r| <= |s|
  {
    if s != "" && isSpace(s[0]) then TrimStart(s[1..], isSpace) else s
  }

  function TrimEnd(s: string, isSpace: char -> bool): string {
    if s != "" && isSpace(s[|s| - 1]) then TrimEnd(s[..|s| - 1], isSpace) else s
  }

  function Trim(s: string, isSpace: char -> bool): string {
    TrimEnd(TrimStart(s, isSpace), isSpace)
  }

  /** Up to the first space. */
  function WordLength(s: string, isSpace: char -> bool): (n: nat)
    ensures n <= |s| && (forall i | 0 <= i < n :: !isSpace(s[i])) && (n < |s| ==> isSpace(s[n]))
  {
    if s != "" && !isSpace(s[0]) then 1 + WordLength(s[1..], isSpace) else 0
  }

  /** Splitting at every run of spaces; a run at either end leaves an empty part there. */
  function SplitAtSpaces(s: string, isSpace: char -> bool): seq<string>
    decreases |s|
  {
    var n := WordLength(s, isSpace);
    if n == |s| then [s] else [s[..n]] + SplitAtSpaces(TrimStart(s[n + 1..], isSpace), isSpace)
  }

  function NonEmpty(parts: seq<string>): seq<string> {
    if parts == [] then [] else (if parts[0] == "" then [] else [parts[0]]) + NonEmpty(parts[1..])
  }

  function Tokens(query: string, isSpace: char -> bool): seq<string> {
    NonEmpty(SplitAtSpaces(Trim(query, isSpace), isSpace))
  }

  predicate Blank(s: string, isSpace: char -> bool) {
    forall c <- s :: isSpace(c)
  }

  predicate Word(s: string, isSpace: char -> bool) {
    s != "" && forall c <- s :: !isSpace(c)
  }

  /** Words, each after its gap; only the first gap may be empty. */
  predicate LaidOut(gaps: seq<string>, words: seq<string>, isSpace: char -> bool) {
    && |gaps| == |words|
    && (forall g <- gaps :: Blank(g, isSpace)) && (forall w <- words :: Word(w, isSpace))
    && (forall i | 1 <= i < |gaps| :: gaps[i] != "")
  }

  function Layout(gaps: seq<string>, words: seq<string>): string
    requires |gaps| == |words|
  {
    if gaps == [] then "" else gaps[0] + words[0] + Layout(gaps[1..], words[1..])
  }

  lemma {:induction false} TrimStartOfGap(gap: string, rest: string, isSpace: char -> bool)
    requires Blank(gap, isSpace)
    ensures TrimStart(gap + rest, isSpace) == TrimStart(rest, isSpace)
  {
    if gap == "" {
      assert gap + rest == rest;
    } else {
      assert gap[0] in gap && (gap + rest)[1..] == gap[1..] + rest;
      TrimStartOfGap(gap[1..], rest, isSpace);
    }
  }

  lemma {:induction false} TrimEndOfGap(rest: string, gap: string, isSpace: char -> bool)
    requires Blank(gap, isSpace)
    ensures TrimEnd(rest + gap, isSpace) == TrimEnd(rest, isSpace)
  {
    if gap == "" {
      assert rest + gap == rest;
    } else {
      var last := |gap| - 1;
      assert gap[last] in gap && (rest + gap)[..|rest| + last] == rest + gap[..last];
      TrimEndOfGap(rest, gap[..last], isSpace);
    }
  }

  lemma WordLengthOf(word: string, rest: string, isSpace: char -> bool)
    requires Word(word, isSpace) && (rest == "" || isSpace(rest[0]))
    ensures WordLength(word + rest, isSpace) == |word|
  {
    var n := WordLength(word + rest, isSpace);
    assert forall i | 0 <= i < |word| :: (word + rest)[i] == word[i] && word[i] in word;
    assert rest != "" ==> (word + rest)[|word|] == rest[0];
  }

  lemma {:induction false} EndsInWord(gaps: seq<string>, words: seq<string>, isSpace: char -> bool)
    requires LaidOut(gaps, words, isSpace) && words != []
    ensures var s := Layout(gaps, words); s != "" && !isSpace(s[|s| - 1])
  {
    if |words| == 1 {
      assert words[0] in words;
      assert words[0][|words[0]| - 1] in words[0];
      assert Layout(gaps[1..], words[1..]) == "";
    } else {
      EndsInWord(gaps[1..], words[1..], isSpace);
    }
  }

  lemma SplitFirst(word: string, gap: string, rest: string, isSpace: char -> bool)
    requires Word(word, isSpace) && Blank(gap, isSpace) && gap != "" && rest != "" && !isSpace(rest[0])
    ensures SplitAtSpaces(word + (gap + rest), isSpace) == [word] + SplitAtSpaces(rest, isSpace)
  {
    var s := word + (gap + rest);
    assert gap[0] in gap;
    WordLengthOf(word, gap + rest, isSpace);
    assert s[..|word|] == word && s[|word| + 1..] == gap[1..] + rest;
    TrimStartOfGap(gap[1..], rest, isSpace);
  }

  lemma LaterGaps(gaps: seq<string>, words: seq<string>, isSpace: char -> bool)
    requires LaidOut(gaps, words, isSpace) && words != []
    ensures LaidOut([""] + gaps[1..], words, isSpace)
    ensures Layout(gaps, words) == gaps[0] + Layout([""] + gaps[1..], words)
  {
    var first := [""] + gaps[1..];
    assert first[1..] == gaps[1..];
    forall x <- first ensures Blank(x, isSpace) {
      assert x == "" || x in gaps;
    }
  }

  /** Splitting a laid-out text that starts with a word gives back the words. */
  lemma {:induction false} SplitOfLayout(gaps: seq<string>, words: seq<string>, isSpace: char -> bool)
    requires LaidOut(gaps, words, isSpace) && words != [] && gaps[0] == ""
    ensures SplitAtSpaces(Layout(gaps, words), isSpace) == words
    decreases |words|
  {
    hide SplitAtSpaces;
    var rest := Layout(gaps[1..], words[1..]);
    assert Layout(gaps, words) == words[0] + rest;
    assert words == [words[0]] + words[1..];
    if |words| == 1 {
      SplitOfWord(words[0], isSpace);
      assert words[0] + rest == words[0];
    } else {
      var later := [""] + gaps[1..][1..];
      LaterGaps(gaps[1..], words[1..], isSpace);
      SplitOfLayout(later, words[1..], isSpace);
      assert words[1] in words && words[1][0] in words[1] && gaps[1] in gaps;
      var tail := Layout(later, words[1..]);
      assert tail[0] == words[1][0];
      SplitFirst(words[0], gaps[1], tail, isSpace);
    }
  }

  lemma SplitOfWord(word: string, isSpace: char -> bool)
    requires Word(word, isSpace)
    ensures SplitAtSpaces(word, isSpace) == [word]
  {
    WordLengthOf(word, "", isSpace);
    assert word + "" == word;
  }

  lemma {:induction false} NonEmptyWords(words: seq<string>, isSpace: char -> bool)
    requires forall w <- words :: Word(w, isSpace)
    ensures NonEmpty(words) == words
  {
    if words != [] {
      assert words[0] in words;
      NonEmptyWords(words[1..], isSpace);
    }
  }

  /** Whatever spaces surround and separate the words of a query, its tokens are the words. */
  lemma TokensAreTheWords(gaps: seq<string>, words: seq<string>, trail: string, isSpace: char -> bool)
    requires LaidOut(gaps, words, isSpace) && Blank(trail, isSpace)
    ensures Tokens(Layout(gaps, words) + trail, isSpace) == words
  {
    var query := Layout(gaps, words) + trail;
    if words == [] {
      assert query == trail + "";
      TrimStartOfGap(trail, "", isSpace);
      assert SplitAtSpaces("", isSpace) == [""];
      assert NonEmpty([""]) == [];
      return;
    }
    var first := [""] + gaps[1..];
    LaterGaps(gaps, words, isSpace);
    var body := Layout(first, words);
    assert query == gaps[0] + (body + trail);
    assert gaps[0] in gaps && words[0] in words && words[0][0] in words[0];
    TrimStartOfGap(gaps[0], body + trail, isSpace);
    EndsInWord(first, words, isSpace);
    assert (body + trail)[0] == words[0][0];
    TrimEndOfGap(body, trail, isSpace);
    SplitOfLayout(first, words, isSpace);
    NonEmptyWords(words, isSpace);
  }

  // ---------------------------------------------------------------- the stable sort

  predicate AtMost<T>(a: Scored<T>, b: Scored<T>) {
    a.score <= b.score
  }

  predicate Sorted<T>(s: seq<Scored<T>>) {
    forall i, j | 0 <= i < j < |s| :: s[i].score <= s[j].score
  }

  function WithScore<T>(s: seq<Scored<T>>, score: real): seq<Scored<T>> {
    if s == [] then [] else (if s[0].score == score then [s[0]] else []) + WithScore(s[1..], score)
  }

  /** Equal scores keep their order. */
  ghost predicate SameOrder<T(!new)>(s: seq<Scored<T>>, r: seq<Scored<T>>) {
    forall score: real :: WithScore(s, score) == WithScore(r, score)
  }

  lemma {:induction false} InsertKeepsOrder<T>(x: Scored<T>, s: seq<Scored<T>>, score: real)
    ensures WithScore(Insert(AtMost, x, s), score) == WithScore([x] + s, score)
  {
    assert ([x] + s)[1..] == s;
    if s != [] && x.score > s[0].score {
      var rest := Insert(AtMost, x, s[1..]);
      InsertKeepsOrder(x, s[1..], score);
      assert ([s[0]] + rest)[1..] == rest && ([x] + s[1..])[1..] == s[1..];
    }
  }

  lemma {:induction false} SortKeepsOrder<T(!new)>(s: seq<Scored<T>>)
    ensures SameOrder(s, SortBy(AtMost, s))
  {
    if s != [] {
      SortKeepsOrder(s[1..]);
      var rest := SortBy(AtMost, s[1..]);
      forall score: real ensures WithScore(s, score) == WithScore(SortBy(AtMost, s), score) {
        InsertKeepsOrder(s[0], rest, score);
        assert ([s[0]] + rest)[1..] == rest;
      }
    }
  }

  lemma SortIsStable<T(!new)>(s: seq<Scored<T>>)
    ensures Sorted(SortBy(AtMost, s)) && SameOrder(s, SortBy(AtMost, s))
  {
    SortKeepsOrder(s);
    SortByOrders(AtMost<T>, s);
    var r := SortBy(AtMost, s);
    forall i, j | 0 <= i < j < |r| ensures r[i].score <= r[j].score {
      assert AtMost(r[i], r[j]);
    }
  }

  /** Sorted and stable leaves exactly one result, whatever the sorting algorithm. */
  lemma {:induction false} StableSortIsUnique<T(!new)>(a: seq<Scored<T>>, b: seq<Scored<T>>)
    requires Sorted(a) && Sorted(b) && SameOrder(a, b)
    ensures a == b
  {
    if a == [] || b == [] {
      FirstIsThere(a);
      FirstIsThere(b);
    } else {
      FirstScore(a, b);
      FirstScore(b, a);
      assert WithScore(a, a[0].score) == WithScore(b, a[0].score);
      assert WithScore(a, a[0].score)[0] == a[0] && WithScore(b, a[0].score)[0] == b[0];
      forall score: real ensures WithScore(a[1..], score) == WithScore(b[1..], score) {
        assert WithScore(a, score) == WithScore(b, score);
        var head := if a[0].score == score then [a[0]] else [];
        assert (head + WithScore(a[1..], score))[|head|..] == WithScore(a[1..], score);
        assert (head + WithScore(b[1..], score))[|head|..] == WithScore(b[1..], score);
      }
      StableSortIsUnique(a[1..], b[1..]);
    }
  }

  lemma FirstIsThere<T>(s: seq<Scored<T>>)
    ensures s != [] ==> WithScore(s, s[0].score) != []
  {}

  lemma FirstScore<T(!new)>(a: seq<Scored<T>>, b: seq<Scored<T>>)
    requires a != [] && b != [] && Sorted(a) && SameOrder(a, b)
    ensures a[0].score <= b[0].score
  {
    assert WithScore(a, b[0].score) == WithScore(b, b[0].score);
    SomeWithScore(a, b[0].score);
  }

  lemma {:induction false} SomeWithScore<T>(s: seq<Scored<T>>, score: real)
    requires WithScore(s, score) != []
    ensures exists i | 0 <= i < |s| :: s[i].score == score
  {
    if s[0].score != score {
      SomeWithScore(s[1..], score);
      var i :| 0 <= i < |s[1..]| && s[1..][i].score == score;
      assert s[i + 1].score == score;
    }
  }

  // ---------------------------------------------------------------- filtering

  /** The sum of all tokens' scores, if every token matches. */
  function TotalScore(tokens: seq<string>, text: string, lower: string -> string, isSpace: char -> bool): Option<real> {
    if tokens == [] then Some(0.0)
    else
      var last := |tokens| - 1;
      var before := TotalScore(tokens[..last], text, lower, isSpace);
      var m := FuzzyResult(lower(tokens[last]), lower(text), isSpace);
      if before.Some? && m.matches then Some(before.value + m.score) else None
  }

  lemma {:induction false} TotalScoreExactly(tokens: seq<string>, text: string, lower: string -> string,
                                             isSpace: char -> bool)
    ensures TotalScore(tokens, text, lower, isSpace).Some? <==> forall t <- tokens :: Found(lower(t), lower(text))
  {
    if tokens != [] {
      var last := |tokens| - 1;
      TotalScoreExactly(tokens[..last], text, lower, isSpace);
      FoundWhenMatched(lower(tokens[last]), lower(text), isSpace);
      assert tokens == tokens[..last] + [tokens[last]];
    }
  }

  lemma {:induction false} NoneStaysNone(tokens: seq<string>, n: nat, text: string, lower: string -> string,
                                         isSpace: char -> bool)
    requires n <= |tokens| && TotalScore(tokens[..n], text, lower, isSpace).None?
    ensures TotalScore(tokens, text, lower, isSpace).None?
  {
    hide FuzzyResult;
    if n == |tokens| {
      assert tokens[..n] == tokens;
    } else {
      var last := |tokens| - 1;
      assert tokens[..last][..n] == tokens[..n];
      NoneStaysNone(tokens[..last], n, text, lower, isSpace);
    }
  }

  /** The matching items in their original order. */
  function Matching<T>(items: seq<T>, tokens: seq<string>, text: T -> string, lower: string -> string,
                       isSpace: char -> bool)
    : seq<Scored<T>>
  {
    if items == [] then []
    else
      var last := |items| - 1;
      var total := TotalScore(tokens, text(items[last]), lower, isSpace);
      Matching(items[..last], tokens, text, lower, isSpace) +
      (if total.Some? then [Scored(items[last], total.value)] else [])
  }

  ghost function Keeping<T(!new)>(items: seq<T>, tokens: seq<string>, text: T -> string,
                                  lower: string -> string): seq<T> {
    if items == [] then []
    else
      var last := |items| - 1;
      Keeping(items[..last], tokens, text, lower) +
      (if forall t <- tokens :: Found(lower(t), lower(text(items[last]))) then [items[last]] else [])
  }

  function ItemsOf<T>(scored: seq<Scored<T>>): seq<T> {
    seq(|scored|, i requires 0 <= i < |scored| => scored[i].item)
  }

  /** Exactly the items in which every token is found are kept, with all their occurrences and in order. */
  lemma {:induction false} MatchingKeepsExactly<T(!new)>(items: seq<T>, tokens: seq<string>, text: T -> string,
                                                         lower: string -> string, isSpace: char -> bool)
    ensures ItemsOf(Matching(items, tokens, text, lower, isSpace)) == Keeping(items, tokens, text, lower)
  {
    if items != [] {
      var last := |items| - 1;
      MatchingKeepsExactly(items[..last], tokens, text, lower, isSpace);
      TotalScoreExactly(tokens, text(items[last]), lower, isSpace);
      var before := Matching(items[..last], tokens, text, lower, isSpace);
      var now := Matching(items, tokens, text, lower, isSpace);
      assert now[..|before|] == before;
      assert ItemsOf(now) == ItemsOf(before) + (if |now| > |before| then [items[last]] else []);
    }
  }

  method ScoreItem(tokens: seq<string>, text: string, lower: string -> string, isSpace: char -> bool)
    returns (allMatch: bool, total: real)
    ensures (if allMatch then Some(total) else None) == TotalScore(tokens, text, lower, isSpace)
  {
    hide FuzzyResult, Found;
    total := 0.0;
    for i := 0 to |tokens|
      invariant TotalScore(tokens[..i], text, lower, isSpace) == Some(total)
    {
      assert tokens[..i + 1][..i] == tokens[..i];
      var m := FuzzyMatch(tokens[i], text, lower, isSpace);
      if m.matches {
        total := total + m.score;
      } else {
        NoneStaysNone(tokens, i + 1, text, lower, isSpace);
        return false, total;
      }
    }
    assert tokens[..|tokens|] == tokens;
    allMatch := true;
  }

  function Unscored<T>(items: seq<T>): seq<Scored<T>> {
    seq(|items|, i requires 0 <= i < |items| => Scored(items[i], 0.0))
  }

  /**
   * The items in which every token is found, best score first and in the given order among equal scores.
   * Without tokens every item is returned as it stands.
   */
  method FuzzyFilterScored<T(!new)>(items: seq<T>, query: string, text: T -> string, lower: string -> string,
                                    isSpace: char -> bool)
    returns (results: seq<Scored<T>>)
    ensures Tokens(query, isSpace) == [] ==> results == Unscored(items)
    ensures var matching := Matching(items, Tokens(query, isSpace), text, lower, isSpace);
            Sorted(results) && SameOrder(matching, results) && multiset(results) == multiset(matching)
  {
    var tokens := Tokens(query, isSpace);
    if |tokens| == 0 {
      NoTokens(items, text, lower, isSpace);
      return Unscored(items);
    }
    results := [];
    for i := 0 to |items|
      invariant results == Matching(items[..i], tokens, text, lower, isSpace)
    {
      assert items[..i + 1][..i] == items[..i];
      var allMatch, total := ScoreItem(tokens, text(items[i]), lower, isSpace);
      if allMatch {
        results := results + [Scored(items[i], total)];
      }
    }
    assert items[..|items|] == items;
    SortIsStable(results);
    results := SortBy(AtMost, results);
  }

  lemma {:induction false} NoTokens<T>(items: seq<T>, text: T -> string, lower: string -> string, isSpace: char -> bool)
    ensures Matching(items, [], text, lower, isSpace) == Unscored(items)
  {
    if items != [] {
      NoTokens(items[..|items| - 1], text, lower, isSpace);
    }
  }

  /** `fuzzyFilter` drops the scores; a blank query keeps everything. */
  method FuzzyFilter<T(!new)>(items: seq<T>, query: string, text: T -> string, lower: string -> string,
                              isSpace: char -> bool)
    returns (results: seq<T>)
    ensures Blank(query, isSpace) ==> results == items
    ensures multiset(results) == multiset(Keeping(items, Tokens(query, isSpace), text, lower))
    ensures results == ItemsOf(SortBy(AtMost, Matching(items, Tokens(query, isSpace), text, lower, isSpace)))
  {
    hide Tokens, Trim, Matching, Keeping, Sorted, SameOrder, Unscored, SortBy;
    NothingInABlank(query, isSpace);
    if Trim(query, isSpace) == "" {
      NoTokens(items, text, lower, isSpace);
      MatchingKeepsExactly(items, [], text, lower, isSpace);
      UnscoredItems(items);
      EqualScoresStay(Unscored(items));
      return items;
    }
    var scored := FuzzyFilterScored(items, query, text, lower, isSpace);
    var matching := Matching(items, Tokens(query, isSpace), text, lower, isSpace);
    MatchingKeepsExactly(items, Tokens(query, isSpace), text, lower, isSpace);
    SameItems(scored, matching);
    SortedIsSort(matching, scored);
    results := ItemsOf(scored);
  }

  /** Sorted and in the order of the original means being the sort of it. */
  lemma SortedIsSort<T(!new)>(s: seq<Scored<T>>, r: seq<Scored<T>>)
    requires Sorted(r) && SameOrder(s, r)
    ensures r == SortBy(AtMost, s)
  {
    SortIsStable(s);
    StableSortIsUnique(r, SortBy(AtMost, s));
  }

  lemma EqualScoresStay<T(!new)>(s: seq<Scored<T>>)
    requires Sorted(s)
    ensures SortBy(AtMost, s) == s
  {
    SortedIsSort(s, s);
  }

  lemma UnscoredItems<T>(items: seq<T>)
    ensures ItemsOf(Unscored(items)) == items && Sorted(Unscored(items))
  {}

  lemma NothingInABlank(query: string, isSpace: char -> bool)
    ensures Blank(query, isSpace) ==> Trim(query, isSpace) == ""
    ensures Trim(query, isSpace) == "" ==> Tokens(query, isSpace) == []
  {
    if Blank(query, isSpace) {
      TrimStartOfGap(query, "", isSpace);
      assert query + "" == query;
    }
    assert SplitAtSpaces("", isSpace) == [""];
    assert NonEmpty([""]) == [];
  }

  lemma WithoutOne<U>(a: seq<U>, b: seq<U>, i: nat)
    requires a != [] && i < |b| && b[i] == a[0] && multiset(a) == multiset(b)
    ensures multiset(a[1..]) == multiset(b[..i] + b[i + 1..])
  {
    assert a == [a[0]] + a[1..] && b == b[..i] + ([b[i]] + b[i + 1..]);
    assert multiset(a) == multiset{a[0]} + multiset(a[1..]);
    assert multiset(b) == multiset(b[..i]) + (multiset{b[i]} + multiset(b[i + 1..]));
    assert multiset(b[..i] + b[i + 1..]) == multiset(b[..i]) + multiset(b[i + 1..]);
    assert multiset(a[1..]) == multiset(a) - multiset{a[0]};
    assert multiset(b[..i] + b[i + 1..]) == multiset(b) - multiset{b[i]};
  }

  lemma {:induction false} SameItems<T>(a: seq<Scored<T>>, b: seq<Scored<T>>)
    requires multiset(a) == multiset(b)
    ensures multiset(ItemsOf(a)) == multiset(ItemsOf(b))
  {
    if a == [] {
      assert |multiset(b)| == 0;
    } else {
      assert a[0] in multiset(b);
      var i :| 0 <= i < |b| && b[i] == a[0];
      var rest := b[..i] + b[i + 1..];
      WithoutOne(a, b, i);
      SameItems(a[1..], rest);
      assert ItemsOf(a) == [a[0].item] + ItemsOf(a[1..]);
      assert ItemsOf(b) == ItemsOf(b[..i]) + ([b[i].item] + ItemsOf(b[i + 1..]));
      assert ItemsOf(rest) == ItemsOf(b[..i]) + ItemsOf(b[i + 1..]);
    }
  }
}

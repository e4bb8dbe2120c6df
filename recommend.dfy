/** `recommendSongsByMood` of `App.js`: the songs whose mood matches a label,
    the five most popular of them, and five more drawn at random from the
    matching songs that are not already among the popular ones. */
module Recommend {
  import opened Wrappers
  import opened Songs
  import opened Shuffle

  const MaxPopularRecommendations: nat := 5
  const MaxRandomRecommendations: nat := 5

  /** The two lists the selector hands to the page. */
  datatype Picks = Picks(popular: seq<Song>, random: seq<Song>)

  function Min(a: nat, b: nat): nat {
    if a <= b then a else b
  }

  /** `songData.filter(song => song.mood && mood && ...)`: the matching songs
      in catalogue order. */
  function MatchingSongs(songs: seq<Song>, mood: string): (r: seq<Song>)
    ensures forall s :: s in r <==> s in songs && MoodMatches(s, mood)
    ensures |r| <= |songs|
  {
    if songs == [] then []
    else
      var rest := MatchingSongs(songs[1..], mood);
      assert songs == [songs[0]] + songs[1..];
      if MoodMatches(songs[0], mood) then [songs[0]] + rest else rest
  }

  /** The filter keeps each song at most as often as the catalogue holds
      it. */
  lemma {:induction false} MatchingIsSubMultiset(songs: seq<Song>, mood: string)
    ensures multiset(MatchingSongs(songs, mood)) <= multiset(songs)
  {
    if songs != [] {
      var rest := MatchingSongs(songs[1..], mood);
      MatchingIsSubMultiset(songs[1..], mood);
      assert multiset(songs) == multiset{songs[0]} + multiset(songs[1..]) by {
        assert songs == [songs[0]] + songs[1..];
      }
      if MoodMatches(songs[0], mood) {
        assert multiset(MatchingSongs(songs, mood)) == multiset{songs[0]} + multiset(rest);
      }
    }
  }

  /** The filter keeps every copy of a matching song and no copy of any
      other. */
  lemma {:induction false} MatchingCounts(songs: seq<Song>, mood: string)
    ensures forall x :: multiset(MatchingSongs(songs, mood))[x]
                     == if MoodMatches(x, mood) then multiset(songs)[x] else 0
  {
    if songs != [] {
      MatchingCounts(songs[1..], mood);
      assert multiset(songs) == multiset{songs[0]} + multiset(songs[1..]) by {
        assert songs == [songs[0]] + songs[1..];
      }
    }
  }

  /** The filter keeps catalogue order: filtering two parts one after the
      other gives the filtered whole. */
  lemma {:induction false} MatchingAppend(a: seq<Song>, b: seq<Song>, mood: string)
    ensures MatchingSongs(a + b, mood) == MatchingSongs(a, mood) + MatchingSongs(b, mood)
  {
    if a == [] {
      assert a + b == b;
    } else {
      var ab := a + b;
      assert ab[0] == a[0] && ab[1..] == a[1..] + b;
      var head := if MoodMatches(a[0], mood) then [a[0]] else [];
      assert MatchingSongs(ab, mood) == head + MatchingSongs(a[1..] + b, mood);
      assert MatchingSongs(a, mood) == head + MatchingSongs(a[1..], mood);
      MatchingAppend(a[1..], b, mood);
    }
  }

  // ---------------------------------------------------------------------
  // Sorting by popularity, descending and stable
  // ---------------------------------------------------------------------

  /** Non-increasing by popularity, missing popularity counting as 0. */
  predicate SortedByPopularity(s: seq<Song>) {
    forall i, j :: 0 <= i < j < |s| ==> Popularity(s[j]) <= Popularity(s[i])
  }

  /** The songs of `s` with popularity `p`, in the order of `s`.  A sort is
      stable exactly when it keeps each of these subsequences as it is. */
  function WithPopularity(s: seq<Song>, p: int): (r: seq<Song>)
    ensures forall x :: x in r ==> x in s && Popularity(x) == p
  {
    if s == [] then []
    else if Popularity(s[0]) == p then [s[0]] + WithPopularity(s[1..], p)
    else WithPopularity(s[1..], p)
  }

  /** Puts `x` in front of the first song of `t` that is no more popular
      than `x`: behind every more popular song, ahead of every song it ties
      with (they come after `x` in the input). */
  function InsertByPopularity(x: Song, t: seq<Song>): (r: seq<Song>)
    requires SortedByPopularity(t)
    ensures SortedByPopularity(r)
    ensures |r| == |t| + 1
    ensures forall y :: y in r ==> y == x || y in t
  {
    if t == [] || Popularity(t[0]) <= Popularity(x) then
      HeadIsMostPopular(t);
      ConsSorted(x, t);
      [x] + t
    else
      var rest := InsertByPopularity(x, t[1..]);
      assert t == [t[0]] + t[1..];
      HeadIsMostPopular(t);
      ConsSorted(t[0], rest);
      [t[0]] + rest
  }

  lemma ConsSorted(h: Song, u: seq<Song>)
    requires SortedByPopularity(u)
    requires forall y :: y in u ==> Popularity(y) <= Popularity(h)
    ensures SortedByPopularity([h] + u)
  {
    forall i, j | 0 <= i < j < |[h] + u|
      ensures Popularity(([h] + u)[j]) <= Popularity(([h] + u)[i])
    {
      assert ([h] + u)[j] == u[j - 1];
      if i > 0 {
        assert ([h] + u)[i] == u[i - 1];
      } else {
        assert u[j - 1] in u;
      }
    }
  }

  /** `[...allMatchingSongs].sort((a, b) => (b.popularity || 0) - (a.popularity || 0))`.
      `Array.prototype.sort` is stable, so this is an insertion sort that
      keeps ties in catalogue order. */
  function SortByPopularity(s: seq<Song>): (r: seq<Song>)
    ensures SortedByPopularity(r)
    ensures |r| == |s|
    ensures forall y :: y in r ==> y in s
  {
    if s == [] then []
    else
      assert s == [s[0]] + s[1..];
      InsertByPopularity(s[0], SortByPopularity(s[1..]))
  }

  lemma {:induction false} InsertPermutes(x: Song, t: seq<Song>)
    requires SortedByPopularity(t)
    ensures multiset(InsertByPopularity(x, t)) == multiset([x] + t)
    decreases |t|
  {
    if t != [] && Popularity(t[0]) > Popularity(x) {
      InsertPermutes(x, t[1..]);
      assert t == [t[0]] + t[1..];
    }
  }

  /** The sort only rearranges the songs. */
  lemma {:induction false} SortPermutes(s: seq<Song>)
    ensures multiset(SortByPopularity(s)) == multiset(s)
  {
    if s != [] {
      SortPermutes(s[1..]);
      InsertPermutes(s[0], SortByPopularity(s[1..]));
      assert s == [s[0]] + s[1..];
    }
  }

  lemma WithPopularityCons(y: Song, u: seq<Song>, p: int)
    ensures WithPopularity([y] + u, p)
         == if Popularity(y) == p then [y] + WithPopularity(u, p) else WithPopularity(u, p)
  {
    assert ([y] + u)[1..] == u;
  }

  lemma {:induction false} InsertKeepsTies(x: Song, t: seq<Song>, p: int)
    requires SortedByPopularity(t)
    ensures WithPopularity(InsertByPopularity(x, t), p) == WithPopularity([x] + t, p)
    decreases |t|
  {
    if t != [] && Popularity(t[0]) > Popularity(x) {
      var h, u := t[0], t[1..];
      var rest := InsertByPopularity(x, u);
      assert InsertByPopularity(x, t) == [h] + rest;
      assert WithPopularity(rest, p) == WithPopularity([x] + u, p) by {
        InsertKeepsTies(x, u, p);
      }
      assert t == [h] + u;
      WithPopularityCons(h, rest, p);
      WithPopularityCons(x, u, p);
      if Popularity(h) == p {
        assert WithPopularity([x] + t, p) == [h] + WithPopularity(u, p) by {
          WithPopularityCons(x, t, p);
          WithPopularityCons(h, u, p);
        }
      } else {
        assert WithPopularity([x] + t, p) == WithPopularity([x] + u, p) by {
          WithPopularityCons(x, t, p);
          WithPopularityCons(h, u, p);
        }
      }
    }
  }

  /** The sort is stable: for every popularity, the songs with that
      popularity come out in the order they went in. */
  lemma {:induction false} SortIsStable(s: seq<Song>, p: int)
    ensures WithPopularity(SortByPopularity(s), p) == WithPopularity(s, p)
  {
    if s != [] {
      SortIsStable(s[1..], p);
      InsertKeepsTies(s[0], SortByPopularity(s[1..]), p);
    }
  }

  /** Taking the songs of one popularity commutes with the mood filter. */
  lemma {:induction false} MatchingKeepsTies(songs: seq<Song>, mood: string, p: int)
    ensures WithPopularity(MatchingSongs(songs, mood), p)
         == MatchingSongs(WithPopularity(songs, p), mood)
  {
    if songs != [] {
      var h, u := songs[0], songs[1..];
      MatchingKeepsTies(u, mood, p);
      assert songs == [h] + u;
      WithPopularityCons(h, MatchingSongs(u, mood), p);
      if Popularity(h) == p {
        assert WithPopularity(songs, p)[1..] == WithPopularity(u, p);
      }
    }
  }

  /** The sorted matches list the songs of each popularity in catalogue
      order. */
  lemma CatalogueOrderOfTies(songs: seq<Song>, mood: string, p: int)
    ensures WithPopularity(SortByPopularity(MatchingSongs(songs, mood)), p)
         == MatchingSongs(WithPopularity(songs, p), mood)
  {
    SortIsStable(MatchingSongs(songs, mood), p);
    MatchingKeepsTies(songs, mood, p);
  }

  /** The head of a sorted sequence is at least as popular as any of its
      songs. */
  lemma HeadIsMostPopular(u: seq<Song>)
    requires SortedByPopularity(u)
    ensures forall y :: y in u ==> Popularity(y) <= Popularity(u[0])
  {
    forall y | y in u ensures Popularity(y) <= Popularity(u[0]) {
      var k :| 0 <= k < |u| && u[k] == y;
      if k > 0 { assert Popularity(u[k]) <= Popularity(u[0]); }
    }
  }

  /** A sorted sequence is determined by its per-popularity subsequences: any
      two sorted sequences that agree on all of them are equal.  So every
      stable descending sort of the catalogue gives the result of
      `SortByPopularity`. */
  lemma {:induction false} SortedByTiesUnique(t: seq<Song>, u: seq<Song>)
    requires SortedByPopularity(t) && SortedByPopularity(u)
    requires forall p :: WithPopularity(t, p) == WithPopularity(u, p)
    ensures t == u
    decreases |t| + |u|
  {
    if t == [] && u == [] {
    } else if t == [] {
      assert u == [u[0]] + u[1..];
      WithPopularityCons(u[0], u[1..], Popularity(u[0]));
      assert false;
    } else if u == [] {
      assert t == [t[0]] + t[1..];
      WithPopularityCons(t[0], t[1..], Popularity(t[0]));
      assert false;
    } else {
      var a, b := Popularity(t[0]), Popularity(u[0]);
      assert t == [t[0]] + t[1..] && u == [u[0]] + u[1..];
      assert a <= b by {
        WithPopularityCons(t[0], t[1..], a);
        assert WithPopularity(u, a) != [];
        HeadIsMostPopular(u);
        assert WithPopularity(u, a)[0] in WithPopularity(u, a);
      }
      assert b <= a by {
        WithPopularityCons(u[0], u[1..], b);
        assert WithPopularity(t, b) != [];
        HeadIsMostPopular(t);
        assert WithPopularity(t, b)[0] in WithPopularity(t, b);
      }
      assert t[0] == u[0] by {
        WithPopularityCons(t[0], t[1..], a);
        WithPopularityCons(u[0], u[1..], a);
        assert WithPopularity(t, a)[0] == WithPopularity(u, a)[0];
      }
      forall p ensures WithPopularity(t[1..], p) == WithPopularity(u[1..], p) {
        WithPopularityCons(t[0], t[1..], p);
        WithPopularityCons(u[0], u[1..], p);
        assert WithPopularity(t, p) == WithPopularity(u, p);
        if Popularity(t[0]) == p {
          assert WithPopularity(t[1..], p) == WithPopularity(t, p)[1..];
          assert WithPopularity(u[1..], p) == WithPopularity(u, p)[1..];
        }
      }
      SortedByTiesUnique(t[1..], u[1..]);
    }
  }

  /** `t` is a stable descending sort of `s`: sorted, and for every
      popularity the songs of that popularity in input order. */
  ghost predicate StableSortOf(t: seq<Song>, s: seq<Song>) {
    SortedByPopularity(t) && forall p :: WithPopularity(t, p) == WithPopularity(s, p)
  }

  /** `SortByPopularity` is THE stable descending sort: a sequence is its
      result exactly when it is a stable descending sort of the input. */
  lemma StableSortCharacterized(s: seq<Song>, t: seq<Song>)
    ensures t == SortByPopularity(s) <==> StableSortOf(t, s)
  {
    var sorted := SortByPopularity(s);
    forall p ensures WithPopularity(sorted, p) == WithPopularity(s, p) {
      SortIsStable(s, p);
    }
    assert StableSortOf(sorted, s);
    if StableSortOf(t, s) {
      SortedByTiesUnique(t, sorted);
    }
  }

  // ---------------------------------------------------------------------
  // The popular list
  // ---------------------------------------------------------------------

  /** `.slice(0, MAX_POPULAR_RECOMMENDATIONS)` of the sorted copy. */
  function PopularSongs(matching: seq<Song>): (r: seq<Song>)
    ensures |r| == Min(MaxPopularRecommendations, |matching|)
    ensures SortedByPopularity(r)
    ensures forall x :: x in r ==> x in matching
  {
    var sorted := SortByPopularity(matching);
    sorted[..Min(MaxPopularRecommendations, |matching|)]
  }

  /** Each song is picked as popular at most as often as it matches. */
  lemma PopularIsSubMultiset(matching: seq<Song>)
    ensures multiset(PopularSongs(matching)) <= multiset(matching)
  {
    var sorted := SortByPopularity(matching);
    SortPermutes(matching);
    SplitMultiset(sorted, Min(MaxPopularRecommendations, |matching|));
  }

  lemma SplitMultiset<T>(s: seq<T>, k: nat)
    requires k <= |s|
    ensures multiset(s[..k]) + multiset(s[k..]) == multiset(s)
  {
    assert s == s[..k] + s[k..];
  }

  lemma SubMultisetMembers<T>(a: seq<T>, b: seq<T>)
    requires multiset(a) <= multiset(b)
    ensures forall x :: x in a ==> x in b
  {
    forall x | x in a ensures x in b {
      assert x in multiset(a);
    }
  }

  /** The popular list holds the most popular matching songs: no matching
      song left out of it is more popular than a song in it. */
  lemma PopularIsTopK(matching: seq<Song>, x: Song, y: Song)
    requires x in PopularSongs(matching)
    requires y in multiset(matching) - multiset(PopularSongs(matching))
    ensures Popularity(y) <= Popularity(x)
  {
    var sorted := SortByPopularity(matching);
    var k := Min(MaxPopularRecommendations, |matching|);
    var top, bottom := sorted[..k], sorted[k..];
    assert y in bottom by {
      SortPermutes(matching);
      SplitMultiset(sorted, k);
      assert y in multiset(bottom);
    }
    var i :| 0 <= i < k && top[i] == x;
    var j :| 0 <= j < |bottom| && bottom[j] == y;
    assert sorted[i] == x && sorted[k + j] == y;
  }

  // ---------------------------------------------------------------------
  // The random pool and the random list
  // ---------------------------------------------------------------------

  /** `new Set(songs.map(song => song.id))`. */
  function IdsOf(s: seq<Song>): (r: set<Option<string>>)
    ensures forall x :: x in s ==> x.id in r
  {
    set x | x in s :: x.id
  }

  /** `songs.filter(song => !ids.has(song.id))`, in order. */
  function WithoutIds(s: seq<Song>, ids: set<Option<string>>): (r: seq<Song>)
    ensures forall x :: x in r <==> x in s && x.id !in ids
    ensures |r| <= |s|
  {
    if s == [] then []
    else
      var rest := WithoutIds(s[1..], ids);
      assert s == [s[0]] + s[1..];
      if s[0].id !in ids then [s[0]] + rest else rest
  }

  lemma {:induction false} WithoutIdsIsSubMultiset(s: seq<Song>, ids: set<Option<string>>)
    ensures multiset(WithoutIds(s, ids)) <= multiset(s)
  {
    if s != [] {
      var rest := WithoutIds(s[1..], ids);
      WithoutIdsIsSubMultiset(s[1..], ids);
      assert multiset(s) == multiset{s[0]} + multiset(s[1..]) by {
        assert s == [s[0]] + s[1..];
      }
      if s[0].id !in ids {
        assert multiset(WithoutIds(s, ids)) == multiset{s[0]} + multiset(rest);
      }
    }
  }

  /** The id filter keeps every copy of a song whose id is not excluded and
      no copy of any other. */
  lemma {:induction false} WithoutIdsCounts(s: seq<Song>, ids: set<Option<string>>)
    ensures forall x :: multiset(WithoutIds(s, ids))[x]
                     == if x.id !in ids then multiset(s)[x] else 0
  {
    if s != [] {
      WithoutIdsCounts(s[1..], ids);
      assert multiset(s) == multiset{s[0]} + multiset(s[1..]) by {
        assert s == [s[0]] + s[1..];
      }
    }
  }

  lemma WithoutIdsCons(x: Song, t: seq<Song>, ids: set<Option<string>>)
    ensures WithoutIds([x] + t, ids) == (if x.id !in ids then [x] else []) + WithoutIds(t, ids)
  {
    assert ([x] + t)[0] == x && ([x] + t)[1..] == t;
  }

  /** The id filter keeps the order of its input. */
  lemma {:induction false} WithoutIdsAppend(a: seq<Song>, b: seq<Song>, ids: set<Option<string>>)
    ensures WithoutIds(a + b, ids) == WithoutIds(a, ids) + WithoutIds(b, ids)
  {
    if a == [] {
      assert a + b == b;
    } else {
      var x, t := a[0], a[1..];
      var head := if x.id !in ids then [x] else [];
      assert a == [x] + t && a + b == [x] + (t + b);
      WithoutIdsCons(x, t + b, ids);
      WithoutIdsCons(x, t, ids);
      WithoutIdsAppend(t, b, ids);
      ConcatAssociative(head, WithoutIds(t, ids), WithoutIds(b, ids));
    }
  }

  lemma ConcatAssociative<T>(a: seq<T>, b: seq<T>, c: seq<T>)
    ensures a + (b + c) == (a + b) + c
  {
  }

  /** The matching songs whose id no popular song has. */
  function RemainingSongs(matching: seq<Song>, popular: seq<Song>): seq<Song> {
    WithoutIds(matching, IdsOf(popular))
  }

  /** The condition under which the pool is widened back to every matching
      song: too few remaining songs, and more matching songs than popular
      ones. */
  predicate PoolWidened(matching: seq<Song>, popular: seq<Song>) {
    |RemainingSongs(matching, popular)| < MaxRandomRecommendations && |matching| > |popular|
  }

  /** The songs the random list is drawn from. */
  function RandomPool(matching: seq<Song>, popular: seq<Song>): (r: seq<Song>)
    ensures forall x :: x in r ==> x in matching
    ensures PoolWidened(matching, popular) ==> r == matching
    ensures !PoolWidened(matching, popular) ==>
              forall x :: x in r <==> x in matching && x.id !in IdsOf(popular)
  {
    if PoolWidened(matching, popular) then matching else RemainingSongs(matching, popular)
  }

  /** `shuffleArray([...pool]).slice(0, MAX_RANDOM_RECOMMENDATIONS)`: no
      song the pool does not hold, and no song more often than the pool
      holds it. */
  function RandomPicks(pool: seq<Song>, draws: seq<nat>): (r: seq<Song>)
    requires |pool| <= |draws|
    ensures |r| == Min(MaxRandomRecommendations, |pool|)
  {
    Shuffled(pool, draws)[..Min(MaxRandomRecommendations, |pool|)]
  }

  /** No song is drawn more often than the pool holds it. */
  lemma RandomPicksFromPool(pool: seq<Song>, draws: seq<nat>)
    requires |pool| <= |draws|
    ensures multiset(RandomPicks(pool, draws)) <= multiset(pool)
    ensures forall x :: x in RandomPicks(pool, draws) ==> x in pool
  {
    var shuffled := Shuffled(pool, draws);
    ShuffledPermutes(pool, draws);
    SplitMultiset(shuffled, Min(MaxRandomRecommendations, |pool|));
    SubMultisetMembers(RandomPicks(pool, draws), pool);
  }

  // ---------------------------------------------------------------------
  // The selector
  // ---------------------------------------------------------------------

  /** What `recommendSongsByMood(mood)` stores in the two lists, with
      `draws` feeding the shuffle.  Both lists are empty for an empty
      catalogue or an empty label; otherwise every song in them is a
      catalogue song whose mood matches the label, the popular list is
      sorted, and each list holds at most five songs. */
  function Recommendation(mood: string, songs: seq<Song>, draws: seq<nat>): (r: Picks)
    requires |songs| <= |draws|
    ensures songs == [] || mood == "" ==> r == Picks([], [])
    ensures |r.popular| == Min(MaxPopularRecommendations, |MatchingSongs(songs, mood)|)
    ensures |r.popular| <= MaxPopularRecommendations && |r.random| <= MaxRandomRecommendations
    ensures SortedByPopularity(r.popular)
    ensures forall x :: x in r.popular ==> x in songs && MoodMatches(x, mood)
    ensures forall x :: x in r.random ==> x in songs && MoodMatches(x, mood)
  {
    if songs == [] || mood == "" then
      NoneMatching(songs, mood);
      Picks([], [])
    else
      var matching := MatchingSongs(songs, mood);
      var popular := PopularSongs(matching);
      var pool := RandomPool(matching, popular);
      var random := RandomPicks(pool, draws);
      RandomPicksFromPool(pool, draws);
      Picks(popular, random)
  }

  /** `recommendSongsByMood`, with the shuffle done in place on a fresh copy
      of the pool, as the source does. */
  method RecommendSongsByMood(mood: string, songData: seq<Song>, draws: seq<nat>)
    returns (popular: seq<Song>, random: seq<Song>)
    requires |songData| <= |draws|
    ensures Picks(popular, random) == Recommendation(mood, songData, draws)
  {
    if songData == [] || mood == "" {
      return [], [];
    }
    var matching := MatchingSongs(songData, mood);
    popular := PopularSongs(matching);
    var pool := RandomPool(matching, popular);
    random := PickRandom(pool, draws);
  }

  /** `shuffleArray([...pool]).slice(0, MAX_RANDOM_RECOMMENDATIONS)`: the
      shuffle works in place on a fresh copy, never on the pool itself. */
  method PickRandom(pool: seq<Song>, draws: seq<nat>) returns (random: seq<Song>)
    requires |pool| <= |draws|
    ensures random == RandomPicks(pool, draws)
  {
    var copy := new Song[|pool|](i requires 0 <= i < |pool| => pool[i]);
    assert copy[..] == pool;
    ShuffleArray(copy, draws);
    random := copy[..Min(MaxRandomRecommendations, copy.Length)];
  }

  // ---------------------------------------------------------------------
  // What the selector promises
  // ---------------------------------------------------------------------

  /** Neither list holds a song more often than the matching songs do: the
      popular list is drawn from a sorted copy and the random one from a
      shuffled copy of a filter of them. */
  lemma PicksAreSubMultisets(mood: string, songs: seq<Song>, draws: seq<nat>)
    requires |songs| <= |draws|
    ensures var r, matching := Recommendation(mood, songs, draws), MatchingSongs(songs, mood);
            multiset(r.popular) <= multiset(matching) && multiset(r.random) <= multiset(matching)
  {
    if songs != [] && mood != "" {
      var matching := MatchingSongs(songs, mood);
      var popular := PopularSongs(matching);
      var pool := RandomPool(matching, popular);
      PopularIsSubMultiset(matching);
      RandomPicksFromPool(pool, draws);
      WithoutIdsIsSubMultiset(matching, IdsOf(popular));
      assert multiset(pool) <= multiset(matching);
    }
  }

  /** A label no catalogue song matches yields two empty lists. */
  lemma NoMatchNoPicks(mood: string, songs: seq<Song>, draws: seq<nat>)
    requires |songs| <= |draws|
    requires forall x :: x in songs ==> !MoodMatches(x, mood)
    ensures Recommendation(mood, songs, draws) == Picks([], [])
  {
    NoneMatching(songs, mood);
  }

  lemma {:induction false} NoneMatching(songs: seq<Song>, mood: string)
    requires forall x :: x in songs ==> !MoodMatches(x, mood)
    ensures MatchingSongs(songs, mood) == []
  {
    if songs != [] {
      assert songs[0] in songs;
      NoneMatching(songs[1..], mood);
    }
  }

  /** With at most five matching songs, all of them are popular picks, no
      matching song is left over, the pool is not widened (there are no more
      matching songs than popular ones) and the random list stays empty. */
  lemma FewMatchesNoRandom(mood: string, songs: seq<Song>, draws: seq<nat>)
    requires |songs| <= |draws|
    requires |MatchingSongs(songs, mood)| <= MaxPopularRecommendations
    ensures Recommendation(mood, songs, draws).random == []
    ensures multiset(Recommendation(mood, songs, draws).popular) == multiset(MatchingSongs(songs, mood))
  {
    if songs != [] && mood != "" {
      var matching := MatchingSongs(songs, mood);
      var popular := PopularSongs(matching);
      var sorted := SortByPopularity(matching);
      assert popular == sorted[..|matching|] == sorted;
      SortPermutes(matching);
      SubMultisetMembers(matching, popular);
      assert forall x :: x in matching ==> x.id in IdsOf(popular);
      WithoutAllIds(matching, IdsOf(popular));
      assert !PoolWidened(matching, popular);
      assert RandomPool(matching, popular) == [];
    }
  }

  lemma {:induction false} WithoutAllIds(s: seq<Song>, ids: set<Option<string>>)
    requires forall x :: x in s ==> x.id in ids
    ensures WithoutIds(s, ids) == []
  {
    if s != [] {
      assert s[0] in s;
      WithoutAllIds(s[1..], ids);
    }
  }

  lemma IdsOfSubset(a: seq<Song>, b: seq<Song>)
    requires forall x :: x in a ==> x in b
    ensures IdsOf(a) <= IdsOf(b)
  {
    forall i | i in IdsOf(a) ensures i in IdsOf(b) {
      var x :| x in a && x.id == i;
    }
  }

  /** Every catalogue song carries an id of its own. */
  predicate UniqueIds(s: seq<Song>) {
    s == [] || (s[0].id !in IdsOf(s[1..]) && UniqueIds(s[1..]))
  }

  lemma {:induction false} UniqueIdsCount(s: seq<Song>)
    requires UniqueIds(s)
    ensures |IdsOf(s)| == |s|
  {
    if s != [] {
      UniqueIdsCount(s[1..]);
      assert s == [s[0]] + s[1..];
      assert IdsOf(s) == {s[0].id} + IdsOf(s[1..]);
    }
  }

  lemma {:induction false} UniqueIdsPrefix(s: seq<Song>, k: nat)
    requires UniqueIds(s) && k <= |s|
    ensures UniqueIds(s[..k])
  {
    if k > 0 {
      UniqueIdsPrefix(s[1..], k - 1);
      assert s[..k][1..] == s[1..][..k - 1];
      assert IdsOf(s[1..][..k - 1]) <= IdsOf(s[1..]);
    }
  }

  lemma {:induction false} MatchingKeepsUniqueIds(songs: seq<Song>, mood: string)
    requires UniqueIds(songs)
    ensures UniqueIds(MatchingSongs(songs, mood))
  {
    if songs != [] {
      MatchingKeepsUniqueIds(songs[1..], mood);
      var rest := MatchingSongs(songs[1..], mood);
      assert IdsOf(rest) <= IdsOf(songs[1..]);
      if MoodMatches(songs[0], mood) {
        assert ([songs[0]] + rest)[1..] == rest;
      }
    }
  }

  lemma {:induction false} InsertKeepsUniqueIds(x: Song, t: seq<Song>)
    requires SortedByPopularity(t) && UniqueIds(t) && x.id !in IdsOf(t)
    ensures UniqueIds(InsertByPopularity(x, t))
    decreases |t|
  {
    if t == [] || Popularity(t[0]) <= Popularity(x) {
      assert ([x] + t)[1..] == t;
    } else {
      assert t == [t[0]] + t[1..];
      InsertKeepsUniqueIds(x, t[1..]);
      var rest := InsertByPopularity(x, t[1..]);
      assert IdsOf(rest) <= {x.id} + IdsOf(t[1..]);
      assert ([t[0]] + rest)[1..] == rest;
    }
  }

  lemma {:induction false} SortKeepsUniqueIds(s: seq<Song>)
    requires UniqueIds(s)
    ensures UniqueIds(SortByPopularity(s))
  {
    if s != [] {
      SortKeepsUniqueIds(s[1..]);
      var t := SortByPopularity(s[1..]);
      assert IdsOf(t) <= IdsOf(s[1..]);
      InsertKeepsUniqueIds(s[0], t);
    }
  }

  /** Removing a set of ids from a sequence with unique ids removes one song
      per id of the set that the sequence has. */
  lemma {:induction false} WithoutIdsCount(s: seq<Song>, ids: set<Option<string>>)
    requires UniqueIds(s)
    ensures |WithoutIds(s, ids)| + |ids * IdsOf(s)| == |s|
  {
    if s != [] {
      var x, tail := s[0], s[1..];
      WithoutIdsCount(tail, ids);
      IdsOfCons(x, tail);
      assert s == [x] + tail;
      IntersectInsert(ids, x.id, IdsOf(tail));
      assert |WithoutIds(s, ids)| == |WithoutIds(tail, ids)| + if x.id in ids then 0 else 1;
    }
  }

  lemma IntersectInsert<T>(a: set<T>, y: T, b: set<T>)
    requires y !in b
    ensures |a * ({y} + b)| == |a * b| + if y in a then 1 else 0
  {
    if y in a {
      assert a * ({y} + b) == {y} + a * b;
    } else {
      assert a * ({y} + b) == a * b;
    }
  }

  lemma IdsOfCons(x: Song, tail: seq<Song>)
    ensures IdsOf([x] + tail) == {x.id} + IdsOf(tail)
  {
    var s := [x] + tail;
    forall i | i in IdsOf(s) ensures i in {x.id} + IdsOf(tail) {
      var y :| y in s && y.id == i;
      if y != x { assert y in tail; }
    }
  }

  /** With unique ids, removing the popular songs' ids leaves exactly the
      matching songs that are not popular. */
  lemma RemainingCount(songs: seq<Song>, mood: string)
    requires UniqueIds(songs)
    ensures var matching := MatchingSongs(songs, mood);
            |RemainingSongs(matching, PopularSongs(matching))| == |matching| - |PopularSongs(matching)|
  {
    var matching := MatchingSongs(songs, mood);
    var popular := PopularSongs(matching);
    MatchingKeepsUniqueIds(songs, mood);
    PopularKeepsUniqueIds(matching);
    WithoutOwnIdsCount(matching, popular);
  }

  /** Removing from `s` the ids of some of its own songs removes exactly
      those songs, when ids are unique. */
  lemma WithoutOwnIdsCount(s: seq<Song>, part: seq<Song>)
    requires UniqueIds(s) && UniqueIds(part)
    requires forall x :: x in part ==> x in s
    ensures |WithoutIds(s, IdsOf(part))| == |s| - |part|
  {
    UniqueIdsCount(part);
    IdsOfSubset(part, s);
    assert IdsOf(part) * IdsOf(s) == IdsOf(part);
    WithoutIdsCount(s, IdsOf(part));
  }

  lemma PopularKeepsUniqueIds(matching: seq<Song>)
    requires UniqueIds(matching)
    ensures UniqueIds(PopularSongs(matching))
  {
    var sorted := SortByPopularity(matching);
    SortKeepsUniqueIds(matching);
    UniqueIdsPrefix(sorted, Min(MaxPopularRecommendations, |matching|));
  }

  /** With unique ids, the pool is widened exactly when more than five but
      fewer than ten catalogue songs match. */
  lemma WidenedExactlyBetweenLimits(songs: seq<Song>, mood: string)
    requires UniqueIds(songs)
    ensures var matching := MatchingSongs(songs, mood);
            (PoolWidened(matching, PopularSongs(matching)) <==>
               MaxPopularRecommendations < |matching| < MaxPopularRecommendations + MaxRandomRecommendations)
  {
    RemainingCount(songs, mood);
  }

  /** With unique ids and at least ten matching songs, the popular and the
      random list share no id. */
  lemma ManyMatchesDisjoint(mood: string, songs: seq<Song>, draws: seq<nat>)
    requires |songs| <= |draws| && UniqueIds(songs)
    requires |MatchingSongs(songs, mood)| >= MaxPopularRecommendations + MaxRandomRecommendations
    ensures var r := Recommendation(mood, songs, draws);
            forall x, y :: x in r.popular && y in r.random ==> x.id != y.id
  {
    var matching := MatchingSongs(songs, mood);
    var popular := PopularSongs(matching);
    WidenedExactlyBetweenLimits(songs, mood);
    var pool := RandomPool(matching, popular);
    var random := RandomPicks(pool, draws);
    RandomPicksFromPool(pool, draws);
    assert forall y :: y in random ==> y.id !in IdsOf(popular);
  }

  /** With more than five matching songs the random list is full, whatever
      the ids: widening the pool is what fills it when fewer than five songs
      remain outside the popular list (for instance when no song has an id). */
  lemma ManyMatchesFullRandom(mood: string, songs: seq<Song>, draws: seq<nat>)
    requires |songs| <= |draws|
    requires |MatchingSongs(songs, mood)| > MaxPopularRecommendations
    ensures |Recommendation(mood, songs, draws).random| == MaxRandomRecommendations
  {
    var matching := MatchingSongs(songs, mood);
    assert matching[0] in songs && MoodMatches(matching[0], mood);
  }
}

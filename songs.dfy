/** A record of the song catalogue (`data_moods.json`) and the mood comparison
    used by the recommendation selector of `App.js`. */
module Songs {
  import opened Wrappers

  /** One catalogue entry.  `id` is `None` where the JSON record has no id
      (JavaScript's `undefined`: all such ids are equal to each other).
      `mood` is `""` where the record has no mood (both are falsy in the
      source).  `popularity` is `None` where the record has none. */
  datatype Song = Song(
    id: Option<string>,
    name: string,
    artist: string,
    album: string,
    mood: string,
    popularity: Option<int>)

  /** The sort key of the selector: `popularity || 0`. */
  function Popularity(s: Song): int {
    s.popularity.GetOr(0)
  }

  /** `String.prototype.toLowerCase` on one character, restricted to ASCII. */
  function LowerChar(c: char): (r: char)
    ensures 'A' <= c <= 'Z' ==> 'a' <= r <= 'z' && r as int == c as int + 32
    ensures !('A' <= c <= 'Z') ==> r == c
  {
    if 'A' <= c <= 'Z' then (c as int - 'A' as int + 'a' as int) as char else c
  }

  function ToLower(s: string): (r: string)
    ensures |r| == |s|
    ensures forall i :: 0 <= i < |s| ==> r[i] == LowerChar(s[i])
  {
    if s == [] then [] else [LowerChar(s[0])] + ToLower(s[1..])
  }

  /** The filter predicate of `recommendSongsByMood`:
      `song.mood && mood && song.mood.toLowerCase() === mood.toLowerCase()`. */
  predicate MoodMatches(s: Song, mood: string) {
    s.mood != "" && mood != "" && ToLower(s.mood) == ToLower(mood)
  }

  /** Matching is case-insensitive: it depends on the label only through its
      lower-cased form. */
  lemma MoodMatchesIgnoresCase(s: Song, mood: string, other: string)
    requires ToLower(mood) == ToLower(other)
    ensures MoodMatches(s, mood) <==> MoodMatches(s, other)
  {
    if mood == "" { assert |other| == |ToLower(other)| == 0; }
    if other == "" { assert |mood| == |ToLower(mood)| == 0; }
  }
}

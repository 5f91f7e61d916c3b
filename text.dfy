/** The string operations behind every search box: `toLowerCase` (restricted to
    ASCII letters) and `String.prototype.includes`, combined into the
    case-insensitive substring test the pages filter with. */
module Text {

  function LowerChar(c: char): char {
    if 'A' <= c <= 'Z' then (c as int + 32) as char else c
  }

  predicate IsLower(s: string) {
    forall i :: 0 <= i < |s| ==> !('A' <= s[i] <= 'Z')
  }

  /** `s.toLowerCase()` over ASCII: same length, every upper-case letter
      replaced by its lower-case letter, every other character kept. */
  function ToLower(s: string): (r: string)
    ensures |r| == |s| && IsLower(r)
    ensures forall i :: 0 <= i < |s| && 'A' <= s[i] <= 'Z' ==> r[i] as int == s[i] as int + 32
    ensures forall i :: 0 <= i < |s| && !('A' <= s[i] <= 'Z') ==> r[i] == s[i]
  {
    if s == [] then [] else [LowerChar(s[0])] + ToLower(s[1..])
  }

  lemma {:induction false} ToLowerIdempotent(s: string)
    ensures ToLower(ToLower(s)) == ToLower(s)
  {
    if s != [] {
      ToLowerIdempotent(s[1..]);
      assert ToLower(s)[1..] == ToLower(s[1..]);
    }
  }

  /** `needle` occurs in `hay` starting at position `i`. */
  predicate OccursAt(hay: string, needle: string, i: int) {
    0 <= i && i + |needle| <= |hay| && hay[i..i + |needle|] == needle
  }

  /** `hay.includes(needle)`. */
  function Includes(hay: string, needle: string): (r: bool)
    ensures r <==> exists i :: OccursAt(hay, needle, i)
    decreases |hay|
  {
    if |needle| <= |hay| && hay[..|needle|] == needle then
      assert OccursAt(hay, needle, 0);
      true
    else if hay == [] then
      false
    else
      var r := Includes(hay[1..], needle);
      if r then
        var i :| OccursAt(hay[1..], needle, i);
        assert hay[1..][i..i + |needle|] == hay[i + 1..i + 1 + |needle|];
        assert OccursAt(hay, needle, i + 1);
        true
      else
        assert forall i :: OccursAt(hay, needle, i) ==> i >= 1 && OccursAt(hay[1..], needle, i - 1) by {
          forall i | OccursAt(hay, needle, i) ensures i >= 1 && OccursAt(hay[1..], needle, i - 1) {
            assert hay[1..][i - 1..i - 1 + |needle|] == hay[i..i + |needle|];
          }
        }
        false
  }

  /** The search test of every page: `field.toLowerCase().includes(query.toLowerCase())`.
      It holds exactly when the lowered query occurs somewhere in the lowered
      field, so a query longer than the field never matches. */
  function MatchesQuery(field: string, query: string): (r: bool)
    ensures r ==> exists i :: OccursAt(ToLower(field), ToLower(query), i)
    ensures (exists i :: OccursAt(ToLower(field), ToLower(query), i)) ==> r
    ensures |query| > |field| ==> !r
  {
    Includes(ToLower(field), ToLower(query))
  }

  /** An empty search box matches every field. */
  lemma EmptyQueryMatches(field: string)
    ensures MatchesQuery(field, "")
  {
    assert OccursAt(ToLower(field), "", 0);
  }

  /** A field contains itself, whatever its case. */
  lemma MatchesItself(field: string)
    ensures MatchesQuery(field, field)
  {
    assert ToLower(field)[0..|field|] == ToLower(field);
    assert OccursAt(ToLower(field), ToLower(field), 0);
  }

  /** The test ignores case on both sides: lowering either argument first changes nothing. */
  lemma MatchesIgnoresCase(field: string, query: string)
    ensures MatchesQuery(ToLower(field), query) == MatchesQuery(field, query)
    ensures MatchesQuery(field, ToLower(query)) == MatchesQuery(field, query)
  {
    ToLowerIdempotent(field);
    ToLowerIdempotent(query);
  }
}

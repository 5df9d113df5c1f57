/**
 * Strings and the database's case-insensitive `contains` match,
 * restricted to ASCII: both sides are lower-cased, then searched.
 */
module Text {

  /** ASCII lower-casing of one character; every other character is kept. */
  function LowerChar(c: char): (r: char)
    ensures 'A' <= c <= 'Z' ==> r as int == c as int + 32
    ensures !('A' <= c <= 'Z') ==> r == c
    ensures !('A' <= r <= 'Z')
  {
    if 'A' <= c <= 'Z' then (c as int + 32) as char else c
  }

  function Lower(s: string): (r: string)
    ensures |r| == |s|
    ensures forall i :: 0 <= i < |s| ==> r[i] == LowerChar(s[i])
  {
    seq(|s|, i requires 0 <= i < |s| => LowerChar(s[i]))
  }

  /** `needle` occurs in `hay` as a contiguous block (SQL `LIKE '%needle%'`). */
  predicate Contains(hay: string, needle: string)
    decreases |hay|
  {
    needle <= hay || (hay != [] && Contains(hay[1..], needle))
  }

  /** The recursive definition agrees with "some offset of hay starts with needle". */
  lemma {:induction false} ContainsAtOffset(hay: string, needle: string)
    ensures Contains(hay, needle) <==> exists i :: 0 <= i <= |hay| && needle <= hay[i..]
    decreases |hay|
  {
    if Contains(hay, needle) {
      if !(needle <= hay) {
        ContainsAtOffset(hay[1..], needle);
        var i :| 0 <= i <= |hay[1..]| && needle <= hay[1..][i..];
        assert hay[1..][i..] == hay[i + 1..];
      } else {
        assert hay[0..] == hay;
      }
    }
    if exists i :: 0 <= i <= |hay| && needle <= hay[i..] {
      var i :| 0 <= i <= |hay| && needle <= hay[i..];
      if i == 0 {
        assert hay[0..] == hay;
      } else {
        assert hay[1..][i - 1..] == hay[i..];
        ContainsAtOffset(hay[1..], needle);
      }
    }
  }

  /** Prisma's `{ contains: needle, mode: "insensitive" }` on ASCII text. */
  predicate ContainsInsensitive(hay: string, needle: string)
    ensures needle == "" ==> ContainsInsensitive(hay, needle)
    ensures Lower(needle) <= Lower(hay) ==> ContainsInsensitive(hay, needle)
  {
    Contains(Lower(hay), Lower(needle))
  }

  /** ASCII upper-casing, used only to state what "ignoring case" means. */
  function Upper(s: string): (r: string)
    ensures |r| == |s|
    ensures forall i :: 0 <= i < |s| ==> ('a' <= s[i] <= 'z' ==> r[i] as int == s[i] as int - 32)
    ensures forall i :: 0 <= i < |s| ==> (!('a' <= s[i] <= 'z') ==> r[i] == s[i])
  {
    seq(|s|, i requires 0 <= i < |s| => if 'a' <= s[i] <= 'z' then (s[i] as int - 32) as char else s[i])
  }

  /**
   * The match ignores case on both sides: capitalising the searched text or
   * the search term does not change whether it matches.
   */
  lemma {:induction false} InsensitiveToCase(hay: string, needle: string)
    ensures ContainsInsensitive(Upper(hay), needle) <==> ContainsInsensitive(hay, needle)
    ensures ContainsInsensitive(hay, Upper(needle)) <==> ContainsInsensitive(hay, needle)
  {
    assert Lower(Upper(hay)) == Lower(hay);
    assert Lower(Upper(needle)) == Lower(needle);
  }
}

/**
 * The two pieces of the platform's string library that the channel search
 * relies on: lower-casing a string and testing whether one string contains
 * another. Lower-casing is modelled on ASCII letters only.
 */
module Text {

  /** Lower-cases one character: 'A'..'Z' become 'a'..'z', every other character is kept. */
  function Lower(c: char): (r: char)
    ensures 'A' <= c <= 'Z' ==> 'a' <= r <= 'z' && r as int - c as int == 32
    ensures !('A' <= c <= 'Z') ==> r == c
    ensures !('A' <= r <= 'Z')
  {
    if 'A' <= c <= 'Z' then (c as int + 32) as char else c
  }

  /** Lower-cases a string character by character. */
  function LowerStr(s: string): (r: string)
    ensures |r| == |s|
    ensures forall i :: 0 <= i < |s| ==> r[i] == Lower(s[i])
  {
    if s == [] then [] else [Lower(s[0])] + LowerStr(s[1..])
  }

  /** Lower-casing an already lower-cased string changes nothing. */
  lemma LowerStrIdempotent(s: string)
    ensures LowerStr(LowerStr(s)) == LowerStr(s)
  {
    var once := LowerStr(s);
    var twice := LowerStr(once);
    assert forall i :: 0 <= i < |s| ==> twice[i] == Lower(once[i]) == once[i];
  }

  /** A lower-cased string is empty exactly when the original is. */
  lemma LowerStrEmpty(s: string)
    ensures LowerStr(s) == [] <==> s == []
  {
    assert |LowerStr(s)| == |s|;
  }

  /** `query` occurs in `name` starting at offset `i`. */
  ghost predicate OccursAt(name: string, query: string, i: int)
  {
    0 <= i && i + |query| <= |name| && name[i..i + |query|] == query
  }

  /** Substring containment as a specification: `query` occurs in `name` at some offset. */
  ghost predicate IsSubstring(name: string, query: string)
  {
    exists i :: OccursAt(name, query, i)
  }

  /**
   * Executable containment test: does `name` contain `query`? The empty
   * query is contained in every name, and no query longer than the name is.
   */
  predicate Contains(name: string, query: string)
    ensures query == [] ==> Contains(name, query)
    ensures Contains(name, query) ==> |query| <= |name|
    decreases |name|
  {
    |query| <= |name| && (name[..|query|] == query || Contains(name[1..], query))
  }

  /** The executable test agrees with the specification, in both directions. */
  lemma {:induction false} ContainsIsSubstring(name: string, query: string)
    ensures Contains(name, query) <==> IsSubstring(name, query)
    decreases |name|
  {
    if |query| > |name| {
      // No offset leaves room for the query.
    } else if name[..|query|] == query {
      assert OccursAt(name, query, 0);
    } else {
      var rest := name[1..];
      ContainsIsSubstring(rest, query);
      if IsSubstring(name, query) {
        var i :| OccursAt(name, query, i);
        assert i != 0 by { assert name[0..0 + |query|] == name[..|query|]; }
        assert rest[i - 1..i - 1 + |query|] == name[i..i + |query|];
        assert OccursAt(rest, query, i - 1);
      }
      if IsSubstring(rest, query) {
        var j :| OccursAt(rest, query, j);
        assert name[j + 1..j + 1 + |query|] == rest[j..j + |query|];
        assert OccursAt(name, query, j + 1);
      }
    }
  }

  /** Every string contains the empty string. */
  lemma ContainsEmpty(name: string)
    ensures Contains(name, "")
  {
    assert name[..0] == "";
  }
}

/**
 * The two JavaScript string primitives the drizzle test fixture relies on:
 * `String.prototype.indexOf` and `String.prototype.replace` with a string
 * (not a regular expression) as pattern.
 */
module Text {
  import opened Wrappers

  /** `p` occurs in `s` starting at index `i`. */
  predicate OccursAt(s: string, p: string, i: nat)
  {
    i + |p| <= |s| && s[i..i + |p|] == p
  }

  /** `p` occurs somewhere in `s`. */
  predicate Contains(s: string, p: string)
  {
    exists i: nat | i <= |s| :: OccursAt(s, p, i)
  }

  /** The first index at or after `from` where `p` occurs in `s`, if any. */
  function IndexOfFrom(s: string, p: string, from: nat): (r: Option<nat>)
    ensures r.Some? ==> from <= r.value && OccursAt(s, p, r.value)
    ensures forall j: nat :: from <= j && (r.None? || j < r.value) ==> !OccursAt(s, p, j)
    decreases |s| - from
  {
    if |s| < from + |p| then None
    else if s[from..from + |p|] == p then Some(from)
    else IndexOfFrom(s, p, from + 1)
  }

  /** `s.indexOf(p)`, with -1 written as None. */
  function IndexOf(s: string, p: string): (r: Option<nat>)
    ensures r.None? <==> !Contains(s, p)
    ensures r.Some? ==> OccursAt(s, p, r.value) && forall j: nat :: j < r.value ==> !OccursAt(s, p, j)
  {
    IndexOfFrom(s, p, 0)
  }

  /**
   * `s.replace(p, rep)` for a string pattern `p`: only the first occurrence is
   * replaced; without an occurrence the string is returned as it is. A
   * replacement without `$` is inserted literally; the `$&`, `$$`, `` $` ``
   * and `$'` substitutions are not modelled, so `rep` may not contain `$`.
   */
  function Replace(s: string, p: string, rep: string): (r: string)
    requires '$' !in rep
    ensures !Contains(s, p) ==> r == s
    ensures forall i: nat ::
      OccursAt(s, p, i) && (forall j: nat :: j < i ==> !OccursAt(s, p, j)) ==>
        r == s[..i] + rep + s[i + |p|..]
  {
    match IndexOf(s, p)
    case None => s
    case Some(i) => s[..i] + rep + s[i + |p|..]
  }

  /** A pattern placed between two texts occurs right after the first one. */
  lemma OccursBetween(a: string, p: string, b: string)
    ensures OccursAt(a + p + b, p, |a|) && Contains(a + p + b, p)
  {
    assert (a + p + b)[|a|..|a| + |p|] == p;
    assert OccursAt(a + p + b, p, |a|);
  }

  /**
   * Deleting an occurrence of `p` at `i` loses nothing else: putting `p` back
   * at `i` restores `s`, and occurrences after the deleted one move `|p|` to
   * the left.
   */
  lemma DeletionKeepsRest(s: string, p: string, i: nat)
    requires OccursAt(s, p, i)
    ensures var r := s[..i] + s[i + |p|..];
      && r[..i] + p + r[i..] == s
      && forall j: nat :: i + |p| <= j && OccursAt(s, p, j) ==> OccursAt(r, p, j - |p|)
  {
    var n := |p|;
    var r := s[..i] + s[i + n..];
    assert r[..i] == s[..i] && r[i..] == s[i + n..];
    assert s == s[..i] + s[i..i + n] + s[i + n..];
    forall j: nat | i + n <= j && OccursAt(s, p, j)
      ensures OccursAt(r, p, j - n)
    {
      assert r[j - n..j] == s[j..j + n];
    }
  }

  /**
   * Replacing the first occurrence, at `i`, by nothing: re-inserting the
   * pattern at `i` gives back the input, and every later occurrence is still
   * there, `|p|` characters earlier.
   */
  lemma DeleteFirstKeepsRest(s: string, p: string, i: nat)
    requires OccursAt(s, p, i) && forall j: nat :: j < i ==> !OccursAt(s, p, j)
    ensures var r := Replace(s, p, "");
      && r == s[..i] + s[i + |p|..]
      && r[..i] + p + r[i..] == s
      && forall j: nat :: i + |p| <= j && OccursAt(s, p, j) ==> OccursAt(r, p, j - |p|)
  {
    assert s[..i] + "" == s[..i];
    DeletionKeepsRest(s, p, i);
  }
}

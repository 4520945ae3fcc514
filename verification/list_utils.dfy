/**
 * The list and string helpers of controllers/utils.go: a linear search, the
 * removal of one slice element by shifting the backing array, and the
 * replacement of every white-space rune by a plain space.
 */
module ListUtils {

  // ---------------------------------------------------------------------------
  // findElement

  /** findElement: the first index holding `element`, or -1. */
  method FindElement(list: seq<string>, element: string) returns (r: int)
    ensures -1 <= r < |list|
    ensures r >= 0 ==> list[r] == element
    ensures forall j :: 0 <= j < |list| && (r == -1 || j < r) ==> list[j] != element
    ensures r == -1 <==> element !in list
  {
    for i := 0 to |list|
      invariant forall j :: 0 <= j < i ==> list[j] != element
    {
      if list[i] == element {
        return i;
      }
    }
    return -1;
  }

  // ---------------------------------------------------------------------------
  // removeElement

  /** The slice removeElement returns: every element but the one at `i`, in order. */
  function Without<T>(s: seq<T>, i: nat): (r: seq<T>)
    requires i < |s|
    ensures |r| == |s| - 1
    ensures forall j :: 0 <= j < |r| ==> r[j] == (if j < i then s[j] else s[j + 1])
  {
    s[..i] + s[i + 1..]
  }

  /** Removing one index loses exactly that one element. */
  lemma WithoutMultiset<T>(s: seq<T>, i: nat)
    requires i < |s|
    ensures multiset(Without(s, i)) + multiset{s[i]} == multiset(s)
  {
    assert s == s[..i] + [s[i]] + s[i + 1..];
  }

  /**
   * removeElement: `append(list[:i], list[i+1:]...)` copies the tail one slot
   * to the left inside the caller's own backing array. The returned slice is
   * the first `len` slots; the last slot keeps its old value, so the caller's
   * slice now holds the tail's last element twice.
   */
  method RemoveElement(a: array<string>, i: nat) returns (len: nat)
    requires i < a.Length
    modifies a
    ensures len == a.Length - 1
    ensures a[..len] == Without(old(a[..]), i)
    ensures a[len] == old(a[a.Length - 1])
  {
    len := a.Length - 1;
    var k := i;
    while k < len
      invariant i <= k <= len
      invariant a[..i] == old(a[..i])
      invariant forall j :: i <= j < k ==> a[j] == old(a[j + 1])
      invariant forall j :: k <= j < a.Length ==> a[j] == old(a[j])
    {
      a[k] := a[k + 1];
      k := k + 1;
    }
    assert forall j :: 0 <= j < len ==> a[j] == Without(old(a[..]), i)[j];
  }

  // ---------------------------------------------------------------------------
  // TabToSpace

  /**
   * unicode.IsSpace: the Latin-1 spaces '\t', '\n', '\v', '\f', '\r', ' ',
   * U+0085 and U+00A0, and above Latin-1 the characters with the Unicode
   * White_Space property.
   */
  predicate IsSpace(c: char) {
    c == '\t' || c == '\n' || c == '\U{B}' || c == '\U{C}' || c == '\r' || c == ' ' ||
    c == '\U{85}' || c == '\U{A0}' || c == '\U{1680}' ||
    ('\U{2000}' <= c <= '\U{200A}') || c == '\U{2028}' || c == '\U{2029}' || c == '\U{202F}' ||
    c == '\U{205F}' || c == '\U{3000}'
  }

  /** The text with every white-space rune replaced by ' '. */
  function Spaced(s: string): (r: string)
    ensures |r| == |s|
    ensures forall i :: 0 <= i < |s| ==> r[i] == (if IsSpace(s[i]) then ' ' else s[i])
  {
    if s == [] then [] else [if IsSpace(s[0]) then ' ' else s[0]] + Spaced(s[1..])
  }

  /** Replacing spaces again changes nothing, because ' ' is itself a space. */
  lemma {:induction false} SpacedIdempotent(s: string)
    ensures Spaced(Spaced(s)) == Spaced(s)
  {
    if s != [] {
      SpacedIdempotent(s[1..]);
      assert Spaced(s)[1..] == Spaced(s[1..]);
    }
  }

  /** After the replacement, the only white space left is ' '. */
  lemma SpacedOnlyPlainSpaces(s: string)
    ensures forall c :: c in Spaced(s) && IsSpace(c) ==> c == ' '
  {
  }

  /** TabToSpace: one piece per rune, joined. */
  method TabToSpace(input: string) returns (r: string)
    ensures r == Spaced(input)
  {
    r := "";
    for i := 0 to |input|
      invariant |r| == i
      invariant forall j :: 0 <= j < i ==> r[j] == (if IsSpace(input[j]) then ' ' else input[j])
    {
      if IsSpace(input[i]) {
        r := r + " ";
      } else {
        r := r + [input[i]];
      }
    }
  }
}

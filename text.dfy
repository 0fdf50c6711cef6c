/**
 * The three string operations the widget relies on: `String.prototype.trim`,
 * `toLowerCase` (ASCII only) and `includes` (substring containment).
 * Strings are sequences of characters.
 */
module Text {

  /** JavaScript's WhiteSpace and LineTerminator code points, which `trim` removes. */
  predicate IsWhitespace(c: char) {
    var n := c as int;
    n == 0x09 || n == 0x0A || n == 0x0B || n == 0x0C || n == 0x0D || n == 0x20 ||
    n == 0xA0 || n == 0x1680 || (0x2000 <= n <= 0x200A) || n == 0x2028 || n == 0x2029 ||
    n == 0x202F || n == 0x205F || n == 0x3000 || n == 0xFEFF
  }

  predicate IsBlank(s: string) {
    forall i :: 0 <= i < |s| ==> IsWhitespace(s[i])
  }

  /** Drops leading whitespace: what is left is a suffix of `s` that starts with a non-blank. */
  function TrimStart(s: string): (r: string)
    ensures |r| <= |s| && r == s[|s| - |r|..]
    ensures forall i :: 0 <= i < |s| - |r| ==> IsWhitespace(s[i])
    ensures r == [] || !IsWhitespace(r[0])
    decreases |s|
  {
    if s != [] && IsWhitespace(s[0]) then TrimStart(s[1..]) else s
  }

  /** Drops trailing whitespace: what is left is a prefix of `s` that ends with a non-blank. */
  function TrimEnd(s: string): (r: string)
    ensures |r| <= |s| && r == s[..|r|]
    ensures forall i :: |r| <= i < |s| ==> IsWhitespace(s[i])
    ensures r == [] || !IsWhitespace(r[|r| - 1])
    decreases |s|
  {
    if s != [] && IsWhitespace(s[|s| - 1]) then TrimEnd(s[..|s| - 1]) else s
  }

  /** `r` is the block of `s` at position `i`, and everything around it is whitespace. */
  ghost predicate TrimmedAt(r: string, s: string, i: int) {
    && OccursAt(r, s, i)
    && (forall j :: 0 <= j < i ==> IsWhitespace(s[j]))
    && (forall j :: i + |r| <= j < |s| ==> IsWhitespace(s[j]))
  }

  /**
   * `String.prototype.trim`: the contiguous block of `s` left after removing
   * whitespace at both ends; it is empty exactly when `s` is blank.
   */
  function Trim(s: string): (r: string)
    ensures exists i :: TrimmedAt(r, s, i)
    ensures r == [] || (!IsWhitespace(r[0]) && !IsWhitespace(r[|r| - 1]))
    ensures r == [] <==> IsBlank(s)
  {
    var t := TrimStart(s);
    var r := TrimEnd(t);
    assert TrimmedAt(r, s, |s| - |t|) by {
      forall j | |s| - |t| + |r| <= j < |s| ensures IsWhitespace(s[j]) {
        assert s[j] == t[j - (|s| - |t|)];
      }
    }
    r
  }

  /** A string with no whitespace in it is its own trim. */
  lemma TrimNoWhitespace(s: string)
    requires forall j :: 0 <= j < |s| ==> !IsWhitespace(s[j])
    ensures Trim(s) == s
  {
    var i :| TrimmedAt(Trim(s), s, i);
    assert i == 0 && |Trim(s)| == |s|;
  }

  /** Lower-cases the ASCII letters A-Z and leaves every other character alone. */
  function LowerChar(c: char): char {
    if 'A' <= c <= 'Z' then (c as int + 32) as char else c
  }

  /**
   * `toLowerCase` over ASCII: no upper-case ASCII letter is left, each one is
   * replaced by its lower-case partner, and every other character stays put.
   */
  function ToLower(s: string): (r: string)
    ensures |r| == |s|
    ensures forall i :: 0 <= i < |r| ==> !('A' <= r[i] <= 'Z')
    ensures forall i :: 0 <= i < |s| && 'A' <= s[i] <= 'Z' ==> r[i] as int == s[i] as int + 32
    ensures forall i :: 0 <= i < |s| && !('A' <= s[i] <= 'Z') ==> r[i] == s[i]
  {
    seq(|s|, i requires 0 <= i < |s| => LowerChar(s[i]))
  }

  /** Lower-casing an already lower-cased string changes nothing. */
  lemma ToLowerIdempotent(s: string)
    ensures ToLower(ToLower(s)) == ToLower(s)
  {
    var t := ToLower(s);
    forall i | 0 <= i < |t| ensures ToLower(t)[i] == t[i] {
      assert !('A' <= t[i] <= 'Z');
    }
  }

  /** `k` occurs in `s` as a contiguous block starting at position `i`. */
  ghost predicate OccursAt(k: string, s: string, i: int) {
    0 <= i && i + |k| <= |s| && s[i..i + |k|] == k
  }

  /** The reference definition of "`k` occurs somewhere in `s`". */
  ghost predicate IsSubstring(k: string, s: string) {
    exists i :: OccursAt(k, s, i)
  }

  /** `s.includes(k)`, computed by trying each start position in turn. */
  function Includes(s: string, k: string): (r: bool)
    ensures r <==> IsSubstring(k, s)
    decreases |s|
  {
    if k <= s then
      assert OccursAt(k, s, 0);
      true
    else if s == [] then
      false
    else
      IncludesTail(s, k);
      Includes(s[1..], k)
  }

  /** When `k` is not a prefix of non-empty `s`, it occurs in `s` iff it occurs in `s[1..]`. */
  lemma IncludesTail(s: string, k: string)
    requires s != [] && !(k <= s)
    ensures IsSubstring(k, s) <==> IsSubstring(k, s[1..])
  {
    if IsSubstring(k, s) {
      var i :| OccursAt(k, s, i);
      assert i != 0;
      assert s[1..][i - 1..i - 1 + |k|] == s[i..i + |k|];
      assert OccursAt(k, s[1..], i - 1);
    }
    if IsSubstring(k, s[1..]) {
      var i :| OccursAt(k, s[1..], i);
      assert s[i + 1..i + 1 + |k|] == s[1..][i..i + |k|];
      assert OccursAt(k, s, i + 1);
    }
  }

  /** A string that holds a character `s` lacks is not included in `s`. */
  lemma MissingCharExcludes(s: string, k: string, c: char)
    requires c in k && c !in s
    ensures !Includes(s, k)
  {
    var j :| 0 <= j < |k| && k[j] == c;
    forall i | 0 <= i && i + |k| <= |s| ensures !OccursAt(k, s, i) {
      assert s[i..i + |k|][j] == s[i + j] != c;
    }
  }
}

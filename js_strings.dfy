/** JavaScript's `String.prototype.trim`, which the kanban board applies to new task text. */
module JsStrings {

  /** The characters `trim` strips: ECMAScript's WhiteSpace (tab, vertical tab,
      form feed, the byte-order mark and every space separator) and its
      LineTerminator characters. */
  predicate IsWhiteSpace(c: char)
  {
    var n := c as int;
    || n == 0x09 || n == 0x0A || n == 0x0B || n == 0x0C || n == 0x0D
    || n == 0x20 || n == 0xA0 || n == 0x1680
    || (0x2000 <= n <= 0x200A)
    || n == 0x2028 || n == 0x2029 || n == 0x202F || n == 0x205F
    || n == 0x3000 || n == 0xFEFF
  }

  /** `s` without its leading white space: a suffix of `s` that starts with a
      non-white-space character (or is empty), all of whose dropped prefix is white space. */
  function TrimStart(s: string): (r: string)
    ensures |r| <= |s| && r == s[|s| - |r|..]
    ensures r == [] || !IsWhiteSpace(r[0])
    ensures forall i :: 0 <= i < |s| - |r| ==> IsWhiteSpace(s[i])
  {
    if s != [] && IsWhiteSpace(s[0]) then TrimStart(s[1..]) else s
  }

  /** `s` without its trailing white space: a prefix of `s` that ends with a
      non-white-space character (or is empty), all of whose dropped suffix is white space. */
  function TrimEnd(s: string): (r: string)
    ensures |r| <= |s| && r == s[..|r|]
    ensures r == [] || !IsWhiteSpace(r[|r| - 1])
    ensures forall i :: |r| <= i < |s| ==> IsWhiteSpace(s[i])
  {
    if s != [] && IsWhiteSpace(s[|s| - 1]) then TrimEnd(s[..|s| - 1]) else s
  }

  /** `s.trim()`. */
  function Trim(s: string): (r: string)
  {
    TrimEnd(TrimStart(s))
  }

  /** Trimming yields the empty string exactly when the input is blank (empty or all white space). */
  lemma TrimIsEmptyIff(s: string)
    ensures Trim(s) == [] <==> forall i :: 0 <= i < |s| ==> IsWhiteSpace(s[i])
  {
    var t := TrimStart(s);
    if Trim(s) == [] {
      assert t == [];
    }
  }

  /** Trimming the end keeps the first character when anything is left. */
  lemma TrimEndKeepsHead(t: string)
    ensures TrimEnd(t) != [] ==> t != [] && TrimEnd(t)[0] == t[0]
  {
    var r := TrimEnd(t);
    if r != [] {
      assert r[0] == t[..|r|][0];
    }
  }

  /** `r` is the slice of `s` starting at `lo`, with only white space before and after it. */
  ghost predicate IsCoreAt(s: string, lo: nat, r: string)
  {
    && lo + |r| <= |s| && r == s[lo..lo + |r|]
    && (forall i :: 0 <= i < lo ==> IsWhiteSpace(s[i]))
    && (forall i :: lo + |r| <= i < |s| ==> IsWhiteSpace(s[i]))
  }

  /** A prefix `r` of a suffix `t` of `s` is the slice of `s` where `t` starts;
      white space before `t` in `s`, and after `r` in `t`, surrounds that slice in `s`. */
  lemma PieceOf(s: string, t: string, r: string)
    requires |t| <= |s| && t == s[|s| - |t|..]
    requires forall i :: 0 <= i < |s| - |t| ==> IsWhiteSpace(s[i])
    requires |r| <= |t| && r == t[..|r|]
    requires forall i :: |r| <= i < |t| ==> IsWhiteSpace(t[i])
    ensures IsCoreAt(s, |s| - |t|, r)
  {
    var lo := |s| - |t|;
    forall i | lo + |r| <= i < |s| ensures IsWhiteSpace(s[i]) {
      assert s[i] == t[i - lo];
    }
  }

  /** The trimmed text neither starts nor ends with white space. */
  lemma TrimEdges(s: string)
    ensures Trim(s) == [] || (!IsWhiteSpace(Trim(s)[0]) && !IsWhiteSpace(Trim(s)[|Trim(s)| - 1]))
  {
    TrimEndKeepsHead(TrimStart(s));
  }

  /** The trimmed text is the piece of the input that starts after the leading
      white space; only white space precedes and follows it. */
  lemma TrimKeepsCore(s: string)
    ensures IsCoreAt(s, |s| - |TrimStart(s)|, Trim(s))
  {
    var t := TrimStart(s);
    var r := TrimEnd(t);
    assert Trim(s) == r;
    PieceOf(s, t, r);
  }

  /** Trimming twice is trimming once. */
  lemma TrimIdempotent(s: string)
    ensures Trim(Trim(s)) == Trim(s)
  {
  }
}

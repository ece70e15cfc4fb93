/**
 * The few character and string primitives of the C++ standard library and
 * of Boost that the validation tool leans on, over `string` (= `seq<char>`).
 */
module StdString {

  /**
   * `std::string::find_first_of` for one character, with the result stored
   * into an `int` as the tool does: `npos` reads back as -1.
   */
  function FirstIndexOf(s: string, c: char): (pos: int)
    ensures -1 <= pos < |s|
    ensures pos == -1 <==> c !in s
    ensures pos >= 0 ==> s[pos] == c && c !in s[..pos]
  {
    if s == [] then -1
    else if s[0] == c then 0
    else
      var p := FirstIndexOf(s[1..], c);
      assert p >= 0 ==> s[..p + 1] == [s[0]] + s[1..][..p];
      if p < 0 then -1 else p + 1
  }

  /** `std::isspace` in the "C" locale, the whitespace set `boost::trim` strips. */
  predicate IsSpace(c: char)
  {
    c == ' ' || c == '\t' || c == '\n' || c == '\U{0B}' || c == '\U{0C}' || c == '\r'
  }

  predicate NoSpaceAtEnds(s: string)
  {
    s == [] || (!IsSpace(s[0]) && !IsSpace(s[|s| - 1]))
  }

  /** Drops the leading whitespace: what remains is a suffix of `s`. */
  function TrimLeft(s: string): (r: string)
    ensures |r| <= |s| && r == s[|s| - |r|..]
    ensures forall k :: 0 <= k < |s| - |r| ==> IsSpace(s[k])
    ensures r == [] || !IsSpace(r[0])
  {
    if s != [] && IsSpace(s[0]) then TrimLeft(s[1..]) else s
  }

  /** Drops the trailing whitespace: what remains is a prefix of `s`. */
  function TrimRight(s: string): (r: string)
    ensures |r| <= |s| && r == s[..|r|]
    ensures forall k :: |r| <= k < |s| ==> IsSpace(s[k])
    ensures r == [] || !IsSpace(r[|r| - 1])
  {
    if s != [] && IsSpace(s[|s| - 1]) then TrimRight(s[..|s| - 1]) else s
  }

  /** `r` is the slice of `s` starting at `i`, and `s` holds only whitespace around it. */
  predicate SliceBetweenSpaces(s: string, r: string, i: int)
  {
    && 0 <= i <= |s| - |r|
    && r == s[i..i + |r|]
    && (forall k | 0 <= k < i :: IsSpace(s[k]))
    && (forall k | i + |r| <= k < |s| :: IsSpace(s[k]))
  }

  /** `boost::trim`: strips the whitespace at both ends. */
  function Trim(s: string): (r: string)
    ensures |r| <= |s|
    ensures NoSpaceAtEnds(r)
  {
    TrimLeft(TrimRight(s))
  }

  /**
   * The trimmed string is a slice of `s`, and everything trimming removed
   * around it is whitespace.
   */
  lemma TrimIsSlice(s: string)
    ensures exists i :: SliceBetweenSpaces(s, Trim(s), i)
  {
    var t := TrimRight(s);
    var r := TrimLeft(t);
    assert Trim(s) == r;
    assert SliceBetweenSpaces(s, r, |t| - |r|);
  }

  /** Trimming adds no character. */
  lemma TrimKeepsChars(s: string, c: char)
    requires c in Trim(s)
    ensures c in s
  {
    TrimIsSlice(s);
    var i :| SliceBetweenSpaces(s, Trim(s), i);
    var j :| 0 <= j < |Trim(s)| && Trim(s)[j] == c;
    assert s[i + j] == c;
  }

  /** A string that starts with a non-whitespace character keeps it at the front. */
  lemma TrimKeepsFirst(s: string)
    requires s != [] && !IsSpace(s[0])
    ensures Trim(s) != [] && Trim(s)[0] == s[0]
  {
    TrimIsSlice(s);
    var i :| SliceBetweenSpaces(s, Trim(s), i);
  }

  /** Trimming a string that has no whitespace at either end changes nothing. */
  lemma TrimUnchanged(s: string)
    requires NoSpaceAtEnds(s)
    ensures Trim(s) == s
  {
    assert TrimRight(s) == s;
  }

  /** Trimming twice is trimming once. */
  lemma TrimIdempotent(s: string)
    ensures Trim(Trim(s)) == Trim(s)
  {
    TrimUnchanged(Trim(s));
  }

  predicate IsLower(c: char)
  {
    'a' <= c <= 'z'
  }

  /** `toupper` in the "C" locale: only the 26 ASCII lower-case letters change. */
  function ToUpper(c: char): (u: char)
    ensures !IsLower(u)
    ensures IsLower(c) ==> 'A' <= u <= 'Z' && c as int - u as int == 'a' as int - 'A' as int
    ensures !IsLower(c) ==> u == c
  {
    if IsLower(c) then (c as int - 'a' as int + 'A' as int) as char else c
  }
}

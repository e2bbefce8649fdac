/**
  Laravel's default global middleware as it reaches the controllers here:
  TrimStrings trims every string input of the query and of the JSON body,
  then ConvertEmptyStringsToNull turns every "" into null. Controllers see
  the cleaned value through $request->all(), $request->query() and
  $request->validate().
 */
module Middleware {
  import opened Wrappers

  /**
    The characters TrimStrings strips from both ends (Str::trim with no
    character list). Its pattern carries the /u flag, under which PCRE's \s
    is Unicode-aware: \p{Z}, \h and \v, that is tab, LF, VT, FF, CR, space,
    NEL, the no-break spaces, the Ogham and Mongolian separators, the
    en/em-width spaces U+2000-U+200A, the line and paragraph separators,
    U+205F and the ideographic space. The pattern adds the byte-order mark
    U+FEFF, the zero-width space U+200B, the left-to-right mark U+200E and
    the characters of PHP's default trim list, of which only NUL is new.
   */
  predicate IsInputSpace(c: char) {
    var n := c as int;
    || n == 0 || 9 <= n <= 13 || n == 32 || n == 0x85 || n == 0xA0
    || n == 0x1680 || n == 0x180E || 0x2000 <= n <= 0x200B || n == 0x200E
    || n == 0x2028 || n == 0x2029 || n == 0x202F || n == 0x205F || n == 0x3000
    || n == 0xFEFF
  }

  /** Index of the first kept character (|s| when every character is stripped). */
  function InputStart(s: string): (i: nat)
    ensures i <= |s|
    ensures forall k :: 0 <= k < i ==> IsInputSpace(s[k])
    ensures i < |s| ==> !IsInputSpace(s[i])
    decreases |s|
  {
    if |s| > 0 && IsInputSpace(s[0]) then 1 + InputStart(s[1..]) else 0
  }

  /** One past the index of the last kept character (0 when every character is stripped). */
  function InputEnd(s: string): (j: nat)
    ensures j <= |s|
    ensures forall k :: j <= k < |s| ==> IsInputSpace(s[k])
    ensures j > 0 ==> !IsInputSpace(s[j - 1])
    decreases |s|
  {
    if |s| > 0 && IsInputSpace(s[|s| - 1]) then InputEnd(s[..|s| - 1]) else |s|
  }

  /** TrimStrings on one value: the longest slice that neither starts nor ends with an input space. */
  function TrimInput(s: string): (r: string)
    ensures r == [] <==> forall k :: 0 <= k < |s| ==> IsInputSpace(s[k])
    ensures r != [] ==> !IsInputSpace(r[0]) && !IsInputSpace(r[|r| - 1])
    ensures exists i, j ::
      && 0 <= i <= j <= |s| && r == s[i..j]
      && (forall k :: 0 <= k < i ==> IsInputSpace(s[k]))
      && (forall k :: j <= k < |s| ==> IsInputSpace(s[k]))
  {
    var i, j := InputStart(s), InputEnd(s);
    if i == |s| then assert s[|s|..|s|] == ""; "" else
      assert i < j;
      s[i..j]
  }

  /** Trimming an input twice is trimming it once. */
  lemma TrimInputIdempotent(s: string)
    ensures TrimInput(TrimInput(s)) == TrimInput(s)
  {
    var r := TrimInput(s);
    if r != [] {
      assert InputStart(r) == 0;
      assert InputEnd(r) == |r|;
      assert r[0..|r|] == r;
    }
  }

  /**
    Both middlewares on one input: absent stays absent, a value made only of
    input spaces becomes null, any other value is kept trimmed.
   */
  function CleanInput(v: Option<string>): (r: Option<string>)
    ensures r.None? <==> v.None? || forall k :: 0 <= k < |v.value| ==> IsInputSpace(v.value[k])
    ensures r.Some? ==> r.value != "" && TrimInput(r.value) == r.value
    ensures r.Some? ==> exists i, j :: 0 <= i <= j <= |v.value| && r.value == v.value[i..j]
  {
    match v
    case None => None
    case Some(s) =>
      var t := TrimInput(s);
      TrimInputIdempotent(s);
      if t == "" then None else Some(t)
  }

  /** A cleaned input passes through the middleware unchanged. */
  lemma CleanInputIdempotent(v: Option<string>)
    ensures CleanInput(CleanInput(v)) == CleanInput(v)
  {
    if v.Some? {
      TrimInputIdempotent(v.value);
    }
  }
}

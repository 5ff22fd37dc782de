/** The `skills` form field of main.go: `strings.Split` on "," followed by a
    loop that replaces every piece by `strings.TrimSpace` of itself. */
module Skills {

  /** The number of commas in `s`. */
  function CommaCount(s: string): (n: nat) {
    if |s| == 0 then 0 else (if s[0] == ',' then 1 else 0) + CommaCount(s[1..])
  }

  /** `strings.Split(s, ",")`: the pieces between commas, in order. There is
      one more piece than there are commas, so "" gives one empty piece. */
  function Split(s: string): (parts: seq<string>)
    ensures |parts| == CommaCount(s) + 1
    ensures forall i :: 0 <= i < |parts| ==> ',' !in parts[i]
    decreases |s|
  {
    if |s| == 0 then [""]
    else
      var rest := Split(s[1..]);
      if s[0] == ',' then [""] + rest
      else [[s[0]] + rest[0]] + rest[1..]
  }

  /** `strings.Join(parts, ",")`, the inverse of `Split`. */
  function Join(parts: seq<string>): (s: string)
    requires |parts| > 0
  {
    if |parts| == 1 then parts[0] else parts[0] + "," + Join(parts[1..])
  }

  lemma {:induction false} JoinCons(c: char, parts: seq<string>)
    requires |parts| > 0
    ensures Join([[c] + parts[0]] + parts[1..]) == [c] + Join(parts)
  {
    var q := [[c] + parts[0]] + parts[1..];
    assert q[1..] == parts[1..];
  }

  /** Splitting loses nothing: joining the pieces with commas gives the
      field back. */
  lemma {:induction false} JoinSplit(s: string)
    ensures Join(Split(s)) == s
    decreases |s|
  {
    if |s| > 0 {
      var rest := Split(s[1..]);
      JoinSplit(s[1..]);
      if s[0] == ',' {
        assert ([""] + rest)[1..] == rest;
      } else {
        JoinCons(s[0], rest);
      }
      assert s == [s[0]] + s[1..];
    }
  }

  /** The characters `unicode.IsSpace` accepts: the ASCII white space, NEL,
      NO-BREAK SPACE and the other code points with the Unicode White_Space
      property. */
  predicate IsSpace(c: char) {
    var n := c as int;
    (9 <= n <= 13) || n == 0x20 || n == 0x85 || n == 0xA0 || n == 0x1680
    || (0x2000 <= n <= 0x200A) || n == 0x2028 || n == 0x2029 || n == 0x202F
    || n == 0x205F || n == 0x3000
  }

  /** No white space at either end. */
  predicate Trimmed(t: string) {
    t == [] || (!IsSpace(t[0]) && !IsSpace(t[|t| - 1]))
  }

  /** How many white-space characters `s` starts with. */
  function LeadingSpaces(s: string): (n: nat)
    ensures n <= |s|
    ensures forall k :: 0 <= k < n ==> IsSpace(s[k])
    ensures n < |s| ==> !IsSpace(s[n])
  {
    if |s| == 0 || !IsSpace(s[0]) then 0 else 1 + LeadingSpaces(s[1..])
  }

  /** Where the white space at the end of `s` begins. */
  function TrailingStart(s: string): (e: nat)
    ensures e <= |s|
    ensures forall k :: e <= k < |s| ==> IsSpace(s[k])
    ensures e > 0 ==> !IsSpace(s[e - 1])
  {
    if |s| == 0 || !IsSpace(s[|s| - 1]) then |s| else TrailingStart(s[..|s| - 1])
  }

  /** `strings.TrimSpace`: the piece of `s` between its leading and its
      trailing white space; everything dropped is white space and what is
      kept has none at either end. */
  function TrimSpace(s: string): (t: string)
    ensures Trimmed(t)
    ensures var start := LeadingSpaces(s);
      && start + |t| <= |s| && t == s[start..start + |t|]
      && (forall k :: 0 <= k < start ==> IsSpace(s[k]))
      && (forall k :: start + |t| <= k < |s| ==> IsSpace(s[k]))
  {
    var start := LeadingSpaces(s);
    if start == |s| then []
    else
      var stop := TrailingStart(s);
      assert !IsSpace(s[start]);
      s[start..stop]
  }

  /** Trimming twice is trimming once. */
  lemma TrimSpaceIdempotent(s: string)
    ensures TrimSpace(TrimSpace(s)) == TrimSpace(s)
  {
    var t := TrimSpace(s);
    if t != [] {
      assert LeadingSpaces(t) == 0;
      assert TrailingStart(t) == |t|;
      assert t[0..|t|] == t;
    }
  }

  /** A trimmed piece of a comma-free string has no comma either. */
  lemma TrimKeepsNoComma(s: string)
    requires ',' !in s
    ensures ',' !in TrimSpace(s)
  {
  }

  /** The two loops of main.go that normalise the `skills` field: split on
      commas, then trim every piece in place. One entry per comma plus one,
      in the order of the field, each one trimmed and free of commas. */
  method SplitAndTrim(field: string) returns (skills: seq<string>)
    ensures |skills| == CommaCount(field) + 1
    ensures forall i :: 0 <= i < |skills| ==> skills[i] == TrimSpace(Split(field)[i])
    ensures forall i :: 0 <= i < |skills| ==> Trimmed(skills[i]) && ',' !in skills[i]
  {
    var parts := Split(field);
    var a := new string[|parts|](i requires 0 <= i < |parts| => parts[i]);
    assert a[..] == parts;
    for i := 0 to a.Length
      invariant a[..i] == seq(i, k requires 0 <= k < i => TrimSpace(parts[k]))
      invariant a[i..] == parts[i..]
    {
      a[i] := TrimSpace(a[i]);
      assert a[..i+1] == a[..i] + [a[i]];
    }
    skills := a[..];
    assert skills == a[..a.Length];
    forall i | 0 <= i < |skills|
      ensures ',' !in skills[i]
    {
      TrimKeepsNoComma(parts[i]);
    }
  }
}

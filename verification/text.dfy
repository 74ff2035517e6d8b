/** Python string behaviour the server relies on: substring containment (`needle in hay`),
    truthiness and the `or` operator on optional strings, `','.join`, and `str.strip()`. */
module Text {
  import opened Wrappers

  // ---------------------------------------------------------------------------
  // Substring containment
  // ---------------------------------------------------------------------------

  /** `needle` occurs in `hay` starting at position `i`. */
  predicate OccursAt(needle: string, hay: string, i: nat) {
    i + |needle| <= |hay| && hay[i..i + |needle|] == needle
  }

  /** Python's `needle in hay` on strings, computed by scanning `hay` left to right. */
  predicate Contains(needle: string, hay: string)
    decreases |hay|
  {
    || (|needle| <= |hay| && hay[..|needle|] == needle)
    || (|hay| > 0 && Contains(needle, hay[1..]))
  }

  /** The scan agrees with the positional definition: `needle in hay` holds exactly when
      `needle` occurs at some position of `hay`. */
  lemma {:induction false} ContainsIffOccurs(needle: string, hay: string)
    ensures Contains(needle, hay) <==> exists i: nat :: OccursAt(needle, hay, i)
    decreases |hay|
  {
    if |needle| <= |hay| && hay[..|needle|] == needle {
      assert OccursAt(needle, hay, 0);
    } else if |hay| > 0 {
      ContainsIffOccurs(needle, hay[1..]);
      if Contains(needle, hay[1..]) {
        var i: nat :| OccursAt(needle, hay[1..], i);
        OccursShift(needle, hay, i);
      }
      if i: nat :| OccursAt(needle, hay, i) {
        assert i != 0;
        OccursShift(needle, hay, i - 1);
      }
    }
  }

  /** An occurrence in the tail of `hay` is an occurrence one position later in `hay`. */
  lemma OccursShift(needle: string, hay: string, i: nat)
    requires |hay| > 0
    ensures OccursAt(needle, hay[1..], i) <==> OccursAt(needle, hay, i + 1)
  {
    if i + |needle| <= |hay[1..]| {
      assert hay[1..][i..i + |needle|] == hay[i + 1..i + 1 + |needle|];
    }
  }

  /** A witness position is enough to conclude containment. */
  lemma ContainsAt(needle: string, hay: string, i: nat)
    requires OccursAt(needle, hay, i)
    ensures Contains(needle, hay)
  {
    ContainsIffOccurs(needle, hay);
  }

  /** Containment is transitive: whatever contains `b` contains every substring of `b`. */
  lemma ContainsTransitive(a: string, b: string, c: string)
    requires Contains(a, b) && Contains(b, c)
    ensures Contains(a, c)
  {
    ContainsIffOccurs(a, b);
    ContainsIffOccurs(b, c);
    var i: nat :| OccursAt(a, b, i);
    var j: nat :| OccursAt(b, c, j);
    forall k | 0 <= k < |a|
      ensures c[j + i + k] == a[k]
    {
      assert c[j..j + |b|][i + k] == b[i + k];
      assert b[i..i + |a|][k] == a[k];
    }
    assert c[j + i..j + i + |a|] == a;
    ContainsAt(a, c, j + i);
  }

  // ---------------------------------------------------------------------------
  // Truthiness and `or`
  // ---------------------------------------------------------------------------

  /** Python truthiness of an optional string: present and non-empty ("0" is truthy). */
  predicate Truthy(v: Option<string>) {
    v.Some? && v.value != ""
  }

  /** Python's `a or b`: the left operand when it is truthy, otherwise the right one
      (which is returned even when it is falsy). */
  function Or(a: Option<string>, b: Option<string>): Option<string> {
    if Truthy(a) then a else b
  }

  /** `vs[0] or vs[1] or ... or vs[n-1]`, evaluated as Python does, from the left. */
  function OrChain(vs: seq<Option<string>>): (r: Option<string>)
    requires |vs| > 0
    ensures forall k :: 0 <= k < |vs| && Truthy(vs[k]) && (forall j :: 0 <= j < k ==> !Truthy(vs[j])) ==> r == vs[k]
    ensures (forall k :: 0 <= k < |vs| ==> !Truthy(vs[k])) ==> r == vs[|vs| - 1]
    ensures Truthy(r) <==> exists k :: 0 <= k < |vs| && Truthy(vs[k])
  {
    if |vs| == 1 then vs[0]
    else
      var init := vs[..|vs| - 1];
      assert forall j :: 0 <= j < |init| ==> init[j] == vs[j];
      Or(OrChain(init), vs[|vs| - 1])
  }

  // ---------------------------------------------------------------------------
  // Searching, joining and splitting
  // ---------------------------------------------------------------------------

  /** Position of the first occurrence of `x` in `s` (Python's `list.index`, which raises
      where this returns `None`). */
  function Find<T(==)>(s: seq<T>, x: T): (r: Option<nat>)
    ensures r.Some? ==> r.value < |s| && s[r.value] == x && x !in s[..r.value]
    ensures r.None? <==> x !in s
  {
    if |s| == 0 then None
    else if s[0] == x then Some(0)
    else
      match Find(s[1..], x)
      case None => None
      case Some(i) => assert s[1..][..i] == s[1..i + 1]; Some(i + 1)
  }

  /** A position holding `x` with no `x` before it is the one `Find` reports. */
  lemma FindUnique<T>(s: seq<T>, x: T, a: nat)
    requires a < |s| && s[a] == x && x !in s[..a]
    ensures Find(s, x) == Some(a)
  {
  }

  /** `sep.join(parts)`. */
  function Join(parts: seq<string>, sep: char): string {
    if |parts| == 0 then ""
    else if |parts| == 1 then parts[0]
    else parts[0] + [sep] + Join(parts[1..], sep)
  }

  /** `s.split(sep)`: the maximal separator-free pieces of `s`, always at least one. */
  function Split(s: string, sep: char): (r: seq<string>)
    ensures |r| > 0
    decreases |s|
  {
    match Find(s, sep)
    case None => [s]
    case Some(i) => [s[..i]] + Split(s[i + 1..], sep)
  }

  /** Joining pieces that contain no separator can be undone by splitting. */
  lemma {:induction false} SplitJoin(parts: seq<string>, sep: char)
    requires |parts| > 0
    requires forall k :: 0 <= k < |parts| ==> sep !in parts[k]
    ensures Split(Join(parts, sep), sep) == parts
    decreases |parts|
  {
    if |parts| > 1 {
      var rest := Join(parts[1..], sep);
      var s := parts[0] + [sep] + rest;
      var n := |parts[0]|;
      assert s[..n] == parts[0];
      assert s[n] == sep;
      assert Find(s, sep) == Some(n);
      assert s[n + 1..] == rest;
      SplitJoin(parts[1..], sep);
    }
  }

  // ---------------------------------------------------------------------------
  // Whitespace stripping
  // ---------------------------------------------------------------------------

  /** The characters for which Python's `str.isspace()` holds, i.e. what `str.strip()` removes. */
  predicate IsSpace(c: char) {
    || c == ' ' || c == '\t' || c == '\n' || c == '\r'
    || c == '\U{000B}' || c == '\U{000C}'
    || ('\U{001C}' <= c <= '\U{001F}')
    || c == '\U{0085}' || c == '\U{00A0}' || c == '\U{1680}'
    || ('\U{2000}' <= c <= '\U{200A}')
    || c == '\U{2028}' || c == '\U{2029}' || c == '\U{202F}' || c == '\U{205F}' || c == '\U{3000}'
  }

  /** Every character of `s` is whitespace (vacuously true of ""). */
  predicate IsBlank(s: string) {
    forall i :: 0 <= i < |s| ==> IsSpace(s[i])
  }

  /** `s.lstrip()`. */
  function StripLeft(s: string): string
    decreases |s|
  {
    if |s| > 0 && IsSpace(s[0]) then StripLeft(s[1..]) else s
  }

  /** `s.rstrip()`. */
  function StripRight(s: string): string
    decreases |s|
  {
    if |s| > 0 && IsSpace(s[|s| - 1]) then StripRight(s[..|s| - 1]) else s
  }

  /** `s.strip()`. */
  function Strip(s: string): string {
    StripRight(StripLeft(s))
  }

  lemma {:induction false} StripLeftEmptyIffBlank(s: string)
    ensures StripLeft(s) == "" <==> IsBlank(s)
    decreases |s|
  {
    if |s| > 0 && IsSpace(s[0]) {
      StripLeftEmptyIffBlank(s[1..]);
      assert IsBlank(s) <==> IsBlank(s[1..]) by {
        if IsBlank(s[1..]) {
          forall i | 0 <= i < |s| ensures IsSpace(s[i]) {
            if i > 0 { assert s[i] == s[1..][i - 1]; }
          }
        }
      }
    }
  }

  lemma {:induction false} StripRightEmptyIffBlank(s: string)
    ensures StripRight(s) == "" <==> IsBlank(s)
    decreases |s|
  {
    if |s| > 0 && IsSpace(s[|s| - 1]) {
      StripRightEmptyIffBlank(s[..|s| - 1]);
      assert IsBlank(s) <==> IsBlank(s[..|s| - 1]) by {
        if IsBlank(s[..|s| - 1]) {
          forall i | 0 <= i < |s| ensures IsSpace(s[i]) {
            if i < |s| - 1 { assert s[i] == s[..|s| - 1][i]; }
          }
        }
      }
    }
  }

  /** `s.strip() == ''` exactly when `s` consists of whitespace only. */
  lemma StripEmptyIffBlank(s: string)
    ensures Strip(s) == "" <==> IsBlank(s)
  {
    StripLeftEmptyIffBlank(s);
    StripRightEmptyIffBlank(StripLeft(s));
    var t := StripLeft(s);
    if t != "" {
      StripLeftKeepsFirst(s);
      assert !IsSpace(t[0]);
    }
  }

  /** What `lstrip` leaves does not start with whitespace. */
  lemma {:induction false} StripLeftKeepsFirst(s: string)
    ensures StripLeft(s) == "" || !IsSpace(StripLeft(s)[0])
    decreases |s|
  {
    if |s| > 0 && IsSpace(s[0]) {
      StripLeftKeepsFirst(s[1..]);
    }
  }
}

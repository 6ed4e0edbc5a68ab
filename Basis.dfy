/** Small building blocks shared by every module of the model: an Option type for the
    source's `None`, the parts of Python's string semantics the core relies on
    (`str.lower()`, `str.strip()`), the `next(... , None)` search both managers use
    for case-insensitive lookups, and `list.remove`. */
module Basis {

  datatype Option<+T> = None | Some(value: T)

  /** No element occurs twice. */
  predicate Uniek<T(==)>(s: seq<T>) {
    forall i, j :: 0 <= i < j < |s| ==> s[i] != s[j]
  }

  /** Characters that Python's `str.isspace()` accepts, hence the ones `str.strip()`
      removes: the C0 separators, the ASCII space, NEL, NBSP and the Unicode space
      separators. */
  predicate IsSpace(c: char) {
    var n := c as int;
    || 9 <= n <= 13
    || 28 <= n <= 32
    || n == 0x85 || n == 0xA0 || n == 0x1680
    || 0x2000 <= n <= 0x200A
    || n == 0x2028 || n == 0x2029 || n == 0x202F || n == 0x205F || n == 0x3000
  }

  /** `s.lstrip()` */
  function TrimLeft(s: string): string {
    if s != [] && IsSpace(s[0]) then TrimLeft(s[1..]) else s
  }

  /** `s.rstrip()` */
  function TrimRight(s: string): string {
    if s != [] && IsSpace(s[|s| - 1]) then TrimRight(s[..|s| - 1]) else s
  }

  /** `lstrip` keeps a suffix of its input. */
  lemma {:induction false} TrimLeftSuffix(s: string)
    ensures |TrimLeft(s)| <= |s| && TrimLeft(s) == s[|s| - |TrimLeft(s)|..]
  {
    if s != [] && IsSpace(s[0]) {
      TrimLeftSuffix(s[1..]);
    }
  }

  /** `rstrip` keeps a prefix of its input. */
  lemma {:induction false} TrimRightPrefix(s: string)
    ensures |TrimRight(s)| <= |s| && TrimRight(s) == s[..|TrimRight(s)|]
  {
    if s != [] && IsSpace(s[|s| - 1]) {
      TrimRightPrefix(s[..|s| - 1]);
    }
  }

  /** `lstrip` drops only whitespace. */
  lemma {:induction false} TrimLeftSpaties(s: string)
    ensures forall i :: 0 <= i < |s| - |TrimLeft(s)| ==> IsSpace(s[i])
  {
    if s != [] && IsSpace(s[0]) {
      TrimLeftSpaties(s[1..]);
      assert forall i :: 1 <= i < |s| ==> s[i] == s[1..][i - 1];
    }
  }

  /** `lstrip` drops all of the leading whitespace. */
  lemma {:induction false} TrimLeftRand(s: string)
    ensures TrimLeft(s) != [] ==> !IsSpace(TrimLeft(s)[0])
  {
    if s != [] && IsSpace(s[0]) {
      TrimLeftRand(s[1..]);
    }
  }

  /** `rstrip` drops only whitespace. */
  lemma {:induction false} TrimRightSpaties(s: string)
    ensures forall i :: |TrimRight(s)| <= i < |s| ==> IsSpace(s[i])
  {
    if s != [] && IsSpace(s[|s| - 1]) {
      TrimRightSpaties(s[..|s| - 1]);
    }
  }

  /** `rstrip` drops all of the trailing whitespace. */
  lemma {:induction false} TrimRightRand(s: string)
    ensures TrimRight(s) != [] ==> !IsSpace(TrimRight(s)[|TrimRight(s)| - 1])
  {
    if s != [] && IsSpace(s[|s| - 1]) {
      TrimRightRand(s[..|s| - 1]);
    }
  }

  /** `s.strip()` */
  function Strip(s: string): string {
    TrimRight(TrimLeft(s))
  }

  /** `not s or not s.strip()`: the string is empty or whitespace only. */
  predicate IsBlank(s: string) {
    Strip(s) == []
  }

  /** A string is blank exactly when every character of it is whitespace. */
  lemma BlankIffAllSpace(s: string)
    ensures IsBlank(s) <==> forall i :: 0 <= i < |s| ==> IsSpace(s[i])
  {
    var l := TrimLeft(s);
    TrimLeftSuffix(s);
    TrimLeftSpaties(s);
    TrimLeftRand(s);
    TrimRightSpaties(l);
    if l != [] {
      assert !IsSpace(l[0]) && l[0] == s[|s| - |l|];
    }
  }

  /** What `Strip` keeps is one contiguous slice of its input, starting after the
      leading whitespace. */
  lemma StripIsSlice(s: string)
    ensures |Strip(s)| <= |TrimLeft(s)| <= |s|
    ensures forall i :: 0 <= i < |Strip(s)| ==> Strip(s)[i] == s[|s| - |TrimLeft(s)| + i]
  {
    var l := TrimLeft(s);
    var r := TrimRight(l);
    TrimLeftSuffix(s);
    TrimRightPrefix(l);
    forall i | 0 <= i < |r|
      ensures r[i] == s[|s| - |l| + i]
    {
      assert r[i] == l[i];
    }
  }

  /** A stripped string neither starts nor ends with whitespace. */
  lemma StripRanden(s: string)
    ensures Strip(s) != [] ==> !IsSpace(Strip(s)[0]) && !IsSpace(Strip(s)[|Strip(s)| - 1])
  {
    var l := TrimLeft(s);
    var r := TrimRight(l);
    TrimLeftRand(s);
    TrimRightRand(l);
    TrimRightPrefix(l);
    if r != [] {
      assert r[0] == l[0];
    }
  }

  /** Stripping twice is stripping once. */
  lemma StripIdempotent(s: string)
    ensures Strip(Strip(s)) == Strip(s)
  {
    var r := Strip(s);
    StripRanden(s);
    if r != [] {
      assert TrimLeft(r) == r;
      assert TrimRight(r) == r;
    }
  }

  /** The case folding of `str.lower()`, restricted to ASCII letters. */
  function LowerChar(c: char): char {
    if 'A' <= c <= 'Z' then (c as int + 32) as char else c
  }

  function Lower(s: string): (r: string)
    ensures |r| == |s|
  {
    seq(|s|, i requires 0 <= i < |s| => LowerChar(s[i]))
  }

  /** Lower-casing is idempotent, so comparing `Lower(a) == Lower(b)` is an equivalence
      that already-lower-cased strings pass through unchanged. */
  lemma LowerIdempotent(s: string)
    ensures Lower(Lower(s)) == Lower(s)
  {
    forall i | 0 <= i < |s|
      ensures Lower(Lower(s))[i] == Lower(s)[i]
    {
      assert !('A' <= Lower(s)[i] <= 'Z');
    }
  }

  /** `next((x for x in xs if x.naam.lower() == zoek.lower()), None)`, over the names of
      the elements: the index of the first name equal to `zoek` case-insensitively. */
  function ZoekEerste(namen: seq<string>, zoek: string): (r: Option<nat>)
    ensures r.Some? ==> r.value < |namen| && Lower(namen[r.value]) == Lower(zoek)
    ensures r.Some? ==> forall j :: 0 <= j < r.value ==> Lower(namen[j]) != Lower(zoek)
    ensures r.None? <==> forall j :: 0 <= j < |namen| ==> Lower(namen[j]) != Lower(zoek)
  {
    if namen == [] then None
    else if Lower(namen[0]) == Lower(zoek) then Some(0)
    else match ZoekEerste(namen[1..], zoek)
      case None => None
      case Some(i) => Some(i + 1)
  }

  /** No two names are equal up to case. */
  predicate UniekZonderHoofdletters(namen: seq<string>) {
    forall i, j :: 0 <= i < j < |namen| ==> Lower(namen[i]) != Lower(namen[j])
  }

  /** Appending a name that matches none of the others keeps the names unique, and a
      search for it then finds the new last position. */
  lemma ToegevoegdeNaamVindbaar(namen: seq<string>, x: string)
    requires UniekZonderHoofdletters(namen)
    requires forall i :: 0 <= i < |namen| ==> Lower(namen[i]) != Lower(x)
    ensures UniekZonderHoofdletters(namen + [x])
    ensures ZoekEerste(namen + [x], x) == Some(|namen|)
  {
    var s := namen + [x];
    forall i, j | 0 <= i < j < |s|
      ensures Lower(s[i]) != Lower(s[j])
    {
      assert s[i] == namen[i];
      if j < |namen| {
        assert s[j] == namen[j];
      }
    }
    var z := ZoekEerste(s, x);
    assert Lower(s[|namen|]) == Lower(x);
    forall k | 0 <= k < |namen|
      ensures Lower(s[k]) != Lower(x)
    {
      assert s[k] == namen[k];
    }
  }

  /** Removing one name keeps the rest unique, and afterwards the removed name is not
      found. */
  lemma VerwijderdeNaamOnvindbaar(namen: seq<string>, i: nat)
    requires UniekZonderHoofdletters(namen) && i < |namen|
    ensures UniekZonderHoofdletters(namen[..i] + namen[i + 1..])
    ensures ZoekEerste(namen[..i] + namen[i + 1..], namen[i]).None?
  {
    var s := namen[..i] + namen[i + 1..];
    assert forall k :: 0 <= k < |s| ==> s[k] == if k < i then namen[k] else namen[k + 1];
  }

  /** Python's `xs.remove(x)`: drop the first element equal to `x`; the source calls it
      only with an `x` it has just found in or added to the list (otherwise Python
      raises `ValueError`). */
  function RemoveFirst<T(==)>(s: seq<T>, x: T): (r: seq<T>)
    requires x in s
    ensures |r| == |s| - 1
  {
    if s[0] == x then s[1..] else [s[0]] + RemoveFirst(s[1..], x)
  }

  /** Removing the first occurrence of `s[i]` removes exactly position `i` and keeps the
      order of the rest. */
  lemma {:induction false} RemoveFirstAt<T>(s: seq<T>, i: nat)
    requires i < |s| && s[i] !in s[..i]
    ensures RemoveFirst(s, s[i]) == s[..i] + s[i + 1..]
  {
    if i > 0 {
      assert s[0] != s[i] by { assert s[0] in s[..i]; }
      assert s[1..][i - 1] == s[i];
      assert s[1..][..i - 1] == s[1..i];
      RemoveFirstAt(s[1..], i - 1);
      assert s[1..][i..] == s[i + 1..];
      assert [s[0]] + s[1..i] == s[..i];
    }
  }

  /** Appending a new element and removing it again gives back the original list: the
      rollback step of the managers. */
  lemma RemoveAppended<T>(s: seq<T>, x: T)
    requires x !in s
    ensures RemoveFirst(s + [x], x) == s
  {
    var t := s + [x];
    assert t[|s|] == x && t[..|s|] == s;
    RemoveFirstAt(t, |s|);
    assert t[|s| + 1..] == [];
  }
}

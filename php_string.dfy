/**
 * The PHP string built-ins the application relies on, over byte strings
 * (a `char` stands for one byte): `trim`, `strtoupper`, `explode`,
 * `implode` and `strpos(...) !== false`.
 */
module PhpString {

  /** The characters `trim` strips by default: " \t\n\r\0\x0B". */
  predicate IsTrimChar(c: char) {
    c == ' ' || c == '\t' || c == '\n' || c == '\r' || c == 0 as char || c == 11 as char
  }

  /** `ltrim`: drops trim characters from the front. */
  function TrimLeft(s: string): (r: string)
    ensures |r| <= |s|
  {
    if s != [] && IsTrimChar(s[0]) then TrimLeft(s[1..]) else s
  }

  /** `rtrim`: drops trim characters from the back. */
  function TrimRight(s: string): (r: string)
    ensures |r| <= |s|
  {
    if s != [] && IsTrimChar(s[|s| - 1]) then TrimRight(s[..|s| - 1]) else s
  }

  /** `trim`: strips trim characters from both ends. */
  function Trim(s: string): (r: string)
    ensures |r| <= |s|
  {
    TrimRight(TrimLeft(s))
  }

  /** `ltrim` keeps the longest suffix of `s` that does not start with a trim character. */
  lemma {:induction false} TrimLeftSpec(s: string)
    ensures var r := TrimLeft(s);
      && r == s[|s| - |r|..]
      && (forall k :: 0 <= k < |s| - |r| ==> IsTrimChar(s[k]))
      && (r != [] ==> !IsTrimChar(r[0]))
  {
    if s != [] && IsTrimChar(s[0]) {
      TrimLeftSpec(s[1..]);
    }
  }

  /** `rtrim` keeps the longest prefix of `s` that does not end with a trim character. */
  lemma {:induction false} TrimRightSpec(s: string)
    ensures var r := TrimRight(s);
      && r == s[..|r|]
      && (forall k :: |r| <= k < |s| ==> IsTrimChar(s[k]))
      && (r != [] ==> !IsTrimChar(r[|r| - 1]))
  {
    if s != [] && IsTrimChar(s[|s| - 1]) {
      TrimRightSpec(s[..|s| - 1]);
    }
  }

  /**
   * `trim` yields the empty string exactly when `s` holds trim characters
   * only; otherwise the result neither starts nor ends with one.
   */
  lemma TrimSpec(s: string)
    ensures Trim(s) == [] <==> forall k :: 0 <= k < |s| ==> IsTrimChar(s[k])
    ensures Trim(s) != [] ==> !IsTrimChar(Trim(s)[0]) && !IsTrimChar(Trim(s)[|Trim(s)| - 1])
  {
    TrimLeftSpec(s);
    TrimRightSpec(TrimLeft(s));
  }

  /**
   * `trim` keeps a contiguous middle part of `s`, starting where `ltrim`
   * stops: everything before and after it is a trim character.
   */
  lemma TrimKeepsMiddle(s: string)
    ensures var i, r := |s| - |TrimLeft(s)|, Trim(s);
      && 0 <= i <= |s| - |r| && r == s[i..i + |r|]
      && (forall k :: 0 <= k < i ==> IsTrimChar(s[k]))
      && (forall k :: i + |r| <= k < |s| ==> IsTrimChar(s[k]))
  {
    var l := TrimLeft(s);
    var r := Trim(s);
    var i := |s| - |l|;
    TrimLeftSpec(s);
    TrimRightSpec(l);
    assert l == s[i..];
    assert r == l[..|r|];
    assert r == s[i..i + |r|];
    forall k | i + |r| <= k < |s| ensures IsTrimChar(s[k]) {
      assert s[k] == l[k - i];
    }
  }

  /** `strtoupper` on one byte: only 'a'..'z' change. */
  function UpperChar(c: char): char {
    if 'a' <= c <= 'z' then (c as int - 32) as char else c
  }

  /** `strtoupper`: upper-cases every ASCII letter and keeps every other byte. */
  function ToUpper(s: string): (r: string)
    ensures |r| == |s|
    ensures forall i :: 0 <= i < |s| ==> r[i] == UpperChar(s[i])
  {
    if s == [] then [] else [UpperChar(s[0])] + ToUpper(s[1..])
  }

  /** The total length of some strings. */
  function SumLengths(parts: seq<string>): nat
  {
    if parts == [] then 0 else |parts[0]| + SumLengths(parts[1..])
  }

  /** `implode(sep, parts)`: the parts joined with `sep` between neighbours. */
  function Implode(sep: string, parts: seq<string>): (r: string)
    ensures parts == [] ==> r == ""
    ensures parts != [] ==> |r| == SumLengths(parts) + (|parts| - 1) * |sep|
    ensures parts != [] ==> r[..|parts[0]|] == parts[0]
  {
    if |parts| == 0 then ""
    else if |parts| == 1 then parts[0]
    else parts[0] + sep + Implode(sep, parts[1..])
  }

  /** `explode(sep, s)` for a one-byte separator: every piece between separators, empty pieces kept. */
  function Explode(sep: char, s: string): (parts: seq<string>)
    ensures |parts| >= 1
    ensures forall i :: 0 <= i < |parts| ==> sep !in parts[i]
    ensures Implode([sep], parts) == s
  {
    if s == [] then [""]
    else
      var rest := Explode(sep, s[1..]);
      if s[0] == sep then [""] + rest
      else
        ImplodeConsHead([s[0]], rest, [sep]);
        [[s[0]] + rest[0]] + rest[1..]
  }

  /** Prepending to the first part prepends to the imploded string. */
  lemma ImplodeConsHead(pre: string, parts: seq<string>, sep: string)
    requires |parts| >= 1
    ensures Implode(sep, [pre + parts[0]] + parts[1..]) == pre + Implode(sep, parts)
  {
    var ps := [pre + parts[0]] + parts[1..];
    if |parts| > 1 {
      assert ps[1..] == parts[1..];
    }
  }

  /** Number of occurrences of `c` in `s`. */
  function Count(c: char, s: string): nat
  {
    if s == [] then 0 else (if s[0] == c then 1 else 0) + Count(c, s[1..])
  }

  /** `explode` yields one piece more than there are separators. */
  lemma {:induction false} ExplodeCount(sep: char, s: string)
    ensures |Explode(sep, s)| == Count(sep, s) + 1
  {
    if s != [] {
      ExplodeCount(sep, s[1..]);
    }
  }

  /** `explode` undoes `implode` on pieces that hold no separator. */
  lemma {:induction false} ExplodeImplode(sep: char, parts: seq<string>)
    requires |parts| >= 1
    requires forall i :: 0 <= i < |parts| ==> sep !in parts[i]
    ensures Explode(sep, Implode([sep], parts)) == parts
  {
    if |parts| == 1 {
      ExplodeNoSep(sep, parts[0]);
    } else {
      ExplodeImplode(sep, parts[1..]);
      ExplodeAfterSep(sep, parts[0], Implode([sep], parts[1..]));
    }
  }

  /** A string with no separator explodes to itself alone. */
  lemma {:induction false} ExplodeNoSep(sep: char, s: string)
    requires sep !in s
    ensures Explode(sep, s) == [s]
  {
    if s != [] {
      ExplodeNoSep(sep, s[1..]);
    }
  }

  /** Exploding `p + sep + rest` splits off `p` as the first piece. */
  lemma {:induction false} ExplodeAfterSep(sep: char, p: string, rest: string)
    requires sep !in p
    ensures Explode(sep, p + [sep] + rest) == [p] + Explode(sep, rest)
  {
    if p == [] {
      assert p + [sep] + rest == [sep] + rest;
      assert ([sep] + rest)[1..] == rest;
    } else {
      assert (p + [sep] + rest)[1..] == p[1..] + [sep] + rest;
      ExplodeAfterSep(sep, p[1..], rest);
      assert [p[0]] + p[1..] == p;
    }
  }

  /** `needle` occurs in `hay` starting at position `i`. */
  predicate OccursAt(hay: string, needle: string, i: int) {
    0 <= i <= |hay| - |needle| && hay[i..i + |needle|] == needle
  }

  /** `strpos(hay, needle) !== false`: `needle` occurs somewhere in `hay`. */
  predicate Contains(hay: string, needle: string)
    ensures Contains(hay, needle) <==> exists i :: OccursAt(hay, needle, i)
    decreases |hay|
  {
    if |hay| < |needle| then false
    else if hay[..|needle|] == needle then assert OccursAt(hay, needle, 0); true
    else
      ContainsShift(hay, needle);
      Contains(hay[1..], needle)
  }

  /** An occurrence past the first position is an occurrence in the tail. */
  lemma ContainsShift(hay: string, needle: string)
    requires |hay| >= |needle| && hay[..|needle|] != needle
    ensures (exists i :: OccursAt(hay, needle, i)) <==> (exists i :: OccursAt(hay[1..], needle, i))
  {
    if exists i :: OccursAt(hay, needle, i) {
      var i :| OccursAt(hay, needle, i);
      assert i != 0;
      assert hay[1..][i - 1..i - 1 + |needle|] == hay[i..i + |needle|];
      assert OccursAt(hay[1..], needle, i - 1);
    }
    if exists i :: OccursAt(hay[1..], needle, i) {
      var i :| OccursAt(hay[1..], needle, i);
      assert hay[i + 1..i + 1 + |needle|] == hay[1..][i..i + |needle|];
      assert OccursAt(hay, needle, i + 1);
    }
  }
}

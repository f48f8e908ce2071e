/** The few Python string operations the client relies on, over `seq<char>`. */
module PyText {
  import opened Wrappers

  /** Python's `str.isspace()` for one character, by code point. */
  predicate IsSpace(c: char) {
    var n := c as int;
    n == 0x20 || 0x09 <= n <= 0x0D || 0x1C <= n <= 0x1F || n == 0x85 || n == 0xA0
    || n == 0x1680 || 0x2000 <= n <= 0x200A || n == 0x2028 || n == 0x2029
    || n == 0x202F || n == 0x205F || n == 0x3000
  }

  predicate IsSlash(c: char) { c == '/' }

  /** `s.lstrip(chars)`: drop the longest prefix made of dropped characters. */
  function LStrip(s: string, drop: char -> bool): string {
    if s != [] && drop(s[0]) then LStrip(s[1..], drop) else s
  }

  /** What `lstrip` keeps is a suffix of `s` that starts with a kept character, and what it
      cuts off is made of dropped characters. */
  lemma {:induction false} LStripSpec(s: string, drop: char -> bool)
    ensures var r := LStrip(s, drop);
      && |r| <= |s| && r == s[|s| - |r|..]
      && (forall i :: 0 <= i < |s| - |r| ==> drop(s[i]))
      && (r != [] ==> !drop(r[0]))
  {
    if s != [] && drop(s[0]) {
      LStripSpec(s[1..], drop);
    }
  }

  /** `s.rstrip(chars)`: drop the longest suffix made of dropped characters. */
  function RStrip(s: string, drop: char -> bool): string {
    if s != [] && drop(s[|s| - 1]) then RStrip(s[..|s| - 1], drop) else s
  }

  /** What `rstrip` keeps is a prefix of `s` that ends with a kept character, and what it cuts
      off is made of dropped characters. */
  lemma {:induction false} RStripSpec(s: string, drop: char -> bool)
    ensures var r := RStrip(s, drop);
      && |r| <= |s| && r == s[..|r|]
      && (forall i :: |r| <= i < |s| ==> drop(s[i]))
      && (r != [] ==> !drop(r[|r| - 1]))
  {
    if s != [] && drop(s[|s| - 1]) {
      RStripSpec(s[..|s| - 1], drop);
    }
  }

  /** `s.strip(chars)`: both ends. */
  function Strip(s: string, drop: char -> bool): string {
    RStrip(LStrip(s, drop), drop)
  }

  /** Stripping keeps a contiguous middle part of `s` whose ends are kept characters,
      and everything cut off on either side is dropped. */
  lemma StripIsMiddle(s: string, drop: char -> bool)
    ensures var r, i := Strip(s, drop), |s| - |LStrip(s, drop)|;
      && 0 <= i && i + |r| <= |s| && r == s[i..i + |r|]
      && (forall k :: 0 <= k < i ==> drop(s[k]))
      && (forall k :: i + |r| <= k < |s| ==> drop(s[k]))
      && (r != [] ==> !drop(r[0]) && !drop(r[|r| - 1]))
  {
    var l := LStrip(s, drop);
    var r := RStrip(l, drop);
    var i := |s| - |l|;
    LStripSpec(s, drop);
    RStripSpec(l, drop);
    assert s[i..i + |r|] == r by {
      assert l == s[i..];
      assert r == l[..|r|];
    }
    forall k | i + |r| <= k < |s| ensures drop(s[k]) {
      assert s[k] == l[k - i];
    }
    if r != [] {
      assert r[0] == l[0];
    }
  }

  /** Stripping twice strips nothing more. */
  lemma StripIdempotent(s: string, drop: char -> bool)
    ensures Strip(Strip(s, drop), drop) == Strip(s, drop)
  {
    var r := Strip(s, drop);
    StripIsMiddle(s, drop);
    assert LStrip(r, drop) == r;
    assert RStrip(r, drop) == r;
  }

  predicate StartsWith(s: string, prefix: string) {
    |prefix| <= |s| && s[..|prefix|] == prefix
  }

  /** `sub in s` on strings: `sub` occurs somewhere in `s`. */
  predicate Contains(s: string, sub: string)
    decreases |s|
  {
    StartsWith(s, sub) || (s != [] && Contains(s[1..], sub))
  }

  /** `s.replace(c, "")`: every occurrence of `c` removed, the rest kept in order. */
  function RemoveAll(s: string, c: char): string {
    if s == [] then []
    else (if s[0] == c then [] else [s[0]]) + RemoveAll(s[1..], c)
  }

  /** No `c` is left, and text without `c` is returned as it is. */
  lemma {:induction false} RemoveAllDrops(s: string, c: char)
    ensures c !in RemoveAll(s, c)
    ensures c !in s ==> RemoveAll(s, c) == s
  {
    if s != [] {
      RemoveAllDrops(s[1..], c);
      if c !in s {
        assert c !in s[1..];
        assert [s[0]] + s[1..] == s;
      }
    }
  }

  /** Removing a character distributes over concatenation. */
  lemma {:induction false} RemoveAllConcat(a: string, b: string, c: char)
    ensures RemoveAll(a + b, c) == RemoveAll(a, c) + RemoveAll(b, c)
  {
    if a != [] {
      var head := if a[0] == c then [] else [a[0]];
      assert (a + b)[0] == a[0] && (a + b)[1..] == a[1..] + b;
      RemoveAllConcat(a[1..], b, c);
      calc {
        RemoveAll(a + b, c);
        head + RemoveAll(a[1..] + b, c);
        head + (RemoveAll(a[1..], c) + RemoveAll(b, c));
        (head + RemoveAll(a[1..], c)) + RemoveAll(b, c);
      }
    } else {
      assert a + b == b;
    }
  }

  /** `str.split(sep, maxsplit=1)`: the text before the first `sep` and all the text after it. */
  function SplitFirst(s: string, sep: char): (r: Option<(string, string)>)
    ensures r.None? <==> sep !in s
    ensures r.Some? ==> sep !in r.value.0 && s == r.value.0 + [sep] + r.value.1
  {
    if s == [] then None
    else if s[0] == sep then Some(([], s[1..]))
    else match SplitFirst(s[1..], sep)
      case None => None
      case Some(parts) => Some(([s[0]] + parts.0, parts.1))
  }

  /** The split is the only decomposition around a first separator. */
  lemma {:induction false} SplitFirstUnique(before: string, after: string, sep: char)
    requires sep !in before
    ensures SplitFirst(before + [sep] + after, sep) == Some((before, after))
  {
    var s := before + [sep] + after;
    if before != [] {
      assert s[1..] == before[1..] + [sep] + after;
      SplitFirstUnique(before[1..], after, sep);
      assert [s[0]] + before[1..] == before;
    } else {
      assert s[1..] == after;
    }
  }

  /** One character of Python's `str.casefold()`, restricted to ASCII letters. */
  function LowerChar(c: char): (r: char)
    ensures 'A' <= c <= 'Z' ==> r as int == c as int + 32
    ensures !('A' <= c <= 'Z') ==> r == c
  {
    if 'A' <= c <= 'Z' then (c as int + 32) as char else c
  }

  /** `s.casefold()`, restricted to ASCII letters. */
  function Casefold(s: string): (r: string)
    ensures |r| == |s|
    ensures forall i :: 0 <= i < |s| ==> r[i] == LowerChar(s[i])
  {
    seq(|s|, i requires 0 <= i < |s| => LowerChar(s[i]))
  }

  /** Case-folding leaves no upper-case ASCII letter and is idempotent. */
  lemma CasefoldIdempotent(s: string)
    ensures forall i :: 0 <= i < |s| ==> !('A' <= Casefold(s)[i] <= 'Z')
    ensures Casefold(Casefold(s)) == Casefold(s)
  {
  }
}

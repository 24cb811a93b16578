/** The string operations the admin screens use: JavaScript's `trim`,
    `toLowerCase`/`toUpperCase` (ASCII letters only), `includes`,
    `substring(0, n)`, `join`, the `||` fallback on strings and the
    decimal rendering of integers inside template literals. */
module Text {
  import opened Collections

  /** ECMAScript WhiteSpace and LineTerminator code points: exactly what
      `String.prototype.trim` removes from both ends. */
  predicate IsSpace(c: char) {
    || c == ' ' || c == '\t' || c == '\n' || c == '\r'
    || c == '\U{000B}' || c == '\U{000C}' || c == '\U{00A0}' || c == '\U{1680}'
    || ('\U{2000}' <= c <= '\U{200A}')
    || c == '\U{2028}' || c == '\U{2029}' || c == '\U{202F}' || c == '\U{205F}'
    || c == '\U{3000}' || c == '\U{FEFF}'
  }

  predicate AllSpace(s: string) {
    forall k :: 0 <= k < |s| ==> IsSpace(s[k])
  }

  /** A string with no whitespace at either end (the empty string included). */
  predicate Tidy(s: string) {
    s == [] || (!IsSpace(s[0]) && !IsSpace(s[|s| - 1]))
  }

  /** How many whitespace characters `s` starts with. */
  function LeadingSpaces(s: string): (n: nat)
    ensures n <= |s|
    ensures AllSpace(s[..n])
    ensures n < |s| ==> !IsSpace(s[n])
  {
    if |s| > 0 && IsSpace(s[0]) then
      var m := LeadingSpaces(s[1..]);
      assert s[..1 + m] == [s[0]] + s[1..][..m];
      AllSpaceCons(s[0], s[1..][..m]);
      1 + m
    else 0
  }

  /** How many whitespace characters `s` ends with. */
  function TrailingSpaces(s: string): (n: nat)
    ensures n <= |s|
    ensures AllSpace(s[|s| - n..])
    ensures n < |s| ==> !IsSpace(s[|s| - 1 - n])
  {
    if |s| > 0 && IsSpace(s[|s| - 1]) then
      var init := s[..|s| - 1];
      var m := TrailingSpaces(init);
      assert s[|s| - (1 + m)..] == init[|init| - m..] + [s[|s| - 1]];
      AllSpaceSnoc(init[|init| - m..], s[|s| - 1]);
      assert 1 + m < |s| ==> s[|s| - 1 - (1 + m)] == init[|init| - 1 - m];
      1 + m
    else 0
  }

  lemma AllSpaceSnoc(t: string, c: char)
    requires AllSpace(t) && IsSpace(c)
    ensures AllSpace(t + [c])
  {
    assert forall k :: 0 <= k < |t| ==> (t + [c])[k] == t[k];
  }

  lemma AllSpaceCons(c: char, t: string)
    requires IsSpace(c) && AllSpace(t)
    ensures AllSpace([c] + t)
  {
    assert forall k :: 0 < k <= |t| ==> ([c] + t)[k] == t[k - 1];
  }

  /** JavaScript `s.trim()`: `s` without its whitespace prefix and suffix.
      The result is the tidy block that starts after the leading whitespace
      and is followed only by whitespace. */
  function Trim(s: string): (r: string)
    ensures |r| <= |s|
    ensures Tidy(r)
    ensures LeadingSpaces(s) + |r| <= |s|
    ensures AllSpace(s[..LeadingSpaces(s)]) && r == s[LeadingSpaces(s)..LeadingSpaces(s) + |r|]
    ensures AllSpace(s[LeadingSpaces(s) + |r|..])
  {
    var lead := LeadingSpaces(s);
    var rest := s[lead..];
    var trail := TrailingSpaces(rest);
    var r := rest[..|rest| - trail];
    assert r == s[lead..lead + |r|];
    assert s[lead + |r|..] == rest[|rest| - trail..];
    assert r != [] ==> r[0] == rest[0] && r[|r| - 1] == rest[|rest| - 1 - trail];
    r
  }

  /** Trimming is determined by its contract: any tidy block of `s`
      between a whitespace prefix and a whitespace suffix is `Trim(s)`. */
  lemma TrimUnique(s: string, r: string, i: nat)
    requires Tidy(r) && i + |r| <= |s|
    requires AllSpace(s[..i]) && r == s[i..i + |r|] && AllSpace(s[i + |r|..])
    ensures r == Trim(s)
  {
    SameBlock(s, r, i, Trim(s), LeadingSpaces(s));
  }

  /** Two tidy blocks of `s`, each between whitespace, are the same. */
  lemma SameBlock(s: string, r: string, i: nat, t: string, j: nat)
    requires Tidy(r) && i + |r| <= |s| && r == s[i..i + |r|]
    requires AllSpace(s[..i]) && AllSpace(s[i + |r|..])
    requires Tidy(t) && j + |t| <= |s| && t == s[j..j + |t|]
    requires AllSpace(s[..j]) && AllSpace(s[j + |t|..])
    ensures r == t
  {
    if r == [] {
      BlankBlock(s, t, j, i);
    } else if t == [] {
      BlankBlock(s, r, i, j);
    } else {
      CommonStart(s, r, i, t, j);
      CommonStart(s, t, j, r, i);
      CommonEnd(s, r, t, i);
      CommonEnd(s, t, r, i);
    }
  }

  /** A non-empty tidy block cannot sit inside whitespace. */
  lemma BlankBlock(s: string, t: string, j: nat, i: nat)
    requires Tidy(t) && j + |t| <= |s| && t == s[j..j + |t|]
    requires i <= |s| && AllSpace(s[..i]) && AllSpace(s[i..])
    ensures t == []
  {
    SpacesBefore(s, i);
    SpacesAfter(s, i);
  }

  /** Two tidy blocks after whitespace prefixes start at the same place. */
  lemma CommonStart(s: string, r: string, i: nat, t: string, j: nat)
    requires r != [] && Tidy(r) && i + |r| <= |s| && r == s[i..i + |r|]
    requires j <= |s| && AllSpace(s[..j])
    ensures j <= i
  {
    SpacesBefore(s, j);
    assert r[0] == s[i] && !IsSpace(s[i]);
  }

  /** Two non-empty tidy blocks from the same start, each followed by
      whitespace, have the same length. */
  lemma CommonEnd(s: string, r: string, t: string, i: nat)
    requires r != [] && Tidy(r) && i + |r| <= |s| && r == s[i..i + |r|]
    requires i + |t| <= |s| && AllSpace(s[i + |t|..])
    ensures |r| <= |t|
  {
    SpacesAfter(s, i + |t|);
    assert r[|r| - 1] == s[i + |r| - 1] && !IsSpace(s[i + |r| - 1]);
  }

  lemma SpacesBefore(s: string, j: nat)
    requires j <= |s| && AllSpace(s[..j])
    ensures forall k :: 0 <= k < j ==> IsSpace(s[k])
  {
    assert forall k :: 0 <= k < j ==> s[..j][k] == s[k];
  }

  lemma SpacesAfter(s: string, j: nat)
    requires j <= |s| && AllSpace(s[j..])
    ensures forall k :: j <= k < |s| ==> IsSpace(s[k])
  {
    assert forall k :: j <= k < |s| ==> s[j..][k - j] == s[k];
  }

  /** Searching a string for its own trimmed form finds it, ignoring case. */
  lemma MatchesOwnTrim(s: string)
    ensures Matches(s, Trim(s))
  {
    MatchesBlock(s, Trim(s), LeadingSpaces(s));
  }

  /** Every block of a string matches it, ignoring case. */
  lemma MatchesBlock(s: string, t: string, i: nat)
    requires i + |t| <= |s| && t == s[i..i + |t|]
    ensures Matches(s, t)
  {
    LowerOfSlice(s, i, i + |t|);
    IncludesSlice(Lower(s), i, i + |t|);
  }

  /** Every slice of a string occurs in it. */
  lemma IncludesSlice(u: string, i: nat, j: nat)
    requires i <= j <= |u|
    ensures Includes(u, u[i..j])
  {
    assert u[i..j] <= u[i..];
  }

  /** Lower-casing commutes with taking a slice. */
  lemma LowerOfSlice(s: string, i: nat, j: nat)
    requires i <= j <= |s|
    ensures Lower(s[i..j]) == Lower(s)[i..j]
  {
  }

  lemma TrimOfTidy(s: string)
    requires Tidy(s)
    ensures Trim(s) == s
  {
    if s != [] {
      assert LeadingSpaces(s) == 0;
      assert TrailingSpaces(s) == 0;
    }
  }

  lemma TrimAfterSpace(s: string)
    requires Tidy(s)
    ensures Trim(" " + s) == s
  {
    var t := " " + s;
    assert t[1..] == s;
    if s == [] {
      assert LeadingSpaces(t) == 1 + LeadingSpaces(t[1..]);
    } else {
      assert LeadingSpaces(s) == 0;
      assert LeadingSpaces(t) == 1;
      assert TrailingSpaces(s) == 0;
    }
  }

  lemma TrimBeforeSpace(s: string)
    requires Tidy(s) && s != []
    ensures Trim(s + " ") == s
  {
    var t := s + " ";
    assert LeadingSpaces(t) == 0;
    assert t[..|t| - 1] == s;
    assert TrailingSpaces(s) == 0;
    assert TrailingSpaces(t) == 1;
  }

  /** `${first} ${last}`.trim(): a first and a last name as one display name. */
  function FullName(first: string, last: string): string {
    Trim(first + " " + last)
  }

  /** For tidy parts the trimmed full name is the two names joined by one
      space, or whichever one is present, or empty. */
  lemma {:induction false} FullNameCases(first: string, last: string)
    requires Tidy(first) && Tidy(last)
    ensures FullName(first, last) ==
      if first == "" then last
      else if last == "" then first
      else first + " " + last
  {
    if first == "" {
      assert first + " " + last == " " + last;
      TrimAfterSpace(last);
    } else if last == "" {
      assert first + " " + last == first + " ";
      TrimBeforeSpace(first);
    } else {
      var t := first + " " + last;
      assert t[0] == first[0] && t[|t| - 1] == last[|last| - 1];
      TrimOfTidy(t);
    }
  }

  lemma {:induction false} LeadingSpacesOfBlank(s: string)
    requires AllSpace(s)
    ensures LeadingSpaces(s) == |s|
  {
    if |s| > 0 {
      assert IsSpace(s[0]);
      LeadingSpacesOfBlank(s[1..]);
    }
  }

  /** Both names empty or blank give the empty display name. */
  lemma FullNameOfBlanks(first: string, last: string)
    requires AllSpace(first) && AllSpace(last)
    ensures FullName(first, last) == ""
  {
    var t := first + " " + last;
    assert AllSpace(t) by {
      forall k | 0 <= k < |t| ensures IsSpace(t[k]) {
        if k < |first| { assert t[k] == first[k]; }
        else if k == |first| { assert t[k] == ' '; }
        else { assert t[k] == last[k - |first| - 1]; }
      }
    }
    LeadingSpacesOfBlank(t);
  }

  function LowerChar(c: char): char {
    if 'A' <= c <= 'Z' then (c as int + 32) as char else c
  }

  function UpperChar(c: char): char {
    if 'a' <= c <= 'z' then (c as int - 32) as char else c
  }

  /** `s.toLowerCase()` on ASCII letters. */
  function Lower(s: string): (r: string)
    ensures |r| == |s|
    ensures forall k :: 0 <= k < |s| ==> r[k] == LowerChar(s[k])
  {
    seq(|s|, k requires 0 <= k < |s| => LowerChar(s[k]))
  }

  /** `s.toUpperCase()` on ASCII letters. */
  function Upper(s: string): (r: string)
    ensures |r| == |s|
    ensures forall k :: 0 <= k < |s| ==> r[k] == UpperChar(s[k])
  {
    seq(|s|, k requires 0 <= k < |s| => UpperChar(s[k]))
  }

  /** Upper-casing is idempotent, so comparing upper-cased strings is an
      equivalence that holds of a string and its upper-cased form. */
  lemma UpperIdempotent(s: string)
    ensures Upper(Upper(s)) == Upper(s)
  {
    assert forall k :: 0 <= k < |s| ==> UpperChar(UpperChar(s[k])) == UpperChar(s[k]);
  }

  lemma LowerIdempotent(s: string)
    ensures Lower(Lower(s)) == Lower(s)
  {
    assert forall k :: 0 <= k < |s| ==> LowerChar(LowerChar(s[k])) == LowerChar(s[k]);
  }

  /** JavaScript `s.includes(t)`: `t` occurs in `s` as a contiguous block. */
  function Includes(s: string, t: string): (r: bool)
    ensures r <==> exists i :: 0 <= i <= |s| && t <= s[i..]
    decreases |s|
  {
    if t <= s then
      assert s[0..] == s;
      true
    else if |s| == 0 then
      assert forall i :: 0 <= i <= |s| ==> s[i..] == [];
      false
    else
      assert forall i :: 1 <= i <= |s| ==> s[i..] == s[1..][i - 1..];
      Includes(s[1..], t)
  }

  /** The empty term occurs in every string; a string occurs in itself. */
  lemma IncludesEmptyAndSelf(s: string)
    ensures Includes(s, "")
    ensures Includes(s, s)
  {
    assert "" <= s[0..];
    assert s <= s[0..];
  }

  /** Case-insensitive `includes`, as the screens write it:
      `field.toLowerCase().includes(term.toLowerCase())`. */
  function Matches(field: string, term: string): bool {
    Includes(Lower(field), Lower(term))
  }

  /** JavaScript `a || b` on two strings: `a` unless it is empty. */
  function OrElse(a: string, b: string): (r: string)
    ensures a != "" ==> r == a
    ensures a == "" ==> r == b
    ensures r == "" <==> a == "" && b == ""
  {
    if a != "" then a else b
  }

  /** `a || b || … || fallback` on strings: the first non-empty option,
      or the fallback when every option is empty. */
  function FirstPresent(options: seq<string>, fallback: string): (r: string)
    ensures (forall k :: 0 <= k < |options| ==> options[k] == "") ==> r == fallback
    ensures forall i :: 0 <= i < |options| && options[i] != "" && (forall k :: 0 <= k < i ==> options[k] == "") ==> r == options[i]
  {
    if options == [] then fallback
    else
      var rest := FirstPresent(options[1..], fallback);
      assert forall k :: 1 <= k < |options| ==> options[k] == options[1..][k - 1];
      OrElse(options[0], rest)
  }

  /** A chain is empty only when every option and the fallback are. */
  lemma {:induction false} FirstPresentEmpty(options: seq<string>, fallback: string)
    ensures FirstPresent(options, fallback) == fallback || FirstPresent(options, fallback) in options
    ensures FirstPresent(options, fallback) == "" <==>
      fallback == "" && forall k :: 0 <= k < |options| ==> options[k] == ""
  {
    if options != [] {
      FirstPresentEmpty(options[1..], fallback);
      assert forall k :: 1 <= k < |options| ==> options[k] == options[1..][k - 1];
    }
  }

  /** Once some option is present the fallback is never reached. */
  lemma {:induction false} FirstPresentIgnoresFallback(options: seq<string>, a: string, b: string)
    requires exists k :: 0 <= k < |options| && options[k] != ""
    ensures FirstPresent(options, a) == FirstPresent(options, b)
  {
    if options[0] == "" {
      var k :| 0 <= k < |options| && options[k] != "";
      assert options[1..][k - 1] == options[k];
      FirstPresentIgnoresFallback(options[1..], a, b);
    }
  }

  /** A string includes anything its tail includes, and starts with itself. */
  lemma IncludesAfterPrefix(p: string, s: string, t: string)
    ensures Includes(p + s, p)
    ensures Includes(s, t) ==> Includes(p + s, t)
  {
    assert p <= (p + s)[0..];
    if Includes(s, t) {
      var i :| 0 <= i <= |s| && t <= s[i..];
      assert (p + s)[|p| + i..] == s[i..];
    }
  }

  /** `s.substring(0, n)` for n >= 0. */
  function Prefix(s: string, n: nat): (r: string)
    ensures |r| == if n <= |s| then n else |s|
    ensures r <= s
  {
    if n <= |s| then s[..n] else s
  }

  /** `parts.join(sep)`. */
  function Join(parts: seq<string>, sep: string): (r: string)
    ensures |parts| == 0 ==> r == ""
    ensures |parts| == 1 ==> r == parts[0]
    ensures |parts| > 0 ==> parts[0] <= r
  {
    if |parts| == 0 then ""
    else if |parts| == 1 then parts[0]
    else
      var tail := Join(parts[1..], sep);
      assert parts[0] <= parts[0] + sep + tail;
      parts[0] + sep + tail
  }

  /** Joining one more part appends the separator and that part: `join`
      puts exactly one separator between neighbouring parts. */
  lemma {:induction false} JoinSnoc(parts: seq<string>, sep: string, last: string)
    requires parts != []
    ensures Join(parts + [last], sep) == Join(parts, sep) + sep + last
  {
    var all := parts + [last];
    assert all[0] == parts[0];
    if |parts| == 1 {
      assert all[1..] == [last];
    } else {
      assert all[1..] == parts[1..] + [last];
      JoinSnoc(parts[1..], sep, last);
    }
  }

  /** Two, three and four parts joined. */
  lemma JoinSmall(a: string, b: string, c: string, d: string, sep: string)
    ensures Join([a, b], sep) == a + sep + b
    ensures Join([a, b, c], sep) == a + sep + b + sep + c
    ensures Join([a, b, c, d], sep) == a + sep + b + sep + c + sep + d
  {
    assert [a, b][1..] == [b];
    assert [a, b, c][1..] == [b, c];
    assert [a, b, c, d][1..] == [b, c, d];
    assert Join([b, c], sep) == b + sep + c;
    assert Join([b, c, d], sep) == b + sep + c + sep + d;
  }

  /** The length of a join: the parts and one separator between each pair. */
  lemma {:induction false} JoinLength(parts: seq<string>, sep: string, total: nat)
    requires parts != []
    requires total == SumLengths(parts)
    ensures |Join(parts, sep)| == total + (|parts| - 1) * |sep|
  {
    if |parts| > 1 {
      JoinLength(parts[1..], sep, SumLengths(parts[1..]));
    }
  }

  function SumLengths(parts: seq<string>): nat {
    if parts == [] then 0 else |parts[0]| + SumLengths(parts[1..])
  }

  /** The test a `if (x) list.push(x)` statement makes of a string. */
  predicate NonEmpty(s: string) {
    s != ""
  }

  /** The non-empty entries of `parts`, in order: what a sequence of
      `if (x) list.push(x)` statements collects. It is the filter by
      `NonEmpty`, so each present entry keeps its position and count. */
  function Present(parts: seq<string>): (r: seq<string>)
    ensures r == Filter(parts, NonEmpty)
    ensures |r| <= |parts|
    ensures forall k :: 0 <= k < |r| ==> r[k] != "" && r[k] in parts
    ensures forall x :: x in parts && x != "" ==> x in r
  {
    if |parts| == 0 then []
    else if parts[0] != "" then [parts[0]] + Present(parts[1..])
    else Present(parts[1..])
  }

  /** One `if (x) list.push(x)` statement in front of the others. */
  lemma PresentCons(x: string, rest: seq<string>)
    ensures Present([x] + rest) == if x != "" then [x] + Present(rest) else Present(rest)
  {
    assert ([x] + rest)[1..] == rest;
  }

  /** When every entry is present, all of them are pushed. */
  lemma {:induction false} PresentOfNonEmpty(parts: seq<string>)
    requires forall k :: 0 <= k < |parts| ==> parts[k] != ""
    ensures Present(parts) == parts
  {
    if parts != [] {
      PresentOfNonEmpty(parts[1..]);
    }
  }

  /** The collected entries keep the order of the statements, and each
      occurs as often as among the present inputs. */
  lemma PresentKeepsOrder(parts: seq<string>, x: string)
    ensures IsSubsequence(Present(parts), parts)
    ensures multiset(Present(parts))[x] == if x != "" then multiset(parts)[x] else 0
  {
    FilterIsSubsequence(parts, NonEmpty);
    FilterCounts(parts, NonEmpty, x);
  }

  function DigitChar(d: nat): char
    requires d < 10
  {
    ('0' as int + d) as char
  }

  predicate IsDigit(c: char) {
    '0' <= c <= '9'
  }

  /** The decimal numeral of `n`, as a template literal prints it. */
  function NatToString(n: nat): (r: string)
    ensures |r| >= 1
    ensures forall k :: 0 <= k < |r| ==> IsDigit(r[k])
    ensures r[0] == '0' <==> n == 0
    ensures n == 0 ==> r == "0"
  {
    if n < 10 then [DigitChar(n)]
    else NatToString(n / 10) + [DigitChar(n % 10)]
  }

  /** The decimal numeral of an integer, with a leading minus sign when
      it is negative (JavaScript prints negative zero as "0"). */
  function IntToString(i: int): (r: string)
    ensures |r| >= 1
    ensures i < 0 <==> r[0] == '-'
  {
    if i < 0 then "-" + NatToString(-i) else NatToString(i)
  }

  /** Reading a string of decimal digits back as a number. */
  function ParseNat(s: string): nat
    requires forall k :: 0 <= k < |s| ==> IsDigit(s[k])
  {
    if s == [] then 0
    else
      assert IsDigit(s[|s| - 1]);
      10 * ParseNat(s[..|s| - 1]) + (s[|s| - 1] as int - '0' as int)
  }

  function ParseInt(s: string): int
    requires |s| >= 1
    requires s[0] == '-' ==> forall k :: 1 <= k < |s| ==> IsDigit(s[k])
    requires s[0] != '-' ==> forall k :: 0 <= k < |s| ==> IsDigit(s[k])
  {
    if s[0] == '-' then 0 - (ParseNat(s[1..]) as int) else ParseNat(s)
  }

  /** Printing a number and reading it back gives the number. */
  lemma {:induction false} ParseNatToString(n: nat)
    ensures ParseNat(NatToString(n)) == n
  {
    if n >= 10 {
      var r := NatToString(n);
      assert r[..|r| - 1] == NatToString(n / 10);
      ParseNatToString(n / 10);
    }
  }

  lemma ParseIntToString(i: int)
    ensures ParseInt(IntToString(i)) == i
  {
    if i < 0 {
      var n := NatToString(-i);
      assert IntToString(i) == "-" + n;
      assert ("-" + n)[1..] == n;
      ParseNatToString(-i);
    } else {
      assert IntToString(i) == NatToString(i);
      ParseNatToString(i);
    }
  }
}

/** What the filter effects of the list screens have in common: the
    "All …" sentinels of the drop-downs, case-insensitive status equality,
    colour categories of status badges, and the step-by-step narrowing
    `if (active) filtered = filtered.filter(p)` with its meaning as one
    filter by the conjunction of the active conditions. */
module Listing {
  import opened Text
  import opened Collections

  /** The colour category of a badge or status text. */
  datatype Tone = Green | Blue | Yellow | Red | Gray

  const AllMonths: string := "All Months"
  const AllStatus: string := "All Status"

  /** `selectedMonth && selectedMonth !== "All Months"`. */
  predicate MonthFilterOn(selected: string) {
    selected != "" && selected != AllMonths
  }

  /** `selectedStatus && selectedStatus !== "All Status"`. */
  predicate StatusFilterOn(selected: string) {
    selected != "" && selected != AllStatus
  }

  /** `status.toUpperCase() === selected.toUpperCase()`. */
  predicate SameStatus(status: string, selected: string) {
    Upper(status) == Upper(selected)
  }

  /** Status equality ignores case, and relates a status to itself. */
  lemma SameStatusIsEquivalence(a: string, b: string, c: string)
    ensures SameStatus(a, a)
    ensures SameStatus(a, b) ==> SameStatus(b, a)
    ensures SameStatus(a, b) && SameStatus(b, c) ==> SameStatus(a, c)
    ensures SameStatus(a, Upper(a)) && SameStatus(Lower(a), a)
  {
    UpperIdempotent(a);
    UpperOfLower(a);
  }

  lemma UpperOfLower(s: string)
    ensures Upper(Lower(s)) == Upper(s)
  {
    assert forall k :: 0 <= k < |s| ==> Upper(Lower(s))[k] == UpperChar(LowerChar(s[k]));
  }

  /** One step of a filter effect: `if (active) filtered = filtered.filter(p)`. */
  function Narrow<T(==,!new)>(s: seq<T>, active: bool, p: T -> bool): (r: seq<T>)
    ensures !active ==> r == s
  {
    if active then Filter(s, p) else s
  }

  /** A step is a filter by "the step is off, or its condition holds". */
  lemma NarrowIsFilter<T(!new)>(s: seq<T>, active: bool, p: T -> bool, q: T -> bool)
    requires forall k :: 0 <= k < |s| ==> q(s[k]) == (!active || p(s[k]))
    ensures Narrow(s, active, p) == Filter(s, q)
  {
    if active {
      FilterAgree(s, p, q);
    } else {
      FilterAll(s, q);
    }
  }

  /** Two steps in a row are one filter by the conjunction of their conditions. */
  lemma NarrowTwice<T(!new)>(s: seq<T>, a: bool, p: T -> bool, b: bool, q: T -> bool, keep: T -> bool)
    requires forall k :: 0 <= k < |s| ==> keep(s[k]) == ((!a || p(s[k])) && (!b || q(s[k])))
    ensures Narrow(Narrow(s, a, p), b, q) == Filter(s, keep)
  {
    var pa := (x: T) => !a || p(x);
    var qb := (x: T) => !b || q(x);
    NarrowIsFilter(s, a, p, pa);
    var s1 := Filter(s, pa);
    forall k | 0 <= k < |s1| ensures qb(s1[k]) == (!b || q(s1[k])) { }
    NarrowIsFilter(s1, b, q, qb);
    FilterThenFilter(s, pa, qb, keep);
  }

  /** Three steps in a row are one filter by the conjunction of their conditions. */
  lemma NarrowThrice<T(!new)>(s: seq<T>, a: bool, p: T -> bool, b: bool, q: T -> bool, c: bool, r: T -> bool, keep: T -> bool)
    requires forall k :: 0 <= k < |s| ==> keep(s[k]) == ((!a || p(s[k])) && (!b || q(s[k])) && (!c || r(s[k])))
    ensures Narrow(Narrow(Narrow(s, a, p), b, q), c, r) == Filter(s, keep)
  {
    var ab := (x: T) => (!a || p(x)) && (!b || q(x));
    var rc := (x: T) => !c || r(x);
    NarrowTwice(s, a, p, b, q, ab);
    var s2 := Filter(s, ab);
    NarrowIsFilter(s2, c, r, rc);
    FilterThenFilter(s, ab, rc, keep);
  }
}

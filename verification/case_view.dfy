/** The case list's derived view: the status filter, the stable sort on a copy of the
    filtered list, and the relative-time labels. Everything here is a pure function of
    the loaded cases and the two view parameters. */
module CaseView {
  import opened Common

  datatype Status = Open | InProgress | Resolved | Closed
  datatype Priority = Critical | High | Medium | Low

  /** A case as the list receives it. Timestamps are milliseconds since the epoch, the
      value `new Date(...).getTime()` gives for the ISO-8601 strings of the server. */
  datatype Case = Case(
    id: string,
    title: string,
    description: string,
    status: Status,
    priority: Priority,
    createdAt: int,
    updatedAt: int,
    tags: Option<seq<string>>)

  /** The status drop-down: `all` or one status. */
  datatype StatusFilter = All | Only(status: Status)

  /** The sort drop-down. */
  datatype SortKey = Created | Updated | ByPriority

  /** `priorityOrder`: critical 0, high 1, medium 2, low 3. */
  function Rank(p: Priority): (n: nat)
    ensures n == 0 <==> p == Critical
    ensures n == 1 <==> p == High
    ensures n == 2 <==> p == Medium
    ensures n == 3 <==> p == Low
  {
    match p
    case Critical => 0
    case High => 1
    case Medium => 2
    case Low => 3
  }

  // ---------------------------------------------------------------------------
  // Order-preserving subsequences

  /** `a` can be obtained from `b` by deleting elements (greedy matching from the front,
      which decides the usual "strictly increasing index map" notion). */
  ghost predicate IsSubsequence<T>(a: seq<T>, b: seq<T>)
    decreases |b|
  {
    if a == [] then true
    else if b == [] then false
    else if a[0] == b[0] then IsSubsequence(a[1..], b[1..])
    else IsSubsequence(a, b[1..])
  }

  // ---------------------------------------------------------------------------
  // The status filter

  /** The filter callback: `all` keeps every case, otherwise the status must match. */
  predicate Keeps(f: StatusFilter, c: Case) {
    f.All? || c.status == f.status
  }

  /** `cases.filter(...)`: keeps exactly the cases the filter accepts, each as often as
      it occurs, in their original order. */
  function Filter(f: StatusFilter, cs: seq<Case>): (r: seq<Case>)
    ensures forall c :: multiset(r)[c] == if Keeps(f, c) then multiset(cs)[c] else 0
    ensures IsSubsequence(r, cs)
  {
    if cs == [] then []
    else
      var rest := Filter(f, cs[1..]);
      assert cs == [cs[0]] + cs[1..];
      if Keeps(f, cs[0]) then
        assert ([cs[0]] + rest)[1..] == rest;
        [cs[0]] + rest
      else
        assert rest != [] ==> rest[0] in multiset(rest);
        rest
  }

  lemma {:induction false} FilterAllKeepsEverything(cs: seq<Case>)
    ensures Filter(All, cs) == cs
  {
    if cs != [] {
      FilterAllKeepsEverything(cs[1..]);
      assert cs == [cs[0]] + cs[1..];
    }
  }

  // ---------------------------------------------------------------------------
  // The comparator and sortedness

  /** The number each key ranks a case by: the timestamp keys use the negated time, so
      that a smaller score means more recent. */
  function Score(key: SortKey, c: Case): int {
    match key
    case Created => -c.createdAt
    case Updated => -c.updatedAt
    case ByPriority => Rank(c.priority)
  }

  /** The comparator passed to `sort`: negative when `a` belongs before `b`. The two
      timestamp keys put the most recent first; `priority` puts the lowest rank first.
      It is a difference of scores, hence a consistent comparator. */
  function Compare(key: SortKey, a: Case, b: Case): (d: int)
    ensures d == Score(key, a) - Score(key, b)
  {
    match key
    case Created => b.createdAt - a.createdAt
    case Updated => b.updatedAt - a.updatedAt
    case ByPriority => Rank(a.priority) - Rank(b.priority)
  }

  /** No pair of the sequence is out of order for the comparator. */
  ghost predicate Sorted(key: SortKey, s: seq<Case>) {
    forall i, j :: 0 <= i < j < |s| ==> Score(key, s[i]) <= Score(key, s[j])
  }

  /** The elements of `s` that the comparator ranks equal to `p`, in their order in `s`.
      A sort is stable when it leaves every such run as it was. */
  function Ties(key: SortKey, p: Case, s: seq<Case>): seq<Case>
  {
    if s == [] then []
    else (if Score(key, s[0]) == Score(key, p) then [s[0]] else []) + Ties(key, p, s[1..])
  }

  /** The tie run of `p` holds exactly the elements of `s` that rank equal to `p`. */
  lemma {:induction false} TiesMembers(key: SortKey, p: Case, s: seq<Case>)
    ensures forall c :: c in Ties(key, p, s) <==> c in s && Score(key, c) == Score(key, p)
  {
    if s != [] {
      TiesMembers(key, p, s[1..]);
      assert s == [s[0]] + s[1..];
    }
  }

  // ---------------------------------------------------------------------------
  // Stable insertion sort

  /** Inserts `x`, which came before every element of `s` in the input, in front of the
      first element it does not follow, so that it stays ahead of its ties. */
  function Insert(key: SortKey, x: Case, s: seq<Case>): (r: seq<Case>)
    requires Sorted(key, s)
    ensures multiset(r) == multiset(s) + multiset{x}
    ensures Sorted(key, r)
  {
    if s == [] || Compare(key, x, s[0]) <= 0 then
      InsertAtFront(key, x, s);
      [x] + s
    else
      SortedTail(key, s);
      var rest := Insert(key, x, s[1..]);
      InsertBehindHead(key, x, s, rest);
      [s[0]] + rest
  }

  /** `x` goes in front of a sorted `s` whose head it does not follow. */
  lemma InsertAtFront(key: SortKey, x: Case, s: seq<Case>)
    requires Sorted(key, s) && (s == [] || Score(key, x) <= Score(key, s[0]))
    ensures multiset([x] + s) == multiset(s) + multiset{x}
    ensures Sorted(key, [x] + s)
  {
  }

  /** The tail of a sorted sequence is sorted. */
  lemma SortedTail(key: SortKey, s: seq<Case>)
    requires Sorted(key, s) && s != []
    ensures Sorted(key, s[1..])
  {
  }

  /** The head of a sorted `s` that `x` follows goes in front of the tail with `x`
      inserted. */
  lemma InsertBehindHead(key: SortKey, x: Case, s: seq<Case>, rest: seq<Case>)
    requires Sorted(key, s) && s != [] && Score(key, s[0]) < Score(key, x)
    requires multiset(rest) == multiset(s[1..]) + multiset{x} && Sorted(key, rest)
    ensures multiset([s[0]] + rest) == multiset(s) + multiset{x}
    ensures Sorted(key, [s[0]] + rest)
  {
    HeadBoundsInserted(key, x, s, rest);
    ConsSorted(key, s[0], rest);
    assert s == [s[0]] + s[1..];
  }

  /** The head of a sorted `s` that `x` follows still bounds the tail with `x` added. */
  lemma HeadBoundsInserted(key: SortKey, x: Case, s: seq<Case>, rest: seq<Case>)
    requires Sorted(key, s) && s != [] && Score(key, s[0]) <= Score(key, x)
    requires multiset(rest) == multiset(s[1..]) + multiset{x}
    ensures forall y :: y in rest ==> Score(key, s[0]) <= Score(key, y)
  {
    forall y | y in rest ensures Score(key, s[0]) <= Score(key, y) {
      assert y in multiset(rest);
      if y != x {
        assert y in multiset(s[1..]);
        SortedHeadIsMinimal(key, s, y);
      }
    }
  }

  /** An element scoring no more than any element of a sorted sequence can go in front. */
  lemma ConsSorted(key: SortKey, a: Case, s: seq<Case>)
    requires Sorted(key, s)
    requires forall y :: y in s ==> Score(key, a) <= Score(key, y)
    ensures Sorted(key, [a] + s)
  {
  }

  /** `[...filteredCases].sort(cmp)`: a new sequence, ordered by the comparator, with
      the same elements as the input. */
  function SortBy(key: SortKey, s: seq<Case>): (r: seq<Case>)
    ensures multiset(r) == multiset(s)
    ensures Sorted(key, r)
  {
    if s == [] then []
    else
      assert s == [s[0]] + s[1..];
      Insert(key, s[0], SortBy(key, s[1..]))
  }

  /** The run of `p`'s ties through `[c] + s`: `c` if it is tied, then those of `s`. */
  lemma TiesCons(key: SortKey, p: Case, c: Case, s: seq<Case>)
    ensures Ties(key, p, [c] + s) == (if Score(key, c) == Score(key, p) then [c] else []) + Ties(key, p, s)
  {
  }

  lemma {:induction false} InsertKeepsTies(key: SortKey, x: Case, s: seq<Case>, p: Case)
    requires Sorted(key, s)
    ensures Ties(key, p, Insert(key, x, s)) == Ties(key, p, [x] + s)
  {
    if s != [] && Compare(key, x, s[0]) > 0 {
      SortedTail(key, s);
      InsertKeepsTies(key, x, s[1..], p);
      TiesPassHead(key, p, x, s, Insert(key, x, s[1..]));
    }
  }

  /** Moving `x` behind a head it is not tied with leaves every tie run as it was. */
  lemma TiesPassHead(key: SortKey, p: Case, x: Case, s: seq<Case>, rest: seq<Case>)
    requires s != [] && Score(key, s[0]) != Score(key, x)
    requires Ties(key, p, rest) == Ties(key, p, [x] + s[1..])
    ensures Ties(key, p, [s[0]] + rest) == Ties(key, p, [x] + s)
  {
    var hs := if Score(key, s[0]) == Score(key, p) then [s[0]] else [];
    var hx := if Score(key, x) == Score(key, p) then [x] else [];
    var tail := Ties(key, p, s[1..]);
    TiesCons(key, p, s[0], rest);
    TiesCons(key, p, x, s[1..]);
    TiesCons(key, p, x, s);
    assert Ties(key, p, s) == hs + tail by {
      assert s == [s[0]] + s[1..];
      TiesCons(key, p, s[0], s[1..]);
    }
    // s[0] and x are not tied, so at most one of them joins p's run
    if Score(key, s[0]) == Score(key, p) {
      assert hx == [];
    } else {
      assert hs == [];
    }
  }

  /** Stability (section 22.1.3.27 of ECMA-262, 10th edition): every run of elements the
      comparator ranks equal keeps its input order. */
  lemma {:induction false} SortByIsStable(key: SortKey, s: seq<Case>, p: Case)
    ensures Ties(key, p, SortBy(key, s)) == Ties(key, p, s)
  {
    if s != [] {
      SortByIsStable(key, s[1..], p);
      InsertKeepsTies(key, s[0], SortBy(key, s[1..]), p);
      assert ([s[0]] + SortBy(key, s[1..]))[1..] == SortBy(key, s[1..]);
    }
  }

  /** The head of a sorted sequence scores no more than any of its elements. */
  lemma SortedHeadIsMinimal(key: SortKey, s: seq<Case>, c: Case)
    requires Sorted(key, s) && c in s
    ensures Score(key, s[0]) <= Score(key, c)
  {
  }

  /** Two sorted permutations of each other with the same tie runs start alike: their
      heads are both minimal, hence tied, and each heads its own run. */
  lemma SortedHeadsAgree(key: SortKey, r: seq<Case>, t: seq<Case>)
    requires r != [] && multiset(r) == multiset(t)
    requires Sorted(key, r) && Sorted(key, t)
    requires Ties(key, r[0], r) == Ties(key, r[0], t)
    ensures t != [] && r[0] == t[0]
  {
    assert r[0] in multiset(t);
    assert t[0] in multiset(r) by { assert t[0] in multiset(t); }
    SortedHeadIsMinimal(key, t, r[0]);
    SortedHeadIsMinimal(key, r, t[0]);
    TiedHeadLeadsRun(key, r[0], r);
    TiedHeadLeadsRun(key, r[0], t);
  }

  /** A head tied with `p` is the first element of `p`'s run. */
  lemma TiedHeadLeadsRun(key: SortKey, p: Case, s: seq<Case>)
    requires s != [] && Score(key, s[0]) == Score(key, p)
    ensures Ties(key, p, s) != [] && Ties(key, p, s)[0] == s[0]
  {
  }

  /** Dropping a common head leaves the tie runs of the tails equal. */
  lemma TailTiesAgree(key: SortKey, r: seq<Case>, t: seq<Case>, p: Case)
    requires r != [] && t != [] && r[0] == t[0]
    requires Ties(key, p, r) == Ties(key, p, t)
    ensures Ties(key, p, r[1..]) == Ties(key, p, t[1..])
  {
    var head := if Score(key, r[0]) == Score(key, p) then [r[0]] else [];
    TiesCons(key, p, r[0], r[1..]);
    TiesCons(key, p, t[0], t[1..]);
    assert r == [r[0]] + r[1..];
    assert t == [t[0]] + t[1..];
    assert Ties(key, p, r[1..]) == (head + Ties(key, p, r[1..]))[|head|..];
    assert Ties(key, p, t[1..]) == (head + Ties(key, p, t[1..]))[|head|..];
  }

  /** Two sorted permutations with a common head have sorted tails that are
      permutations of each other. */
  lemma TailsAgree(key: SortKey, r: seq<Case>, t: seq<Case>)
    requires r != [] && t != [] && r[0] == t[0] && multiset(r) == multiset(t)
    requires Sorted(key, r) && Sorted(key, t)
    ensures multiset(r[1..]) == multiset(t[1..])
    ensures Sorted(key, r[1..]) && Sorted(key, t[1..])
  {
    assert r == [r[0]] + r[1..];
    assert t == [t[0]] + t[1..];
    assert multiset(r[1..]) == multiset(r) - multiset{r[0]};
    assert multiset(t[1..]) == multiset(t) - multiset{t[0]};
  }

  /** Any two stable sorts of the same input agree: the order the comparator leaves
      open is fixed by stability, so the model's insertion sort gives the same sequence
      as whatever stable algorithm an engine uses. */
  lemma {:induction false} StableSortIsUnique(key: SortKey, r: seq<Case>, t: seq<Case>)
    requires multiset(r) == multiset(t)
    requires Sorted(key, r) && Sorted(key, t)
    requires forall p :: Ties(key, p, r) == Ties(key, p, t)
    ensures r == t
  {
    if r == [] {
      assert |t| == |multiset(t)| == 0;
    } else {
      SortedHeadsAgree(key, r, t);
      forall p ensures Ties(key, p, r[1..]) == Ties(key, p, t[1..]) {
        TailTiesAgree(key, r, t, p);
      }
      TailsAgree(key, r, t);
      StableSortIsUnique(key, r[1..], t[1..]);
    }
  }

  /** A sequence already in order is returned as it is. */
  lemma {:induction false} SortBySortedIsIdentity(key: SortKey, s: seq<Case>)
    requires Sorted(key, s)
    ensures SortBy(key, s) == s
  {
    forall p ensures Ties(key, p, SortBy(key, s)) == Ties(key, p, s) {
      SortByIsStable(key, s, p);
    }
    StableSortIsUnique(key, SortBy(key, s), s);
  }

  // ---------------------------------------------------------------------------
  // The projection shown by the list

  /** `sortedCases`: the filtered cases, sorted on a copy. The result only ever holds
      cases from the input ("Showing N of M" has N <= M), each accepted by the filter,
      in comparator order. */
  function Project(cs: seq<Case>, f: StatusFilter, key: SortKey): (r: seq<Case>)
    ensures multiset(r) == multiset(Filter(f, cs))
    ensures multiset(r) <= multiset(cs)
    ensures |r| <= |cs|
    ensures forall c :: c in r ==> Keeps(f, c) && c in cs
    ensures Sorted(key, r)
  {
    var filtered := Filter(f, cs);
    var r := SortBy(key, filtered);
    FilterIsSubMultiset(f, cs);
    MultisetSubsetCard(multiset(r), multiset(cs));
    assert forall c :: c in r ==> c in multiset(filtered);
    r
  }

  /** The filtered collection draws on the collection, each case at most as often. */
  lemma FilterIsSubMultiset(f: StatusFilter, cs: seq<Case>)
    ensures multiset(Filter(f, cs)) <= multiset(cs)
  {
  }

  lemma MultisetSubsetCard<T>(a: multiset<T>, b: multiset<T>)
    requires a <= b
    ensures |a| <= |b|
  {
    assert b == a + (b - a);
  }

  /** What the three keys promise about adjacent and distant entries of the view. */
  lemma ProjectedOrder(cs: seq<Case>, f: StatusFilter, key: SortKey, i: int, j: int)
    requires 0 <= i < j < |Project(cs, f, key)|
    ensures var r := Project(cs, f, key);
      && (key == Created ==> r[i].createdAt >= r[j].createdAt)
      && (key == Updated ==> r[i].updatedAt >= r[j].updatedAt)
      && (key == ByPriority ==> Rank(r[i].priority) <= Rank(r[j].priority))
  {
  }

  /** Only the filter's status appears when the filter is not `all`, and `all` keeps
      every case. */
  lemma ProjectFilterExact(cs: seq<Case>, f: StatusFilter, key: SortKey)
    ensures forall c :: multiset(Project(cs, f, key))[c] == if Keeps(f, c) then multiset(cs)[c] else 0
    ensures f.Only? ==> forall c :: c in Project(cs, f, key) ==> c.status == f.status
    ensures f.All? ==> multiset(Project(cs, f, key)) == multiset(cs)
  {
  }

  /** Re-projecting the view with the same parameters changes nothing. */
  lemma {:induction false} ProjectIsIdempotent(cs: seq<Case>, f: StatusFilter, key: SortKey)
    ensures Project(Project(cs, f, key), f, key) == Project(cs, f, key)
  {
    var r := Project(cs, f, key);
    var again := Filter(f, r);
    assert multiset(again) == multiset(r) by {
      forall c ensures multiset(again)[c] == multiset(r)[c] {
        if !Keeps(f, c) {
          assert c !in r;
        }
      }
    }
    assert again == r by {
      FilterKeepsAccepted(f, r);
    }
    SortBySortedIsIdentity(key, r);
  }

  /** A filter returns a sequence whose elements it all accepts unchanged. */
  lemma {:induction false} FilterKeepsAccepted(f: StatusFilter, s: seq<Case>)
    requires forall c :: c in s ==> Keeps(f, c)
    ensures Filter(f, s) == s
  {
    if s != [] {
      FilterKeepsAccepted(f, s[1..]);
      assert s == [s[0]] + s[1..];
    }
  }

  // ---------------------------------------------------------------------------
  // Relative time labels

  const MsPerMinute: int := 60000
  const MsPerHour: int := 3600000
  const MsPerDay: int := 86400000

  /** The label `formatDate` picks; `LocaleDate` stands for `toLocaleDateString()`. */
  datatype Age = MinutesAgo(n: int) | HoursAgo(n: int) | DaysAgo(n: int) | LocaleDate

  /** `formatDate` on the millisecond difference `now - date`. The bucket is decided by
      the difference alone, and each count is the number of whole units elapsed. */
  function FormatDate(diffMs: int): (r: Age)
    ensures r.MinutesAgo? <==> diffMs < 60 * MsPerMinute
    ensures r.HoursAgo? <==> 60 * MsPerMinute <= diffMs < 24 * MsPerHour
    ensures r.DaysAgo? <==> 24 * MsPerHour <= diffMs < 7 * MsPerDay
    ensures r.MinutesAgo? ==> r.n < 60 && r.n * MsPerMinute <= diffMs < (r.n + 1) * MsPerMinute
    ensures r.HoursAgo? ==> 1 <= r.n < 24 && r.n * MsPerHour <= diffMs < (r.n + 1) * MsPerHour
    ensures r.DaysAgo? ==> 1 <= r.n < 7 && r.n * MsPerDay <= diffMs < (r.n + 1) * MsPerDay
  {
    // Math.floor(x / k) for a positive k is Euclidean division
    var diffMins := diffMs / MsPerMinute;
    var diffHours := diffMs / MsPerHour;
    var diffDays := diffMs / MsPerDay;
    if diffMins < 60 then MinutesAgo(diffMins)
    else if diffHours < 24 then HoursAgo(diffHours)
    else if diffDays < 7 then DaysAgo(diffDays)
    else LocaleDate
  }

  /** The number a string of decimal digits denotes. */
  function DigitsValue(s: string): int
    decreases |s|
  {
    if s == [] then 0 else DigitsValue(s[..|s| - 1]) * 10 + ((s[|s| - 1] as int) - ('0' as int))
  }

  predicate AllDigits(s: string) {
    forall k :: 0 <= k < |s| ==> '0' <= s[k] <= '9'
  }

  /** `s` is how JavaScript writes the integer `n`: its decimal digits without leading
      zeros, after a minus sign when `n` is negative. */
  ghost predicate Denotes(s: string, n: int) {
    if n >= 0 then
      |s| > 0 && AllDigits(s) && DigitsValue(s) == n && (|s| > 1 ==> s[0] != '0')
    else
      |s| > 1 && s[0] == '-' && AllDigits(s[1..]) && DigitsValue(s[1..]) == -n && (|s| > 2 ==> s[1] != '0')
  }

  /** Appending one digit to a numeral multiplies its value by ten and adds the digit. */
  lemma DigitsValueSnoc(s: string, d: char)
    ensures DigitsValue(s + [d]) == DigitsValue(s) * 10 + ((d as int) - ('0' as int))
  {
    assert (s + [d])[..|s + [d]| - 1] == s;
  }

  /** `${n}` for an integer. */
  function Decimal(n: int): (s: string)
    ensures Denotes(s, n)
    decreases if n < 0 then 1 - n else n
  {
    if n < 0 then
      var t := Decimal(-n);
      assert ("-" + t)[1..] == t;
      "-" + t
    else if n < 10 then
      var d := ((n + '0' as int) as char);
      DigitsValueSnoc([], d);
      [d]
    else
      var t := Decimal(n / 10);
      var d := ((n % 10 + '0' as int) as char);
      DigitsValueSnoc(t, d);
      t + [d]
  }

  /** The unit suffix of a bucket that has a label. */
  function Suffix(a: Age): (u: string)
    requires !a.LocaleDate?
    ensures |u| == 5
  {
    match a
    case MinutesAgo(_) => "m ago"
    case HoursAgo(_) => "h ago"
    case DaysAgo(_) => "d ago"
  }

  /** The text the list shows: the count as JavaScript writes it, then the bucket's unit
      suffix; `None` where the locale-formatted date would appear. */
  function AgeText(a: Age): (t: Option<string>)
    ensures t.None? <==> a.LocaleDate?
    ensures t.Some? ==>
      && |t.value| > 5
      && t.value[|t.value| - 5..] == Suffix(a)
      && Denotes(t.value[..|t.value| - 5], a.n)
  {
    match a
    case LocaleDate => None
    case _ =>
      var count := Decimal(a.n);
      assert (count + Suffix(a))[..|count|] == count;
      assert (count + Suffix(a))[|count|..] == Suffix(a);
      Some(count + Suffix(a))
  }

  /** The label of a date is the number of whole minutes, hours or days elapsed, by the
      bucket the difference falls in; from a week on there is no relative label. */
  lemma RelativeLabel(diffMs: int)
    ensures diffMs < MsPerHour ==> AgeText(FormatDate(diffMs)) == Some(Decimal(diffMs / MsPerMinute) + "m ago")
    ensures MsPerHour <= diffMs < MsPerDay ==> AgeText(FormatDate(diffMs)) == Some(Decimal(diffMs / MsPerHour) + "h ago")
    ensures MsPerDay <= diffMs < 7 * MsPerDay ==> AgeText(FormatDate(diffMs)) == Some(Decimal(diffMs / MsPerDay) + "d ago")
    ensures diffMs >= 7 * MsPerDay ==> AgeText(FormatDate(diffMs)).None?
  {
  }
}

/** The trends screen's data preparation: a date-sorted copy of the records,
    cut to the last fourteen, each turned into a chart point whose energy is
    scored 1, 3 or 5; plus the two bar-highlight thresholds. Dates are ISO
    `YYYY-MM-DD` strings, whose character-by-character order is the
    calendar order the screen's date comparison gives. */
module Dashboard {
  import opened Types

  /** Lexicographic order on date strings. */
  predicate DateLe(a: string, b: string)
    decreases |a|
  {
    if |a| == 0 then true
    else if |b| == 0 then false
    else if a[0] != b[0] then a[0] < b[0]
    else DateLe(a[1..], b[1..])
  }

  lemma {:induction false} DateLeTotal(a: string, b: string)
    ensures DateLe(a, b) || DateLe(b, a)
    decreases |a|
  {
    if |a| != 0 && |b| != 0 && a[0] == b[0] {
      DateLeTotal(a[1..], b[1..]);
    }
  }

  lemma {:induction false} DateLeTrans(a: string, b: string, c: string)
    requires DateLe(a, b) && DateLe(b, c)
    ensures DateLe(a, c)
    decreases |a|
  {
    if |a| != 0 && |b| != 0 && |c| != 0 && a[0] == b[0] && b[0] == c[0] {
      DateLeTrans(a[1..], b[1..], c[1..]);
    }
  }

  predicate SortedByDate(rs: seq<DailyRecord>) {
    forall i, j :: 0 <= i < j < |rs| ==> DateLe(rs[i].date, rs[j].date)
  }

  /** Every record in `rs` is dated no earlier than `d`. */
  predicate DatedFrom(d: string, rs: seq<DailyRecord>) {
    forall j :: 0 <= j < |rs| ==> DateLe(d, rs[j].date)
  }

  /** Being dated from `d` depends only on which records there are. */
  lemma DatedFromMultiset(d: string, a: seq<DailyRecord>, b: seq<DailyRecord>)
    requires multiset(a) <= multiset(b) && DatedFrom(d, b)
    ensures DatedFrom(d, a)
  {
    forall j | 0 <= j < |a| ensures DateLe(d, a[j].date) {
      assert a[j] in multiset(b);
      var k :| 0 <= k < |b| && b[k] == a[j];
    }
  }

  /** Puts `r` in front of the first record dated no earlier than it. */
  function InsertByDate(r: DailyRecord, rs: seq<DailyRecord>): (u: seq<DailyRecord>)
    ensures multiset(u) == multiset(rs) + multiset{r}
    ensures |u| == |rs| + 1
  {
    if |rs| == 0 then [r]
    else if DateLe(r.date, rs[0].date) then [r] + rs
    else
      assert rs == [rs[0]] + rs[1..];
      [rs[0]] + InsertByDate(r, rs[1..])
  }

  lemma {:induction false} InsertSorted(r: DailyRecord, rs: seq<DailyRecord>)
    requires SortedByDate(rs)
    ensures SortedByDate(InsertByDate(r, rs))
  {
    if |rs| == 0 {
    } else if DateLe(r.date, rs[0].date) {
      forall j | 0 < j < |rs| ensures DateLe(r.date, rs[j].date) {
        DateLeTrans(r.date, rs[0].date, rs[j].date);
      }
    } else {
      var tail := InsertByDate(r, rs[1..]);
      InsertSorted(r, rs[1..]);
      DateLeTotal(r.date, rs[0].date);
      assert DatedFrom(rs[0].date, rs[1..] + [r]);
      assert multiset(tail) == multiset(rs[1..] + [r]);
      DatedFromMultiset(rs[0].date, tail, rs[1..] + [r]);
    }
  }

  /** `[...records].sort(by date)`: a sorted copy holding the same records. */
  function SortByDate(rs: seq<DailyRecord>): (s: seq<DailyRecord>)
    ensures SortedByDate(s)
    ensures multiset(s) == multiset(rs)
    ensures |s| == |rs|
  {
    if |rs| == 0 then []
    else
      assert rs == [rs[0]] + rs[1..];
      InsertSorted(rs[0], SortByDate(rs[1..]));
      InsertByDate(rs[0], SortByDate(rs[1..]))
  }

  /** `slice(-n)`: the last `n` elements, or all of them when there are
      fewer. As in JavaScript, `slice(-0)` is `slice(0)`, the whole list. */
  function TakeLast<T>(s: seq<T>, n: nat): (r: seq<T>)
    ensures |r| == if n == 0 || |s| < n then |s| else n
    ensures r == s[|s| - |r|..]
  {
    if n == 0 || |s| <= n then s else s[|s| - n..]
  }

  const WindowSize: nat := 14

  lemma SplitMultiset(s: seq<DailyRecord>, k: nat)
    requires k <= |s|
    ensures multiset(s) == multiset(s[..k]) + multiset(s[k..])
  {
    assert s == s[..k] + s[k..];
  }

  lemma SortedSuffix(s: seq<DailyRecord>, k: nat)
    requires SortedByDate(s) && k <= |s|
    ensures SortedByDate(s[k..])
  {
  }

  /** In a sorted list, every record cut off in front of position `k` is
      dated no later than any record from `k` on. */
  lemma SortedPrefixFirst(s: seq<DailyRecord>, k: nat)
    requires SortedByDate(s) && k <= |s|
    ensures forall x :: x in multiset(s) - multiset(s[k..]) ==> DatedFrom(x.date, s[k..])
  {
    SplitMultiset(s, k);
    forall x | x in multiset(s) - multiset(s[k..])
      ensures DatedFrom(x.date, s[k..])
    {
      assert x in s[..k];
      var i :| 0 <= i < k && s[i] == x;
      forall j | 0 <= j < |s| - k ensures DateLe(x.date, s[k..][j].date) {
        assert s[k..][j] == s[k + j];
      }
    }
  }

  /** The records the charts show; those left out are dated no later than
      any that are kept. */
  function Window(rs: seq<DailyRecord>): (w: seq<DailyRecord>)
    ensures |w| == if |rs| < WindowSize then |rs| else WindowSize
    ensures SortedByDate(w)
    ensures multiset(w) <= multiset(rs)
    ensures |rs| <= WindowSize ==> multiset(w) == multiset(rs)
    ensures forall x :: x in multiset(rs) - multiset(w) ==> DatedFrom(x.date, w)
  {
    var s := SortByDate(rs);
    var w := TakeLast(s, WindowSize);
    var k := |s| - |w|;
    assert w == s[k..];
    assert SortedByDate(w) by {
      SortedSuffix(s, k);
    }
    assert multiset(w) <= multiset(rs) by {
      SplitMultiset(s, k);
    }
    assert forall x :: x in multiset(rs) - multiset(w) ==> DatedFrom(x.date, w) by {
      SortedPrefixFirst(s, k);
    }
    w
  }

  /** The energy bar's height. */
  function EnergyScore(e: EnergyLevel): (n: int)
    ensures n == 1 <==> e == Low
    ensures n == 3 <==> e == Medium
    ensures n == 5 <==> e == High
  {
    match e
    case Low => 1
    case Medium => 3
    case High => 5
  }

  /** One chart point. The date stays the record's ISO date; turning it into
      a short weekday label is locale formatting. */
  datatype Point = Point(date: string, mood: int, sleep: int, energy: int)

  function PointOf(r: DailyRecord): (p: Point)
    ensures p.date == r.date && p.mood == r.moodValue && p.sleep == r.sleepQuality
    ensures p.energy == EnergyScore(r.energyLevel)
  {
    Point(r.date, r.moodValue, r.sleepQuality, EnergyScore(r.energyLevel))
  }

  /** The chart data: one point per windowed record, in date order. */
  function TrendData(rs: seq<DailyRecord>): (d: seq<Point>)
    ensures |d| == |Window(rs)|
    ensures forall i :: 0 <= i < |d| ==> d[i] == PointOf(Window(rs)[i])
    ensures forall i, j :: 0 <= i < j < |d| ==> DateLe(d[i].date, d[j].date)
  {
    var w := Window(rs);
    seq(|w|, i requires 0 <= i < |w| => PointOf(w[i]))
  }

  /** The energy bar is tinted red above the middle score. */
  predicate HighEnergyBar(p: Point) {
    p.energy > 3
  }

  /** The sleep bar is shaded darker below the middle quality. */
  predicate LowSleepBar(p: Point) {
    p.sleep < 3
  }

  /** The energy tint marks exactly the High-energy days, and the sleep
      shade exactly the nights rated 1 or 2 (on the usual 1 to 5 scale). */
  lemma HighlightsOfRecord(r: DailyRecord)
    ensures HighEnergyBar(PointOf(r)) <==> r.energyLevel == High
    ensures 1 <= r.sleepQuality <= 5 ==> (LowSleepBar(PointOf(r)) <==> r.sleepQuality in {1, 2})
  {
  }
}

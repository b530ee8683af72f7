/**
The sorted-set log of one rate limit: "<cost>:<identifier>" members scored by
admission time, oldest first. Members are kept in decoded form; `Members`
shows that the decoding loses nothing.

Entries with equal scores are kept in insertion order. Redis orders them by
member bytes; no result below depends on the order of ties.
*/
module RateLog {
  datatype Member = Member(cost: nat, id: string)
  datatype Entry = Entry(at: int, member: Member)
  type Log = seq<Entry>

  ghost predicate Sorted(log: Log) {
    forall i, j :: 0 <= i < j < |log| ==> log[i].at <= log[j].at
  }

  ghost predicate Distinct(log: Log) {
    forall i, j :: 0 <= i < j < |log| ==> log[i].member != log[j].member
  }

  ghost predicate IsLog(log: Log) {
    Sorted(log) && Distinct(log)
  }

  ghost predicate NoneAfter(log: Log, now: int) {
    forall i :: 0 <= i < |log| ==> log[i].at <= now
  }

  ghost predicate AllAfter(log: Log, cutoff: int) {
    forall i :: 0 <= i < |log| ==> log[i].at > cutoff
  }

  /** ZSCORE: is the member recorded? */
  predicate Has(log: Log, m: Member) {
    exists i :: 0 <= i < |log| && log[i].member == m
  }

  /** The units held by all entries. */
  function Sum(log: Log): nat {
    if log == [] then 0 else log[0].member.cost + Sum(log[1..])
  }

  /** The units of the entries admitted in (lo, hi]: the reference meaning of "consumed in a window". */
  function UnitsIn(log: Log, lo: int, hi: int): nat {
    if log == [] then 0
    else (if lo < log[0].at <= hi then log[0].member.cost else 0) + UnitsIn(log[1..], lo, hi)
  }

  /** ZREM. */
  function Drop(log: Log, m: Member): Log {
    if log == [] then []
    else if log[0].member == m then Drop(log[1..], m)
    else [log[0]] + Drop(log[1..], m)
  }

  /** ZADD of a member that is not recorded. */
  function Insert(log: Log, e: Entry): (r: Log)
    ensures |r| == |log| + 1
  {
    if log == [] || log[0].at > e.at then [e] + log
    else [log[0]] + Insert(log[1..], e)
  }

  /** How many entries ZREMRANGEBYSCORE -inf cutoff removes: the leading ones scored at or before it. */
  function Expired(log: Log, cutoff: int): (n: nat)
    ensures n <= |log|
    ensures forall i :: 0 <= i < n ==> log[i].at <= cutoff
    ensures n < |log| ==> log[n].at > cutoff
  {
    if log == [] || log[0].at > cutoff then 0 else 1 + Expired(log[1..], cutoff)
  }

  /** The entries that survive ZREMRANGEBYSCORE -inf cutoff. */
  function Live(log: Log, cutoff: int): Log {
    log[Expired(log, cutoff)..]
  }

  // -- sums ------------------------------------------------------------------

  lemma {:induction false} SumConcat(a: Log, b: Log)
    ensures Sum(a + b) == Sum(a) + Sum(b)
  {
    if a == [] {
      assert a + b == b;
    } else {
      assert (a + b)[1..] == a[1..] + b;
      SumConcat(a[1..], b);
    }
  }

  lemma {:induction false} UnitsConcat(a: Log, b: Log, lo: int, hi: int)
    ensures UnitsIn(a + b, lo, hi) == UnitsIn(a, lo, hi) + UnitsIn(b, lo, hi)
  {
    if a == [] {
      assert a + b == b;
    } else {
      assert (a + b)[1..] == a[1..] + b;
      UnitsConcat(a[1..], b, lo, hi);
    }
  }

  lemma {:induction false} UnitsOutside(log: Log, lo: int, hi: int)
    requires forall i :: 0 <= i < |log| ==> !(lo < log[i].at <= hi)
    ensures UnitsIn(log, lo, hi) == 0
  {
    if log != [] {
      assert forall i :: 0 <= i < |log[1..]| ==> log[1..][i] == log[i + 1];
      UnitsOutside(log[1..], lo, hi);
    }
  }

  lemma {:induction false} UnitsInside(log: Log, lo: int, hi: int)
    requires forall i :: 0 <= i < |log| ==> lo < log[i].at <= hi
    ensures UnitsIn(log, lo, hi) == Sum(log)
  {
    if log != [] {
      assert forall i :: 0 <= i < |log[1..]| ==> log[1..][i] == log[i + 1];
      UnitsInside(log[1..], lo, hi);
    }
  }

  /** A wider window holds at least as much. */
  lemma {:induction false} UnitsMonotone(log: Log, lo: int, hi: int, lo': int, hi': int)
    requires lo' <= lo && hi <= hi'
    ensures UnitsIn(log, lo, hi) <= UnitsIn(log, lo', hi')
  {
    if log != [] {
      UnitsMonotone(log[1..], lo, hi, lo', hi');
    }
  }

  // -- eviction --------------------------------------------------------------

  lemma {:induction false} SortedSuffix(log: Log, n: nat)
    requires IsLog(log) && n <= |log|
    ensures IsLog(log[n..]) && IsLog(log[..n])
  {
    assert forall i :: 0 <= i < |log[n..]| ==> log[n..][i] == log[i + n];
  }

  lemma LiveIsLog(log: Log, cutoff: int)
    requires IsLog(log)
    ensures IsLog(Live(log, cutoff)) && AllAfter(Live(log, cutoff), cutoff)
  {
    var n := Expired(log, cutoff);
    SortedSuffix(log, n);
    forall i | 0 <= i < |log[n..]| ensures log[n..][i].at > cutoff {
      assert log[n..][i] == log[i + n] && log[n].at <= log[i + n].at;
    }
  }

  lemma LiveSum(log: Log, cutoff: int)
    ensures Sum(log) == Sum(log[..Expired(log, cutoff)]) + Sum(Live(log, cutoff))
  {
    var n := Expired(log, cutoff);
    assert log == log[..n] + log[n..];
    SumConcat(log[..n], log[n..]);
  }

  lemma LiveIsSuffix(log: Log, cutoff: int)
    requires IsLog(log)
    ensures IsLog(Live(log, cutoff)) && AllAfter(Live(log, cutoff), cutoff)
    ensures Sum(log) == Sum(log[..Expired(log, cutoff)]) + Sum(Live(log, cutoff))
  {
    LiveIsLog(log, cutoff);
    LiveSum(log, cutoff);
  }

  /** Eviction takes nothing out of a window that begins at the cutoff or later. */
  lemma LiveUnits(log: Log, cutoff: int, lo: int, hi: int)
    requires cutoff <= lo
    ensures UnitsIn(Live(log, cutoff), lo, hi) == UnitsIn(log, lo, hi)
  {
    var n := Expired(log, cutoff);
    assert log == log[..n] + log[n..];
    UnitsConcat(log[..n], log[n..], lo, hi);
    UnitsOutside(log[..n], lo, hi);
  }

  lemma {:induction false} NothingExpired(log: Log, cutoff: int)
    requires AllAfter(log, cutoff)
    ensures Expired(log, cutoff) == 0 && Live(log, cutoff) == log
  {
  }

  // -- insertion and removal -------------------------------------------------

  lemma {:induction false} InsertMultiset(log: Log, e: Entry)
    ensures multiset(Insert(log, e)) == multiset(log) + multiset{e}
  {
    if log != [] && log[0].at <= e.at {
      InsertMultiset(log[1..], e);
      assert log == [log[0]] + log[1..];
    }
  }

  lemma {:induction false} InsertAdds(log: Log, e: Entry)
    ensures Sum(Insert(log, e)) == Sum(log) + e.member.cost
  {
    if log == [] || log[0].at > e.at {
      assert ([e] + log)[1..] == log;
    } else {
      InsertAdds(log[1..], e);
      var r := Insert(log[1..], e);
      assert ([log[0]] + r)[1..] == r;
    }
  }

  lemma InsertContents(log: Log, e: Entry)
    ensures multiset(Insert(log, e)) == multiset(log) + multiset{e}
    ensures Sum(Insert(log, e)) == Sum(log) + e.member.cost
    ensures Has(Insert(log, e), e.member)
  {
    InsertMultiset(log, e);
    InsertAdds(log, e);
    assert e in multiset(Insert(log, e));
    HasEntry(Insert(log, e), e);
  }

  lemma {:induction false} InsertUnits(log: Log, e: Entry, lo: int, hi: int)
    ensures UnitsIn(Insert(log, e), lo, hi) == UnitsIn(log, lo, hi) + (if lo < e.at <= hi then e.member.cost else 0)
  {
    if log == [] || log[0].at > e.at {
      assert ([e] + log)[1..] == log;
    } else {
      InsertUnits(log[1..], e, lo, hi);
      var r := Insert(log[1..], e);
      assert ([log[0]] + r)[1..] == r;
    }
  }

  /** Where each entry of an extended log comes from. */
  lemma {:induction false} InsertMembers(log: Log, e: Entry)
    ensures forall x :: x in Insert(log, e) <==> x in log || x == e
  {
    InsertContents(log, e);
    forall x ensures x in Insert(log, e) <==> x in log || x == e {
      assert x in Insert(log, e) <==> x in multiset(Insert(log, e));
      assert x in log <==> x in multiset(log);
    }
  }

  lemma {:induction false} InsertIsLog(log: Log, e: Entry)
    requires IsLog(log) && !Has(log, e.member)
    ensures IsLog(Insert(log, e))
  {
    if log == [] || log[0].at > e.at {
      var r := Insert(log, e);
      assert forall i :: 1 <= i < |r| ==> r[i] == log[i - 1];
    } else {
      var t, r := log[1..], Insert(log[1..], e);
      SortedSuffix(log, 1);
      InsertIsLog(t, e);
      InsertMembers(t, e);
      var s := Insert(log, e);
      assert forall i :: 1 <= i < |s| ==> s[i] == r[i - 1];
      forall i | 1 <= i < |s| ensures s[i].at >= s[0].at && s[i].member != s[0].member {
        assert s[i] in r;
        if s[i] != e {
          var k :| 0 <= k < |t| && t[k] == s[i];
          assert log[k + 1] == s[i];
        }
      }
    }
  }

  lemma {:induction false} DropAbsent(log: Log, m: Member)
    requires !Has(log, m)
    ensures Drop(log, m) == log
  {
    if log != [] {
      assert log[0].member != m;
      forall i | 0 <= i < |log[1..]| ensures log[1..][i].member != m {
        assert log[1..][i] == log[i + 1];
      }
      DropAbsent(log[1..], m);
    }
  }

  lemma {:induction false} DropMembers(log: Log, m: Member)
    ensures forall x :: x in Drop(log, m) <==> x in log && x.member != m
    ensures !Has(Drop(log, m), m)
    ensures forall m' :: m' != m ==> (Has(Drop(log, m), m') <==> Has(log, m'))
  {
    DropEntries(log, m);
    forall m' | m' != m ensures Has(Drop(log, m), m') <==> Has(log, m') {
      if Has(log, m') {
        var i :| 0 <= i < |log| && log[i].member == m';
        assert log[i] in Drop(log, m);
      }
      if Has(Drop(log, m), m') {
        var i :| 0 <= i < |Drop(log, m)| && Drop(log, m)[i].member == m';
        assert Drop(log, m)[i] in log;
      }
    }
    if Has(Drop(log, m), m) {
      var i :| 0 <= i < |Drop(log, m)| && Drop(log, m)[i].member == m;
      assert Drop(log, m)[i] in Drop(log, m);
      assert false;
    }
  }

  lemma {:induction false} DropEntries(log: Log, m: Member)
    ensures forall x :: x in Drop(log, m) <==> x in log && x.member != m
  {
    if log != [] {
      DropEntries(log[1..], m);
      assert log == [log[0]] + log[1..];
    }
  }

  lemma {:induction false} DropIsLog(log: Log, m: Member)
    requires IsLog(log)
    ensures IsLog(Drop(log, m))
  {
    if log != [] {
      var t := log[1..];
      SortedSuffix(log, 1);
      DropIsLog(t, m);
      if log[0].member != m {
        DropEntries(t, m);
        var r, s := Drop(t, m), Drop(log, m);
        assert forall i :: 1 <= i < |s| ==> s[i] == r[i - 1];
        forall i | 1 <= i < |s| ensures s[i].at >= s[0].at && s[i].member != s[0].member {
          assert s[i] in r;
          var k :| 0 <= k < |t| && t[k] == s[i];
          assert log[k + 1] == s[i];
        }
      }
    }
  }

  /** In a log whose head has the member, the head is the entry and the rest does not have it. */
  lemma HeadOnly(log: Log, e: Entry)
    requires Distinct(log) && e in log && log[0].member == e.member
    ensures log[0] == e && !Has(log[1..], e.member)
  {
    forall i | 0 <= i < |log[1..]| ensures log[1..][i].member != e.member {
      assert log[1..][i] == log[i + 1];
    }
    var j :| 0 <= j < |log| && log[j] == e;
  }

  lemma DistinctTail(log: Log)
    requires Distinct(log) && log != []
    ensures Distinct(log[1..])
  {
    assert forall i :: 0 <= i < |log[1..]| ==> log[1..][i] == log[i + 1];
  }

  lemma {:induction false} DropMultiset(log: Log, e: Entry)
    requires Distinct(log) && e in log
    ensures multiset(Drop(log, e.member)) == multiset(log) - multiset{e}
  {
    var t := log[1..];
    assert log == [log[0]] + t;
    if log[0].member == e.member {
      HeadOnly(log, e);
      DropAbsent(t, e.member);
    } else {
      DistinctTail(log);
      DropMultiset(t, e);
    }
  }

  lemma {:induction false} DropTakes(log: Log, e: Entry)
    requires Distinct(log) && e in log
    ensures Sum(Drop(log, e.member)) == Sum(log) - e.member.cost
  {
    var t := log[1..];
    assert log == [log[0]] + t;
    if log[0].member == e.member {
      HeadOnly(log, e);
      DropAbsent(t, e.member);
    } else {
      DistinctTail(log);
      DropTakes(t, e);
      assert ([log[0]] + Drop(t, e.member))[1..] == Drop(t, e.member);
    }
  }

  /** Removing a recorded member takes out its one entry, whole. */
  lemma DropContents(log: Log, e: Entry)
    requires IsLog(log) && e in log
    ensures multiset(Drop(log, e.member)) == multiset(log) - multiset{e}
    ensures Sum(Drop(log, e.member)) == Sum(log) - e.member.cost
  {
    DropMultiset(log, e);
    DropTakes(log, e);
  }

  /** ... and out of every window it lies in. */
  lemma {:induction false} DropUnits(log: Log, e: Entry, lo: int, hi: int)
    requires Distinct(log) && e in log
    ensures UnitsIn(Drop(log, e.member), lo, hi)
         == UnitsIn(log, lo, hi) - (if lo < e.at <= hi then e.member.cost else 0)
  {
    var t := log[1..];
    assert log == [log[0]] + t;
    if log[0].member == e.member {
      HeadOnly(log, e);
      DropAbsent(t, e.member);
    } else {
      DistinctTail(log);
      DropUnits(t, e, lo, hi);
      assert ([log[0]] + Drop(t, e.member))[1..] == Drop(t, e.member);
    }
  }

  /** ZREM lowers the sum by the member's cost if it is recorded, and by nothing otherwise. */
  lemma DropSum(log: Log, m: Member)
    requires IsLog(log)
    ensures Sum(Drop(log, m)) == Sum(log) - (if Has(log, m) then m.cost else 0)
  {
    if Has(log, m) {
      var i :| 0 <= i < |log| && log[i].member == m;
      DropContents(log, log[i]);
    } else {
      DropAbsent(log, m);
    }
  }

  lemma AbsentFromPart(part: Log, log: Log, m: Member)
    requires !Has(log, m) && forall x :: x in part ==> x in log
    ensures !Has(part, m)
  {
    forall i | 0 <= i < |part| ensures part[i].member != m {
      assert part[i] in part;
      var j :| 0 <= j < |log| && log[j] == part[i];
    }
  }

  lemma LiveMembers(log: Log, cutoff: int, e: Entry)
    ensures e in Live(log, cutoff) ==> e in log
    ensures e in log && e.at > cutoff ==> e in Live(log, cutoff)
  {
    var n := Expired(log, cutoff);
    assert log == log[..n] + log[n..];
    if e in log && e.at > cutoff {
      assert e !in log[..n];
    }
  }

  /** Eviction does not bring in a member. */
  lemma LiveAbsent(log: Log, cutoff: int, m: Member)
    requires !Has(log, m)
    ensures !Has(Live(log, cutoff), m)
  {
    forall x | x in Live(log, cutoff) ensures x in log {
      LiveMembers(log, cutoff, x);
    }
    AbsentFromPart(Live(log, cutoff), log, m);
  }

  lemma HasEntry(log: Log, e: Entry)
    requires e in log
    ensures Has(log, e.member)
  {
    var i :| 0 <= i < |log| && log[i] == e;
  }

  lemma DropAbsentUnlessHas(log: Log, m: Member)
    ensures !Has(log, m) ==> Drop(log, m) == log
  {
    if !Has(log, m) {
      DropAbsent(log, m);
    }
  }

  // -- splitting off a forgotten prefix ----------------------------------------

  lemma {:induction false} InsertAfterPrefix(a: Log, b: Log, e: Entry)
    requires forall i :: 0 <= i < |a| ==> a[i].at <= e.at
    ensures Insert(a + b, e) == a + Insert(b, e)
  {
    if a == [] {
      assert a + b == b;
    } else {
      assert (a + b)[1..] == a[1..] + b;
      InsertAfterPrefix(a[1..], b, e);
    }
  }

  lemma InsertLast(log: Log, e: Entry)
    requires NoneAfter(log, e.at)
    ensures Insert(log, e) == log + [e]
  {
    assert log + [] == log;
    InsertAfterPrefix(log, [], e);
  }
}

/**
  One Series: the bounded buffer of candles kept for a (symbol, interval)
  pair, a `deque(maxlen=cap)` in the original service. These are the value
  level rules for it; the service class applies them to its store.
*/
module Series {
  import opened Candles
  import opened PyBuiltins

  /** The deque's maxlen rule: only the newest `cap` candles survive. */
  function Bounded(s: seq<Candle>, cap: nat): (r: seq<Candle>)
    ensures |r| == Min(|s|, cap)
    ensures IsSuffix(r, s)
  {
    if |s| <= cap then s else s[|s| - cap..]
  }

  function Last(s: seq<Candle>): Candle
    requires |s| > 0
  {
    s[|s| - 1]
  }

  /** `deque.append`: the candle goes last; when full, the oldest drops out. */
  function DequeAppend(s: seq<Candle>, c: Candle, cap: nat): (r: seq<Candle>)
    ensures |r| == Min(|s| + 1, cap)
    ensures cap > 0 ==> r[|r| - 1] == c
  {
    Bounded(s + [c], cap)
  }

  /**
    The streaming upsert rule, keyed on open time: append into an empty
    buffer, replace the tail on an equal time, append on a newer time,
    and drop a candle older than the tail.
  */
  function UpsertSeries(s: seq<Candle>, c: Candle, cap: nat): (r: seq<Candle>)
    ensures |s| <= cap ==> |r| <= cap
  {
    if |s| == 0 then DequeAppend(s, c, cap)
    else if c.time == Last(s).time then s[..|s| - 1] + [c]
    else if c.time > Last(s).time then DequeAppend(s, c, cap)
    else s
  }

  /** `deque.extend`: appends each row in turn, with no timestamp check. */
  function ExtendSeries(s: seq<Candle>, rows: seq<Candle>, cap: nat): (r: seq<Candle>)
    ensures |s| <= cap || rows != [] ==> |r| == Min(|s| + |rows|, cap)
    ensures cap > 0 && rows != [] ==> r[|r| - 1] == rows[|rows| - 1]
    decreases |rows|
  {
    if rows == [] then s
    else
      var t := DequeAppend(s, rows[0], cap);
      assert |t| <= cap;
      assert |rows| > 1 ==> rows[1..][|rows| - 2] == rows[|rows| - 1];
      ExtendSeries(t, rows[1..], cap)
  }

  /** A run of streaming upserts, in arrival order. */
  function UpsertAll(s: seq<Candle>, cs: seq<Candle>, cap: nat): seq<Candle>
    decreases |cs|
  {
    if cs == [] then s else UpsertAll(UpsertSeries(s, cs[0], cap), cs[1..], cap)
  }

  // ---------------------------------------------------------------------
  // The four branches of the upsert rule

  lemma UpsertIntoEmpty(c: Candle, cap: nat)
    requires cap > 0
    ensures UpsertSeries([], c, cap) == [c]
  {
  }

  lemma UpsertSameTime(s: seq<Candle>, c: Candle, cap: nat)
    requires |s| > 0 && c.time == Last(s).time
    ensures |UpsertSeries(s, c, cap)| == |s|
    ensures UpsertSeries(s, c, cap)[..|s| - 1] == s[..|s| - 1]
    ensures UpsertSeries(s, c, cap)[|s| - 1] == c
  {
  }

  lemma UpsertNewer(s: seq<Candle>, c: Candle, cap: nat)
    requires 0 < |s| <= cap && c.time > Last(s).time
    ensures |s| < cap ==> UpsertSeries(s, c, cap) == s + [c]
    ensures |s| == cap ==> UpsertSeries(s, c, cap) == s[1..] + [c]
  {
    if |s| == cap {
      assert (s + [c])[1..] == s[1..] + [c];
    }
  }

  lemma UpsertStale(s: seq<Candle>, c: Candle, cap: nat)
    requires |s| > 0 && c.time < Last(s).time
    ensures UpsertSeries(s, c, cap) == s
  {
  }

  /** Re-applying the same candle changes nothing further. */
  lemma UpsertIdempotent(s: seq<Candle>, c: Candle, cap: nat)
    requires |s| <= cap
    ensures UpsertSeries(UpsertSeries(s, c, cap), c, cap) == UpsertSeries(s, c, cap)
  {
    var r := UpsertSeries(s, c, cap);
    if cap > 0 && r != s {
      assert Last(r) == c;
      assert r[..|r| - 1] + [c] == r;
    }
  }

  // ---------------------------------------------------------------------
  // Ordering and size under upserts

  lemma SuffixAscending(s: seq<Candle>, k: nat)
    requires StrictlyAscending(s) && k <= |s|
    ensures StrictlyAscending(s[k..])
  {
    assert forall i, j :: 0 <= i < j < |s| - k ==> s[k..][i] == s[k + i] && s[k..][j] == s[k + j];
  }

  lemma UpsertKeepsAscending(s: seq<Candle>, c: Candle, cap: nat)
    requires StrictlyAscending(s)
    ensures StrictlyAscending(UpsertSeries(s, c, cap))
  {
    if |s| == 0 || c.time > Last(s).time {
      var t := s + [c];
      assert StrictlyAscending(t);
      if |t| > cap {
        SuffixAscending(t, |t| - cap);
      }
    }
  }

  /**
    A buffer that only ever receives streaming upserts stays within its
    capacity and keeps strictly ascending, duplicate-free open times.
  */
  lemma {:induction false} UpsertOnlyInvariant(s: seq<Candle>, cs: seq<Candle>, cap: nat)
    requires |s| <= cap && StrictlyAscending(s)
    ensures |UpsertAll(s, cs, cap)| <= cap
    ensures StrictlyAscending(UpsertAll(s, cs, cap))
    decreases |cs|
  {
    if cs != [] {
      UpsertKeepsAscending(s, cs[0], cap);
      UpsertOnlyInvariant(UpsertSeries(s, cs[0], cap), cs[1..], cap);
    }
  }

  lemma UpsertsFromEmptyAscending(cs: seq<Candle>, cap: nat)
    ensures |UpsertAll([], cs, cap)| <= cap
    ensures StrictlyAscending(UpsertAll([], cs, cap))
  {
    UpsertOnlyInvariant([], cs, cap);
  }

  /** Trimming twice to the capacity is trimming once. */
  lemma BoundedAbsorbs(x: seq<Candle>, y: seq<Candle>, cap: nat)
    ensures Bounded(Bounded(x, cap) + y, cap) == Bounded(x + y, cap)
  {
    if |x| > cap {
      var k := |x| - cap;
      assert Bounded(x, cap) == x[k..];
      AppendDrop(x, y, k);
      BoundedDrop(x + y, k, cap);
    } else {
      assert Bounded(x, cap) == x;
    }
  }

  /** Dropping fewer than the surplus over `cap` does not change the trim. */
  lemma BoundedDrop(w: seq<Candle>, k: nat, cap: nat)
    requires k + cap <= |w|
    ensures Bounded(w[k..], cap) == Bounded(w, cap)
  {
    DropDrop(w, k, |w| - k - cap);
  }

  /** Dropping a prefix commutes with appending. */
  lemma AppendDrop(x: seq<Candle>, y: seq<Candle>, k: nat)
    requires k <= |x|
    ensures x[k..] + y == (x + y)[k..]
  {
  }

  /** Dropping `j` after dropping `k` is dropping `k + j`. */
  lemma DropDrop(w: seq<Candle>, k: nat, j: nat)
    requires k + j <= |w|
    ensures w[k..][j..] == w[k + j..]
  {
  }

  /**
    Newer and newer candles are all kept, oldest evicted first: the buffer
    ends as the last `cap` of everything that arrived.
  */
  lemma {:induction false} IncreasingUpsertsKeepNewest(s: seq<Candle>, cs: seq<Candle>, cap: nat)
    requires |s| <= cap && StrictlyAscending(s + cs)
    ensures UpsertAll(s, cs, cap) == Bounded(s + cs, cap)
    decreases |cs|
  {
    if cs == [] {
      assert s + cs == s;
    } else {
      var t := DequeAppend(s, cs[0], cap);
      IncreasingStep(s, cs, cap);
      IncreasingUpsertsKeepNewest(t, cs[1..], cap);
      ExtendStepTrim(s, cs, cap);
    }
  }

  /** One step of an increasing run: the upsert is a plain append, and ascent carries over. */
  lemma IncreasingStep(s: seq<Candle>, cs: seq<Candle>, cap: nat)
    requires |s| <= cap && StrictlyAscending(s + cs) && cs != []
    ensures UpsertAll(s, cs, cap) == UpsertAll(DequeAppend(s, cs[0], cap), cs[1..], cap)
    ensures StrictlyAscending(DequeAppend(s, cs[0], cap) + cs[1..])
  {
    var c := cs[0];
    assert |s| > 0 ==> c.time > Last(s).time by {
      assert (s + cs)[|s|] == c;
      assert |s| > 0 ==> (s + cs)[|s| - 1] == Last(s);
    }
    assert UpsertSeries(s, c, cap) == DequeAppend(s, c, cap);
    var t := DequeAppend(s, c, cap);
    var k := |s| + 1 - |t|;
    assert (s + cs)[k..] == t + cs[1..] by {
      BoundedIsDrop(s + [c], cap);
      AppendDrop(s + [c], cs[1..], k);
      assert (s + [c]) + cs[1..] == s + cs;
    }
    SuffixAscending(s + cs, k);
  }

  /** The trimmed sequence is what remains after dropping the surplus. */
  lemma BoundedIsDrop(w: seq<Candle>, cap: nat)
    ensures Bounded(w, cap) == w[|w| - |Bounded(w, cap)|..]
  {
  }

  // ---------------------------------------------------------------------
  // Backfill

  /** Extending appends everything and keeps the newest `cap` candles. */
  lemma {:induction false} ExtendKeepsNewest(s: seq<Candle>, rows: seq<Candle>, cap: nat)
    requires |s| <= cap
    ensures ExtendSeries(s, rows, cap) == Bounded(s + rows, cap)
    decreases |rows|
  {
    if rows == [] {
      assert ExtendSeries(s, rows, cap) == Bounded(s + rows, cap) by {
        assert s + rows == s;
      }
    } else {
      var t := DequeAppend(s, rows[0], cap);
      ExtendKeepsNewest(t, rows[1..], cap);
      assert ExtendSeries(s, rows, cap) == Bounded(s + rows, cap) by {
        assert ExtendSeries(s, rows, cap) == ExtendSeries(t, rows[1..], cap);
        ExtendStepTrim(s, rows, cap);
      }
    }
  }

  lemma ExtendStepTrim(s: seq<Candle>, rows: seq<Candle>, cap: nat)
    requires rows != []
    ensures Bounded(DequeAppend(s, rows[0], cap) + rows[1..], cap) == Bounded(s + rows, cap)
  {
    BoundedAbsorbs(s + [rows[0]], rows[1..], cap);
    assert (s + [rows[0]]) + rows[1..] == s + rows;
  }

  /**
    When the rows are in order and newer than the tail, extending agrees
    with upserting them one by one.
  */
  lemma ExtendAgreesWithUpserts(s: seq<Candle>, rows: seq<Candle>, cap: nat)
    requires |s| <= cap && StrictlyAscending(s + rows)
    ensures ExtendSeries(s, rows, cap) == UpsertAll(s, rows, cap)
  {
    ExtendKeepsNewest(s, rows, cap);
    IncreasingUpsertsKeepNewest(s, rows, cap);
  }

  /**
    Extending has no timestamp check: history that lands after a streamed
    candle with a time not newer than it leaves the buffer out of order.
  */
  lemma BackfillAfterStreamBreaksOrder(s: seq<Candle>, rows: seq<Candle>, cap: nat)
    requires |s| > 0 && |rows| > 0 && rows[0].time <= Last(s).time
    requires |s| + |rows| <= cap
    ensures !StrictlyAscending(ExtendSeries(s, rows, cap))
  {
    var e := ExtendSeries(s, rows, cap);
    assert e == s + rows by {
      ExtendKeepsNewest(s, rows, cap);
    }
    assert e[|s| - 1] == Last(s) && e[|s|] == rows[0];
    assert !(e[|s| - 1].time < e[|s|].time);
  }

  /**
    A backfill that brings at least `cap` rows replaces the whole buffer:
    every earlier candle, streamed ones included, is evicted, and the
    buffer is the newest `cap` rows in response order.
  */
  lemma FullBackfillReplaces(s: seq<Candle>, rows: seq<Candle>, cap: nat)
    requires |s| <= cap <= |rows|
    ensures ExtendSeries(s, rows, cap) == rows[|rows| - cap..]
  {
    ExtendKeepsNewest(s, rows, cap);
    assert (s + rows)[|s + rows| - cap..] == rows[|rows| - cap..];
  }

  /**
    Capacity 3, open times 100, 200, 300, 300 (with a new close), 400: the
    buffer ends as 200, the updated 300 and 400.
  */
  lemma ThreeSlotScenario(a: Candle, b: Candle, c: Candle, c2: Candle, d: Candle)
    requires a.time == 100 && b.time == 200 && c.time == 300 && c2.time == 300 && d.time == 400
    ensures UpsertAll([], [a, b, c, c2, d], 3) == [b, c2, d]
  {
    var cs := [a, b, c, c2, d];
    calc {
      UpsertAll([], cs, 3);
      { assert cs[1..] == [b, c, c2, d]; assert [] + [a] == [a]; }
      UpsertAll([a], [b, c, c2, d], 3);
      { assert [b, c, c2, d][1..] == [c, c2, d]; assert [a] + [b] == [a, b]; }
      UpsertAll([a, b], [c, c2, d], 3);
      { assert [c, c2, d][1..] == [c2, d]; assert [a, b] + [c] == [a, b, c]; }
      UpsertAll([a, b, c], [c2, d], 3);
      { assert [a, b, c][..2] + [c2] == [a, b, c2]; assert [c2, d][1..] == [d]; }
      UpsertAll([a, b, c2], [d], 3);
      { assert ([a, b, c2] + [d])[1..] == [b, c2, d]; }
      UpsertAll([b, c2, d], [], 3);
    }
  }
}

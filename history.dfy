/**
 * The bounded, deduplicated simulation history: the most recent entry first,
 * at most one entry per id, at most HISTORY_LIMIT entries.
 */
module History {
  import opened LoanMath

  const HISTORY_LIMIT: nat := 10

  function Min(a: nat, b: nat): nat {
    if a <= b then a else b
  }

  /** `a` is `b` with some elements left out, the rest in their original order. */
  predicate IsSubsequence<T(==)>(a: seq<T>, b: seq<T>) {
    if a == [] then true
    else if b == [] then false
    else if a[0] == b[0] then IsSubsequence(a[1..], b[1..])
    else IsSubsequence(a, b[1..])
  }

  lemma {:induction false} SubsequenceOfTail<T>(a: seq<T>, b: seq<T>)
    requires b != [] && IsSubsequence(a, b[1..])
    ensures IsSubsequence(a, b)
  {
    if a != [] && a[0] == b[0] {
      SubsequenceDropHead(a, b[1..]);
    }
  }

  lemma {:induction false} SubsequenceDropHead<T>(a: seq<T>, b: seq<T>)
    requires a != [] && IsSubsequence(a, b)
    ensures IsSubsequence(a[1..], b)
  {
    if a[0] == b[0] {
      if a[1..] != [] {
        SubsequenceOfTail(a[1..], b);
      }
    } else {
      SubsequenceDropHead(a, b[1..]);
      if a[1..] != [] {
        SubsequenceOfTail(a[1..], b);
      }
    }
  }

  /** Every prefix of a subsequence is a subsequence. */
  lemma {:induction false} SubsequencePrefix<T>(a: seq<T>, b: seq<T>, n: nat)
    requires n <= |a| && IsSubsequence(a, b)
    ensures IsSubsequence(a[..n], b)
  {
    if n > 0 {
      if a[0] == b[0] {
        SubsequencePrefix(a[1..], b[1..], n - 1);
        assert a[..n][1..] == a[1..][..n - 1];
      } else {
        SubsequencePrefix(a, b[1..], n);
      }
    }
  }

  /** `history.filter((item) => item.id !== id)`. */
  function WithoutId(history: seq<SimulationResult>, id: string): (r: seq<SimulationResult>)
    ensures |r| <= |history|
    ensures forall i :: 0 <= i < |r| ==> r[i].id != id
    ensures forall e :: e in history && e.id != id ==> e in r
    ensures forall e :: e in r ==> e in history
    ensures (forall e :: e in history ==> e.id != id) ==> r == history
    ensures (exists e :: e in history && e.id == id) ==> |r| < |history|
    ensures IsSubsequence(r, history)
  {
    if history == [] then []
    else
      var rest := WithoutId(history[1..], id);
      if history[0].id != id then
        [history[0]] + rest
      else
        SubsequenceOfTail(rest, history);
        rest
  }

  /** The filter keeps every copy of every entry whose id differs. */
  lemma {:induction false} WithoutIdKeepsCopies(history: seq<SimulationResult>, id: string)
    ensures forall e: SimulationResult :: e.id != id ==>
              multiset(WithoutId(history, id))[e] == multiset(history)[e]
  {
    if history != [] {
      WithoutIdKeepsCopies(history[1..], id);
      assert history == [history[0]] + history[1..];
      if history[0].id != id {
        assert WithoutId(history, id) == [history[0]] + WithoutId(history[1..], id);
      }
    }
  }

  /**
   * `upsertHistoryEntry`: `entry` goes first, any older entry with the same id
   * is dropped, and the list is cut to HISTORY_LIMIT entries.
   */
  function UpsertHistoryEntry(history: seq<SimulationResult>, entry: SimulationResult): (r: seq<SimulationResult>)
    ensures 1 <= |r| <= HISTORY_LIMIT
    ensures r[0] == entry
    ensures forall i :: 1 <= i < |r| ==> r[i].id != entry.id
    ensures forall e :: e in r[1..] ==> e in history
    ensures forall e :: e in history && e.id != entry.id && e !in r ==> |r| == HISTORY_LIMIT
    ensures |r| == Min(HISTORY_LIMIT, 1 + |WithoutId(history, entry.id)|)
    ensures r[1..] == WithoutId(history, entry.id)[..|r| - 1]
  {
    var kept := WithoutId(history, entry.id);
    var n := Min(HISTORY_LIMIT, 1 + |kept|);
    var r := ([entry] + kept)[..n];
    assert r[0] == entry;
    assert r[1..] == kept[..n - 1];
    assert n < HISTORY_LIMIT ==> r[1..] == kept;
    r
  }

  /** The entries after the head are old entries, in their original relative order. */
  lemma UpsertKeepsOrder(history: seq<SimulationResult>, entry: SimulationResult)
    ensures IsSubsequence(UpsertHistoryEntry(history, entry)[1..], history)
  {
    var kept := WithoutId(history, entry.id);
    var r := UpsertHistoryEntry(history, entry);
    assert r[1..] == kept[..|r| - 1];
    SubsequencePrefix(kept, history, |r| - 1);
  }

  /** A new id on a list below the limit grows it by exactly one, nothing dropped. */
  lemma UpsertNewId(history: seq<SimulationResult>, entry: SimulationResult)
    requires forall e :: e in history ==> e.id != entry.id
    requires |history| < HISTORY_LIMIT
    ensures UpsertHistoryEntry(history, entry) == [entry] + history
  {}

  /** A new id on a full (or over-full) list keeps the newest ten: the entry
      and the first nine of the old list. */
  lemma UpsertNewIdFull(history: seq<SimulationResult>, entry: SimulationResult)
    requires forall e :: e in history ==> e.id != entry.id
    requires |history| >= HISTORY_LIMIT
    ensures UpsertHistoryEntry(history, entry) == [entry] + history[..HISTORY_LIMIT - 1]
  {}

  /** Re-inserting an id already present never grows the list. */
  lemma UpsertExistingId(history: seq<SimulationResult>, entry: SimulationResult)
    requires exists e :: e in history && e.id == entry.id
    ensures |UpsertHistoryEntry(history, entry)| <= |history|
  {}

  /** Upserting the same entry twice is the same as upserting it once. */
  lemma UpsertIdempotent(history: seq<SimulationResult>, entry: SimulationResult)
    ensures UpsertHistoryEntry(UpsertHistoryEntry(history, entry), entry)
         == UpsertHistoryEntry(history, entry)
  {
    var r := UpsertHistoryEntry(history, entry);
    var tail := r[1..];
    assert r == [entry] + tail;
    assert forall e :: e in tail ==> e.id != entry.id;
    WithoutIdDropsHead(entry, tail);
  }

  lemma WithoutIdDropsHead(entry: SimulationResult, tail: seq<SimulationResult>)
    requires forall e :: e in tail ==> e.id != entry.id
    ensures WithoutId([entry] + tail, entry.id) == tail
  {
    assert ([entry] + tail)[1..] == tail;
  }
}

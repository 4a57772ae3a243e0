/** The lists the history operations build (src/hooks/useHistoryManagement.tsx):
    the newest entry put in front, and the list filtered by id. */
module HistoryManagement {
  import opened CashTypes

  /** `history.filter(entry => entry.id !== id)`. */
  function WithoutId(history: seq<HistoryEntry>, id: string): (r: seq<HistoryEntry>)
    ensures |r| <= |history|
    ensures forall e :: e in r <==> e in history && e.id != id
  {
    if history == [] then []
    else if history[0].id == id then WithoutId(history[1..], id)
    else [history[0]] + WithoutId(history[1..], id)
  }

  predicate HasId(history: seq<HistoryEntry>, id: string) {
    exists i :: 0 <= i < |history| && history[i].id == id
  }

  /** Deleting an id no entry has leaves the list as it is. */
  lemma {:induction false} DeleteAbsentIsIdentity(history: seq<HistoryEntry>, id: string)
    requires !HasId(history, id)
    ensures WithoutId(history, id) == history
  {
    if history != [] {
      assert !HasId(history[1..], id) by {
        forall i | 0 <= i < |history[1..]| ensures history[1..][i].id != id {
          assert history[1..][i] == history[i + 1];
        }
      }
      DeleteAbsentIsIdentity(history[1..], id);
    }
  }

  /** Filtering keeps order: it works piecewise over a concatenation, so
      the entries that remain stand in their old relative order. */
  lemma {:induction false} DeleteKeepsOrder(a: seq<HistoryEntry>, b: seq<HistoryEntry>, id: string)
    ensures WithoutId(a + b, id) == WithoutId(a, id) + WithoutId(b, id)
  {
    if a != [] {
      assert (a + b)[1..] == a[1..] + b;
      DeleteKeepsOrder(a[1..], b, id);
    } else {
      assert a + b == b;
    }
  }

  /** The list loses exactly as many entries as carry the id. */
  function CountId(history: seq<HistoryEntry>, id: string): (n: nat)
    ensures n <= |history|
    ensures n == 0 <==> !HasId(history, id)
  {
    if history == [] then 0
    else
      assert forall i :: 1 <= i < |history| ==> history[1..][i - 1] == history[i];
      (if history[0].id == id then 1 else 0) + CountId(history[1..], id)
  }

  lemma {:induction false} DeleteLength(history: seq<HistoryEntry>, id: string)
    ensures |WithoutId(history, id)| == |history| - CountId(history, id)
  {
    if history != [] {
      DeleteLength(history[1..], id);
    }
  }

  /** Deleting twice is deleting once. */
  lemma {:induction false} DeleteIdempotent(history: seq<HistoryEntry>, id: string)
    ensures WithoutId(WithoutId(history, id), id) == WithoutId(history, id)
  {
    var r := WithoutId(history, id);
    assert !HasId(r, id) by {
      forall i | 0 <= i < |r| ensures r[i].id != id {
        assert r[i] in r;
      }
    }
    DeleteAbsentIsIdentity(r, id);
  }

  /** Saving an entry whose id is new and then deleting that id gives the
      list back as it was before the save. */
  lemma DeleteUndoesSave(history: seq<HistoryEntry>, entry: HistoryEntry)
    requires !HasId(history, entry.id)
    ensures WithoutId([entry] + history, entry.id) == history
  {
    assert ([entry] + history)[1..] == history;
    DeleteAbsentIsIdentity(history, entry.id);
  }
}

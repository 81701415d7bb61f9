/**
 * The offline sale queue (src/lib/syncService.ts). Sales that could not be
 * posted are kept, as one JSON array under one storage key, in the order they
 * were saved; a sync replays them head first against POST /sales and stops
 * at the first failure.
 *
 * Storage is the field `stored` (None: nothing under the key yet). The
 * network and the storage writes made during a sync are oracles indexed by
 * the position of the record in the queue: `postOk(i)` says whether posting
 * record i succeeds and `writeOk(i)` whether persisting the queue after it
 * succeeds.
 */
module SyncService {
  import opened Wrappers
  import opened Json
  import SaleData
  import Auth

  const OfflineIdPrefix: string := "offline_"

  /** `{ ...saleData, id: "offline_<timestamp>" }`: an `id` already present is overwritten. */
  function Stamp(saleData: Record, timestamp: string): (r: Record)
    ensures "id" in r && r["id"] == JStr(OfflineIdPrefix + timestamp)
    ensures r.Keys == saleData.Keys + {"id"}
    ensures forall k :: k in saleData && k != "id" ==> r[k] == saleData[k]
  {
    saleData["id" := JStr(OfflineIdPrefix + timestamp)]
  }

  /** `const { id, ...saleData } = saleToSync`: the record without its `id`. */
  function StripId(r: Record): (p: Record)
    ensures "id" !in p
    ensures p.Keys == r.Keys - {"id"}
    ensures forall k :: k in p ==> p[k] == r[k]
  {
    r - {"id"}
  }

  /** What the server receives for a stamped record is the payload without any `id` it had. */
  lemma StripStamp(saleData: Record, timestamp: string)
    ensures StripId(Stamp(saleData, timestamp)) == StripId(saleData)
    ensures "id" !in saleData ==> StripId(Stamp(saleData, timestamp)) == saleData
  {
    assert StripId(Stamp(saleData, timestamp)).Keys == StripId(saleData).Keys;
    if "id" !in saleData {
      assert StripId(saleData).Keys == saleData.Keys;
    }
  }

  function StripAll(q: seq<Record>): (s: seq<Record>)
    ensures |s| == |q|
    ensures forall i :: 0 <= i < |q| ==> s[i] == StripId(q[i])
  {
    seq(|q|, i requires 0 <= i < |q| => StripId(q[i]))
  }

  /** `(await getItem(PENDING_SALES_KEY)) || []`. */
  function Loaded(stored: Option<seq<Record>>): seq<Record> {
    if stored.Some? then stored.value else []
  }

  /** `!token` in JavaScript: no token, or the empty string. */
  predicate HasToken(token: Option<string>) {
    token.Some? && token.value != ""
  }

  /** A step of the drain completes when the post succeeds and so does the write after it. */
  predicate StepOk(postOk: nat -> bool, writeOk: nat -> bool, i: nat) {
    postOk(i) && writeOk(i)
  }

  /** The number of records, from position `i` on, that complete before the first failing step. */
  function CompletedFrom(n: nat, postOk: nat -> bool, writeOk: nat -> bool, i: nat): (k: nat)
    requires i <= n
    ensures i <= k <= n
    ensures forall j :: i <= j < k ==> StepOk(postOk, writeOk, j)
    ensures k < n ==> !StepOk(postOk, writeOk, k)
    decreases n - i
  {
    if i == n || !StepOk(postOk, writeOk, i) then i else CompletedFrom(n, postOk, writeOk, i + 1)
  }

  /** The completed run is determined by where the first failing step is. */
  lemma {:induction false} CompletedFromIs(n: nat, postOk: nat -> bool, writeOk: nat -> bool, i: nat, k: nat)
    requires i <= k <= n
    requires forall j :: i <= j < k ==> StepOk(postOk, writeOk, j)
    requires k < n ==> !StepOk(postOk, writeOk, k)
    ensures CompletedFrom(n, postOk, writeOk, i) == k
    decreases k - i
  {
    if i < k {
      CompletedFromIs(n, postOk, writeOk, i + 1, k);
    }
  }

  /** The number of head records a sync removes from the queue. */
  function Completed(n: nat, postOk: nat -> bool, writeOk: nat -> bool): nat
  {
    CompletedFrom(n, postOk, writeOk, 0)
  }

  /** The resulting stored value, the payloads posted in order, and the boolean returned. */
  datatype SyncOutcome = SyncOutcome(stored: Option<seq<Record>>, submitted: seq<Record>, result: bool)

  /**
   * What `syncPendingSales` does: an empty queue is success without a token
   * check; no token is failure with nothing posted; otherwise records are
   * posted head first until one fails (the failing one was posted too), and
   * the queue drops exactly the records that completed.
   */
  function SyncSpec(stored: Option<seq<Record>>, token: Option<string>,
                    postOk: nat -> bool, writeOk: nat -> bool): SyncOutcome
  {
    var q := Loaded(stored);
    if q == [] then SyncOutcome(stored, [], true)
    else if !HasToken(token) then SyncOutcome(stored, [], false)
    else
      var n := Completed(|q|, postOk, writeOk);
      var attempted := if n < |q| then n + 1 else n;
      SyncOutcome(Some(q[n..]), StripAll(q[..attempted]), n == |q|)
  }

  /** An empty queue reports success and posts nothing, with or without a token. */
  lemma SyncEmptyQueue(stored: Option<seq<Record>>, token: Option<string>, postOk: nat -> bool, writeOk: nat -> bool)
    requires Loaded(stored) == []
    ensures SyncSpec(stored, token, postOk, writeOk) == SyncOutcome(stored, [], true)
  {
  }

  /** Without a token a non-empty queue is left as it is, nothing is posted and the result is false. */
  lemma SyncWithoutToken(stored: Option<seq<Record>>, token: Option<string>, postOk: nat -> bool, writeOk: nat -> bool)
    requires Loaded(stored) != [] && !HasToken(token)
    ensures SyncSpec(stored, token, postOk, writeOk) == SyncOutcome(stored, [], false)
  {
  }

  /**
   * The stored queue after a sync is the original with a prefix of `n`
   * records removed; those `n`, and at most the one after them, were posted,
   * head first and without their `id`. The result is true iff the queue is
   * now empty.
   */
  lemma SyncRemovesPrefix(stored: Option<seq<Record>>, token: Option<string>, postOk: nat -> bool, writeOk: nat -> bool)
    ensures var o := SyncSpec(stored, token, postOk, writeOk);
      var q := Loaded(stored);
      exists n :: 0 <= n <= |q| && Loaded(o.stored) == q[n..]
        && (forall i :: 0 <= i < n ==> o.submitted[i] == StripId(q[i]))
        && n <= |o.submitted| <= n + 1 && |o.submitted| <= |q|
    ensures SyncSpec(stored, token, postOk, writeOk).result <==> Loaded(SyncSpec(stored, token, postOk, writeOk).stored) == []
  {
    var o := SyncSpec(stored, token, postOk, writeOk);
    var q := Loaded(stored);
    if q == [] || !HasToken(token) {
      assert Loaded(o.stored) == q[0..];
    } else {
      var n := Completed(|q|, postOk, writeOk);
      assert Loaded(o.stored) == q[n..];
    }
  }

  /** When every post and write succeeds, every record is posted in enqueue order and the queue ends empty. */
  lemma SyncAllAccepted(stored: Option<seq<Record>>, token: Option<string>, postOk: nat -> bool, writeOk: nat -> bool)
    requires HasToken(token)
    requires forall i :: 0 <= i < |Loaded(stored)| ==> StepOk(postOk, writeOk, i)
    ensures var o := SyncSpec(stored, token, postOk, writeOk);
      o.result && o.submitted == StripAll(Loaded(stored)) && Loaded(o.stored) == []
  {
    var q := Loaded(stored);
    if q != [] {
      var n := Completed(|q|, postOk, writeOk);
      assert n == |q|;
      assert q[..n] == q;
    }
  }

  /**
   * On the first failure at position `n`, the queue keeps exactly the records
   * from `n` on, in their original order; if the post succeeded and only the
   * write after it failed, the failed record was posted yet stays queued.
   */
  lemma SyncStopsAtFirstFailure(stored: Option<seq<Record>>, token: Option<string>,
                                postOk: nat -> bool, writeOk: nat -> bool, n: nat)
    requires HasToken(token) && n < |Loaded(stored)|
    requires forall i :: 0 <= i < n ==> StepOk(postOk, writeOk, i)
    requires !StepOk(postOk, writeOk, n)
    ensures var o := SyncSpec(stored, token, postOk, writeOk);
      var q := Loaded(stored);
      && !o.result
      && o.stored == Some(q[n..])
      && o.submitted == StripAll(q[..n + 1])
      && o.stored.value[0] == q[n]
      && o.submitted[n] == StripId(q[n])
  {
    var q := Loaded(stored);
    CompletedFromIs(|q|, postOk, writeOk, 0, n);
  }

  /**
   * Resuming after a partial sync. If the first sync stopped at a failing
   * post, the records confirmed by the first call followed by those posted by
   * a second, fully successful call are the whole original queue, in order,
   * each once.
   */
  lemma SyncResumes(stored: Option<seq<Record>>, token: Option<string>,
                    postOk1: nat -> bool, writeOk1: nat -> bool,
                    postOk2: nat -> bool, writeOk2: nat -> bool)
    requires HasToken(token)
    requires forall i :: 0 <= i < |Loaded(stored)| ==> StepOk(postOk2, writeOk2, i)
    ensures var q := Loaded(stored);
      var o1 := SyncSpec(stored, token, postOk1, writeOk1);
      var o2 := SyncSpec(o1.stored, token, postOk2, writeOk2);
      var n := |q| - |Loaded(o1.stored)|;
      && 0 <= n <= |q|
      && o2.result && Loaded(o2.stored) == []
      && StripAll(q[..n]) + o2.submitted == StripAll(q)
  {
    var q := Loaded(stored);
    var o1 := SyncSpec(stored, token, postOk1, writeOk1);
    SyncRemovesPrefix(stored, token, postOk1, writeOk1);
    var n :| 0 <= n <= |q| && Loaded(o1.stored) == q[n..];
    var rest := q[n..];
    assert |q| - |rest| == n;
    SyncAllAccepted(o1.stored, token, postOk2, writeOk2);
    assert q == q[..n] + rest;
    StripAllAppend(q[..n], rest);
  }

  lemma StripAllAppend(a: seq<Record>, b: seq<Record>)
    ensures StripAll(a + b) == StripAll(a) + StripAll(b)
  {
    assert |StripAll(a + b)| == |StripAll(a) + StripAll(b)|;
    forall i | 0 <= i < |a + b|
      ensures StripAll(a + b)[i] == (StripAll(a) + StripAll(b))[i]
    {
      if i >= |a| {
        assert (a + b)[i] == b[i - |a|];
      }
    }
  }

  /** The offline queue, with the stored value it reads and writes. */
  class OfflineSaleQueue {
    var stored: Option<seq<Record>>

    constructor ()
      ensures stored == None
    {
      stored := None;
    }

    /** The queue as read from storage. */
    function Pending(): seq<Record>
      reads this
    {
      Loaded(stored)
    }

    /**
     * `saveSaleForSync`: appends the stamped record at the end of the stored
     * queue. A failing write is caught: the stored value is then unchanged
     * and the caller is not told.
     */
    method SaveSaleForSync(saleData: Record, timestamp: string, writeOk: bool)
      modifies this
      ensures writeOk ==> stored == Some(old(Pending()) + [Stamp(saleData, timestamp)])
      ensures !writeOk ==> stored == old(stored)
    {
      var pendingSales := Loaded(stored);
      pendingSales := pendingSales + [Stamp(saleData, timestamp)];
      if writeOk {
        stored := Some(pendingSales);
      }
    }

    /**
     * `syncPendingSales`, reading the token from `auth`. Returns the boolean
     * the source returns and the payloads it posted, in order.
     */
    method SyncPendingSales(auth: Auth.AuthStore, postOk: nat -> bool, writeOk: nat -> bool)
      returns (ok: bool, submitted: seq<Record>)
      modifies this
      ensures SyncOutcome(stored, submitted, ok) == SyncSpec(old(stored), auth.token, postOk, writeOk)
    {
      var pendingSales := Loaded(stored);
      if |pendingSales| == 0 {
        return true, [];
      }
      var token := auth.token;
      if !HasToken(token) {
        return false, [];
      }
      ghost var q := pendingSales;
      assert q[0..] == q;
      var syncFailed := false;
      var i: nat := 0;
      submitted := [];
      while |pendingSales| > 0
        invariant i <= |q| && pendingSales == q[i..]
        invariant stored == Some(q[i..])
        invariant submitted == StripAll(q[..i])
        invariant forall j :: 0 <= j < i ==> StepOk(postOk, writeOk, j)
        invariant !syncFailed
        decreases |pendingSales|
      {
        var saleToSync := pendingSales[0];
        var saleData := StripId(saleToSync);
        submitted := submitted + [saleData];
        assert submitted == StripAll(q[..i + 1]);
        if postOk(i) {
          pendingSales := pendingSales[1..];
          if writeOk(i) {
            stored := Some(pendingSales);
            i := i + 1;
          } else {
            syncFailed := true;
            break;
          }
        } else {
          syncFailed := true;
          break;
        }
      }
      if !syncFailed {
        assert q[..i] == q;
      }
      CompletedFromIs(|q|, postOk, writeOk, 0, i);
      ok := !syncFailed;
    }

    /** `getPendingSalesCount`: the length of the stored queue, 0 when nothing is stored. */
    method GetPendingSalesCount() returns (count: nat)
      ensures count == |Pending()|
      ensures stored == None ==> count == 0
    {
      var pendingSales := Loaded(stored);
      count := |pendingSales|;
    }
  }

  /**
   * Saving a checkout payload and then syncing with every step succeeding
   * posts, last, exactly the payload's JSON object: the local id is never sent.
   */
  lemma SavedSaleIsPostedUnchanged(queued: seq<Record>, p: SaleData.SalePayload, timestamp: string,
                                   token: Option<string>, postOk: nat -> bool, writeOk: nat -> bool)
    requires HasToken(token)
    requires forall i :: 0 <= i <= |queued| ==> StepOk(postOk, writeOk, i)
    ensures var q := queued + [Stamp(SaleData.ToRecord(p), timestamp)];
      var o := SyncSpec(Some(q), token, postOk, writeOk);
      o.result && o.submitted[|queued|] == SaleData.ToRecord(p)
  {
    var q := queued + [Stamp(SaleData.ToRecord(p), timestamp)];
    SaleData.RecordRoundTrip(p);
    SyncAllAccepted(Some(q), token, postOk, writeOk);
    StripStamp(SaleData.ToRecord(p), timestamp);
  }
}

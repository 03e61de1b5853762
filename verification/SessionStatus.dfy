/** What the status of a planned session says about its segments (session_status.cpp). */
module SessionStatus {
  import opened Basics
  import opened Persistent
  import opened SessionState
  import opened SegmentKV
  import opened Coherence
  import opened Durability
  import opened PlanInvariant
  import opened SessionPlans
  import opened SessionCommands
  import opened IndexCommands

  datatype Status = Status(segments: nat, resident: nat, indexed: nat, saved: nat, tokens: int) {

    predicate IsIndexed() {
      segments > 0 && indexed == segments
    }

    predicate IsDiskCached() {
      segments > 0 && saved == segments
    }
  }

  /** How many of the first `n` numbers have a property. */
  ghost function Number(p: int -> bool, n: nat): (count: nat)
    ensures count <= n && (count == n <==> forall k :: 0 <= k < n ==> p(k))
  {
    if n == 0 then 0 else Number(p, n - 1) + if p(n - 1) then 1 else 0
  }

  function SegmentTokens(s: Segment): int {
    if s.exact > 0 then s.exact else if s.estimated > 0 then s.estimated else 0
  }

  function TotalTokens(segments: seq<Segment>): int {
    if segments == [] then 0 else TotalTokens(Init(segments)) + SegmentTokens(Last(segments))
  }

  /** The counters agree with the predicates; so a session is reported as indexed exactly when every
      segment is, and as cached on disk exactly when every segment is saved. */
  method PopulatePlannedStatus(m: SessionManager, id: Bytes, d: DurableSession) returns (status: Status)
    requires m.Inv() && id in m.sessions && d == m.sessions[id]
    ensures var kv, metadata, files, n := m.kv.State(), d.session.metadata, m.disk.files, |d.session.segments|;
            && status == Status(n, Number(k => Key(id, k) in kv.resident, n),
                                Number(k => Indexed(kv, metadata, files, Key(id, k)), n),
                                Number(k => HasDisk(metadata, files, Key(id, k)), n),
                                TotalTokens(d.session.segments))
            && (status.IsIndexed() <==> n > 0 && forall k | 0 <= k < n :: Indexed(kv, metadata, files, Key(id, k)))
            && (status.IsDiskCached() <==> n > 0 && forall k | 0 <= k < n :: HasDisk(metadata, files, Key(id, k)))
  {
    hide SessionManager.Inv, PlanOk, HashesOk, HasDisk, ValidStore;
    SessionPlan(m, id, d);
    PlanIsNumbered(d.session.store, d.session.segments);
    ghost var kv, metadata, files := m.kv.State(), d.session.metadata, m.disk.files;
    var resident, indexed, saved, tokens := 0, 0, 0, 0;
    for i := 0 to |d.session.segments|
      invariant resident == Number(k => Key(id, k) in kv.resident, i)
      invariant indexed == Number(k => Indexed(kv, metadata, files, Key(id, k)), i)
      invariant saved == Number(k => HasDisk(metadata, files, Key(id, k)), i)
      invariant tokens == TotalTokens(d.session.segments[..i])
    {
      var segment := d.session.segments[i];
      assert Init(d.session.segments[..i + 1]) == d.session.segments[..i];
      if segment.exact > 0 {
        tokens := tokens + segment.exact;
      } else if segment.estimated > 0 {
        tokens := tokens + segment.estimated;
      }
      var key := Key(id, segment.id);
      assert key == Key(id, i);
      var inMemory, onDisk := key in m.kv.resident.entries, IsSaved(d.session.metadata, m.disk.files, key);
      if inMemory {
        resident := resident + 1;
      }
      if inMemory || onDisk {
        indexed := indexed + 1;
      }
      if onDisk {
        saved := saved + 1;
      }
    }
    assert d.session.segments[..|d.session.segments|] == d.session.segments;
    AllIndexedOrNot(kv, metadata, files, id, |d.session.segments|);
    status := Status(|d.session.segments|, resident, indexed, saved, tokens);
  }

  lemma {:induction false} AllIndexedOrNot(kv: KVState, metadata: map<int, CacheEntry>, files: map<Key, Snapshot>, id: Bytes, n: nat)
    ensures Number(k => Indexed(kv, metadata, files, Key(id, k)), n) == n <==>
            forall k | 0 <= k < n :: Indexed(kv, metadata, files, Key(id, k))
    ensures Number(k => HasDisk(metadata, files, Key(id, k)), n) == n <==>
            forall k | 0 <= k < n :: HasDisk(metadata, files, Key(id, k))
  {
    hide Number, Indexed, HasDisk;
    var indexed, saved := k => Indexed(kv, metadata, files, Key(id, k)), k => HasDisk(metadata, files, Key(id, k));
    assert Number(indexed, n) == n <==> forall k :: 0 <= k < n ==> indexed(k);
    assert Number(saved, n) == n <==> forall k :: 0 <= k < n ==> saved(k);
    forall k | 0 <= k < n ensures indexed(k) == Indexed(kv, metadata, files, Key(id, k)) && saved(k) == HasDisk(metadata, files, Key(id, k)) {
    }
  }
}

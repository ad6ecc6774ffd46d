/** The mutable side of the runbook store: Runbook objects that the store's methods
    update in place, refining the operations on values
    (python/app/infrastructure/runbook_store.py). */
module RunbookObjects {
  import opened Collections
  import S = RunbookStore

  class Runbook {
    const content: S.Content
    var contentHash: string
    var status: S.Status
    var effectiveTo: Option<int>
    var lastVerifiedAt: Option<int>

    constructor (v: S.Version)
      ensures Snapshot() == v
    {
      content, contentHash, status := v.content, v.hash, v.status;
      effectiveTo, lastVerifiedAt := v.effectiveTo, v.lastVerifiedAt;
    }

    function Snapshot(): S.Version
      reads this
    {
      S.Version(content, contentHash, status, effectiveTo, lastVerifiedAt)
    }

    predicate IsActive(now: int)
      reads this
      ensures IsActive(now) == S.IsActive(Snapshot(), now)
    {
      status == S.Valid && !(effectiveTo.Some? && now > effectiveTo.value)
    }
  }

  ghost predicate Shows(rs: seq<Runbook>, vs: seq<S.Version>)
    reads rs
  {
    |rs| == |vs| && forall i :: 0 <= i < |rs| ==> rs[i].Snapshot() == vs[i]
  }

  class RunbookStore {
    var ids: seq<string>
    var runbooks: map<string, seq<Runbook>>
    /** The value these objects stand for. */
    ghost var view: S.Store
    ghost var Repr: set<Runbook>

    ghost predicate Filed(id: string, i: nat)
      reads this, Repr
      requires id in runbooks && id in view.versions && i < |runbooks[id]| == |view.versions[id]|
    {
      runbooks[id][i] in Repr && runbooks[id][i].Snapshot() == view.versions[id][i]
    }

    /** Every object is filed at one place only. */
    ghost predicate Apart()
      reads this
    {
      forall id, i, other, j | id in runbooks && other in runbooks && 0 <= i < |runbooks[id]| &&
        0 <= j < |runbooks[other]| ::
        runbooks[id][i] == runbooks[other][j] ==> id == other && i == j
    }

    ghost predicate Valid()
      reads this, Repr
    {
      && ids == view.ids
      && (forall id :: id in runbooks <==> id in ids)
      && (forall i, j :: 0 <= i < j < |ids| ==> ids[i] != ids[j])
      && runbooks.Keys == view.versions.Keys
      && (forall id | id in runbooks :: id in view.versions && |runbooks[id]| == |view.versions[id]|)
      && (forall id, i | id in runbooks && 0 <= i < |runbooks[id]| :: Filed(id, i))
      && Apart()
    }

    constructor ()
      ensures Valid() && view == S.Store([], map[]) && Repr == {}
    {
      ids, runbooks, Repr, view := [], map[], {}, S.Store([], map[]);
    }

    /** Assigns the mutable fields of the i-th version of an id. */
    method Assign(id: string, i: nat, status: S.Status, effectiveTo: Option<int>, lastVerifiedAt: Option<int>)
      requires Valid() && id in runbooks && i < |runbooks[id]|
      modifies runbooks[id][i], this`view
      ensures Valid() && id in old(view).versions && i < |old(view).versions[id]|
      ensures var vs := old(view).versions[id];
              var v := vs[i].(status := status, effectiveTo := effectiveTo, lastVerifiedAt := lastVerifiedAt);
              view == old(view).(versions := old(view).versions[id := vs[i := v]])
    {
      assert Filed(id, i);
      var r := runbooks[id][i];
      ghost var vs := view.versions[id];
      r.status, r.effectiveTo, r.lastVerifiedAt := status, effectiveTo, lastVerifiedAt;
      ghost var v := vs[i].(status := status, effectiveTo := effectiveTo, lastVerifiedAt := lastVerifiedAt);
      view := view.(versions := view.versions[id := vs[i := v]]);
      forall k, j | k in runbooks && 0 <= j < |runbooks[k]| ensures Filed(k, j)
      {
        assert old(Filed(k, j));
      }
    }

    /** Files a new object as the last version of its id. */
    method Append(runbook: Runbook)
      requires Valid() && runbook !in Repr && runbook.content.id in runbooks
      modifies this`runbooks, this`view, this`Repr
      ensures Valid() && Repr == old(Repr) + {runbook} && ids == old(ids)
      ensures runbooks == old(runbooks)[runbook.content.id := old(runbooks)[runbook.content.id] + [runbook]]
      ensures var id := runbook.content.id;
              id in old(view).versions && view ==
                old(view).(versions := old(view).versions[id := old(view).versions[id] + [runbook.Snapshot()]])
    {
      var id := runbook.content.id;
      ghost var vs := view.versions[id];
      forall k, j | k in runbooks && 0 <= j < |runbooks[k]| ensures runbooks[k][j] != runbook
      {
        assert Filed(k, j);
      }
      runbooks := runbooks[id := runbooks[id] + [runbook]];
      view := view.(versions := view.versions[id := vs + [runbook.Snapshot()]]);
      Repr := Repr + {runbook};
      forall k, j | k in runbooks && 0 <= j < |runbooks[k]| ensures Filed(k, j)
      {
        if !(k == id && j == |vs|) {
          assert old(Filed(k, j));
        }
      }
    }

    method GetActive(id: string, now: int) returns (r: Option<Runbook>)
      requires Valid()
      ensures r.Some? <==> S.GetActive(view, id, now).Some?
      ensures r.Some? ==> r.value in Repr && Some(r.value.Snapshot()) == S.GetActive(view, id, now)
    {
      if id !in runbooks {
        return None;
      }
      var versions := runbooks[id];
      ghost var vs := view.versions[id];
      assert vs[..|vs|] == vs;
      var i := |versions|;
      while i > 0
        invariant 0 <= i <= |versions|
        invariant S.LastActive(vs, now) == S.LastActive(vs[..i], now)
      {
        i := i - 1;
        assert vs[..i + 1][..i] == vs[..i];
        assert Filed(id, i);
        if versions[i].IsActive(now) {
          return Some(versions[i]);
        }
      }
      return None;
    }

    /** Opens an empty version list for a new id. */
    method OpenId(id: string)
      requires Valid() && id !in runbooks
      modifies this`ids, this`runbooks, this`view
      ensures Valid() && id in runbooks && view == S.Store(old(view).ids + [id], old(view).versions[id := []])
    {
      ids := ids + [id];
      runbooks := runbooks[id := []];
      view := S.Store(view.ids + [id], view.versions[id := []]);
      forall k, j | k in runbooks && 0 <= j < |runbooks[k]| ensures Filed(k, j)
      {
        assert old(Filed(k, j));
      }
    }

    /** Adding this filed object again finds the last version of its id unchanged. */
    ghost predicate SameAsLast(runbook: Runbook, contentHash: string)
      reads this, Repr, runbook
      requires Valid()
    {
      var id := runbook.content.id;
      && runbook.contentHash == contentHash && id in runbooks && runbooks[id] != []
      && id in view.versions && view.versions[id] != [] &&
         view.versions[id][|view.versions[id]| - 1].hash == contentHash
    }

    method OpenIfNew(id: string)
      requires Valid()
      modifies this`ids, this`runbooks, this`view
      ensures Valid() && id in runbooks && view == S.Opened(old(view), id)
      ensures id in old(runbooks) ==> runbooks == old(runbooks)
    {
      if id !in runbooks {
        OpenId(id);
      }
    }

    /** Writing to an object that is not filed, or what is there already, disturbs nothing. */
    method StampHash(runbook: Runbook, hash: S.Hash)
      requires Valid() && (runbook in Repr ==> runbook.contentHash == hash(S.HashedText(runbook.content)))
      modifies runbook`contentHash
      ensures Valid() && runbook.Snapshot() == old(runbook.Snapshot()).(hash := hash(S.HashedText(runbook.content)))
    {
      runbook.contentHash := hash(S.HashedText(runbook.content));
      forall k, j | k in runbooks && 0 <= j < |runbooks[k]| ensures Filed(k, j)
      {
        assert old(Filed(k, j));
      }
    }

    /** Supersedes the last version and files the new one, unless nothing changed. */
    method FileVersion(runbook: Runbook, now: int) returns (filed: Runbook)
      requires Valid() && runbook.content.id in runbooks &&
               (runbook in Repr ==> SameAsLast(runbook, runbook.contentHash))
      modifies this`runbooks, this`view, this`Repr, Repr
      ensures Valid() && Repr <= old(Repr) + {runbook} && ids == old(ids)
      ensures var id := runbook.content.id;
              && id in old(view).versions
              && view == old(view).(versions := old(view).versions[id := S.Added(old(view).versions[id],
                                                                                 old(runbook.Snapshot()), now)])
              && id in runbooks && runbooks[id] != [] && filed == runbooks[id][|runbooks[id]| - 1]
    {
      var versions := runbooks[runbook.content.id];
      ghost var vs := view.versions[runbook.content.id];
      if versions != [] {
        var latest := versions[|versions| - 1];
        assert Filed(runbook.content.id, |versions| - 1);
        if latest.contentHash == runbook.contentHash {
          assert view.versions[runbook.content.id := vs] == view.versions;
          return latest;
        }
        Assign(runbook.content.id, |versions| - 1, S.Deprecated, Some(now), latest.lastVerifiedAt);
      }
      Append(runbook);
      return runbook;
    }

    method Add(hash: S.Hash, runbook: Runbook, now: int) returns (filed: Runbook)
      requires Valid() && (runbook in Repr ==> SameAsLast(runbook, hash(S.HashedText(runbook.content))))
      modifies this, runbook`contentHash, Repr
      ensures Valid() && Repr <= old(Repr) + {runbook}
      ensures view == S.Add(hash, old(view), old(runbook.Snapshot()), now)
      ensures runbook.content.id in runbooks && runbooks[runbook.content.id] != []
      ensures filed == runbooks[runbook.content.id][|runbooks[runbook.content.id]| - 1]
    {
      S.AddOpened(hash, view, runbook.Snapshot(), now);
      StampHash(runbook, hash);
      OpenIfNew(runbook.content.id);
      filed := FileVersion(runbook, now);
    }

    /** Marks one version if it is valid, and of the service if one is given. */
    method MarkOne(id: string, i: nat, service: Option<string>, ghost vs: seq<S.Version>)
      requires Valid() && id in runbooks && id in view.versions && i < |runbooks[id]| == |vs|
      requires view.versions[id] == S.MarkedUpTo(service, vs, i)
      modifies runbooks[id][i], this`view
      ensures Valid()
      ensures view == old(view).(versions := old(view).versions[id := S.MarkedUpTo(service, vs, i + 1)])
    {
      S.MarkedStep(service, vs, i);
      assert Filed(id, i);
      var r := runbooks[id][i];
      if r.status == S.Valid && (service == None || service == Some(r.content.service)) {
        Assign(id, i, S.PendingVerification, r.effectiveTo, r.lastVerifiedAt);
      } else {
        assert S.Marked(service, vs)[i] == vs[i];
        assert S.MarkedUpTo(service, vs, i)[i := vs[i]] == S.MarkedUpTo(service, vs, i);
        assert view.versions[id := view.versions[id]] == view.versions;
      }
    }

    /** Marks the valid versions of one id, all or those of a service. */
    method MarkList(id: string, service: Option<string>)
      requires Valid() && id in runbooks
      modifies this`view, Repr
      ensures Valid() && id in old(view).versions
      ensures view == old(view).(versions := old(view).versions[id := S.Marked(service, old(view).versions[id])])
    {
      ghost var start, vs := view, view.versions[id];
      S.MarkedEnds(service, vs);
      assert start.versions[id := vs] == start.versions;
      for i := 0 to |runbooks[id]|
        invariant Valid() && |runbooks[id]| == |vs|
        invariant view == start.(versions := start.versions[id := S.MarkedUpTo(service, vs, i)])
      {
        assert Filed(id, i);
        MarkOne(id, i, service, vs);
      }
    }

    method MarkPendingVerification(id: string)
      requires Valid()
      modifies this`view, Repr
      ensures Valid() && view == S.MarkPending(old(view), id)
    {
      if id in runbooks {
        MarkList(id, None);
      }
    }

    method MarkOfService(id: string, service: string)
      requires Valid() && id in ids
      modifies this`view, Repr
      ensures Valid() && view == S.MarkId(old(view), id, service)
    {
      MarkList(id, Some(service));
    }

    method MarkServicePending(service: string)
      requires Valid()
      modifies this`view, Repr
      ensures Valid() && view == S.MarkService(old(view), service)
    {
      ghost var start := view;
      for k := 0 to |ids|
        invariant Valid() && view == S.MarkIds(start, ids[..k], service)
      {
        S.MarkIdsNext(start, ids, k, service);
        MarkOfService(ids[k], service);
      }
      assert ids[..|ids|] == ids;
      S.MarkIdsAll(start, service);
    }

    method Verify(id: string, name: string, now: int)
      requires Valid()
      modifies this`view, Repr
      ensures Valid() && view == S.Verify(old(view), id, name, now)
    {
      if id !in runbooks || runbooks[id] == [] {
        return;
      }
      var versions := runbooks[id];
      ghost var vs := view.versions[id];
      var found := |versions| - 1;
      if name != "" {
        found := 0;
        while found < |versions| && versions[found].content.version != name
          invariant found <= |versions| && forall j :: 0 <= j < found ==> vs[j].content.version != name
        {
          assert Filed(id, found);
          found := found + 1;
        }
        if found == |versions| {
          return;
        }
        assert Filed(id, found);
      }
      assert Filed(id, found);
      Assign(id, found, S.Valid, versions[found].effectiveTo, Some(now));
    }

    /** The active runbook of one id, if there is one and it belongs to the service. */
    method ActiveOf(id: string, service: Option<string>, now: int) returns (one: seq<Runbook>)
      requires Valid()
      ensures forall r | r in one :: r in Repr
      ensures Shows(one, S.ActiveOne(view, id, now, service))
    {
      var r := GetActive(id, now);
      one := if r.Some? && (service == None || service == Some(r.value.content.service)) then [r.value] else [];
    }

    /** The active runbooks in insertion order of their ids, all or those of a service. */
    method ListActive(service: Option<string>, now: int) returns (result: seq<Runbook>)
      requires Valid()
      ensures forall r | r in result :: r in Repr
      ensures Shows(result, Filter(S.ListActive(view, now), S.OfService(service)))
    {
      result := [];
      ghost var shown := [];
      for k := 0 to |ids|
        invariant forall r | r in result :: r in Repr
        invariant Shows(result, shown) && shown == Filter(S.ActiveIn(view, ids[..k], now), S.OfService(service))
      {
        S.ActiveStep(view, ids, k, now, service);
        var one := ActiveOf(ids[k], service, now);
        ShowsConcat(result, shown, one, S.ActiveOne(view, ids[k], now, service));
        result, shown := result + one, shown + S.ActiveOne(view, ids[k], now, service);
      }
      assert ids[..|ids|] == ids;
    }
  }

  lemma ShowsConcat(rs: seq<Runbook>, vs: seq<S.Version>, more: seq<Runbook>, others: seq<S.Version>)
    requires Shows(rs, vs) && Shows(more, others)
    ensures Shows(rs + more, vs + others)
  {}
}

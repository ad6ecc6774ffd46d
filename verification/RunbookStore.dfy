/** Versioned runbooks and their lifecycle (python/app/infrastructure/runbook_store.py). */
module RunbookStore {
  import opened Collections

  datatype Status = Valid | Deprecated | PendingVerification | Expired

  /** What a runbook says; the store never changes it. */
  datatype Content = Content(
    id: string, title: string, service: string, component: string, symptoms: seq<string>, rootCause: string,
    resolution: string, tags: seq<string>, version: string)

  /** A runbook at one moment. */
  datatype Version = Version(content: Content, hash: string, status: Status, effectiveTo: Option<int>,
                             lastVerifiedAt: Option<int>)

  /** Runbook ids in insertion order, and the versions of each. */
  datatype Store = Store(ids: seq<string>, versions: map<string, seq<Version>>)

  type Hash = string -> string

  function Join(parts: seq<string>, separator: string): string
  {
    if parts == [] then ""
    else if |parts| == 1 then parts[0]
    else Join(parts[..|parts| - 1], separator) + separator + parts[|parts| - 1]
  }

  /** The text whose hash decides whether a runbook changed. */
  function HashedText(c: Content): string
  {
    c.title + "|" + c.rootCause + "|" + c.resolution + "|" + Join(c.symptoms, "|")
  }

  predicate IsExpired(v: Version, now: int)
  {
    v.effectiveTo.Some? && now > v.effectiveTo.value
  }

  predicate IsActive(v: Version, now: int)
  {
    v.status == Valid && !IsExpired(v, now)
  }

  // ---------- Operations on values ----------

  function VersionsOf(s: Store, id: string): seq<Version>
  {
    if id in s.versions then s.versions[id] else []
  }

  function Superseded(vs: seq<Version>, now: int): seq<Version>
  {
    if vs == [] then []
    else vs[|vs| - 1 := vs[|vs| - 1].(status := Deprecated, effectiveTo := Some(now))]
  }

  function Added(vs: seq<Version>, v: Version, now: int): seq<Version>
  {
    if vs != [] && vs[|vs| - 1].hash == v.hash then vs else Superseded(vs, now) + [v]
  }

  function Add(hash: Hash, s: Store, v: Version, now: int): Store
  {
    Store(if v.content.id in s.versions then s.ids else s.ids + [v.content.id],
          s.versions[v.content.id := Added(VersionsOf(s, v.content.id), v.(hash := hash(HashedText(v.content))), now)])
  }

  /** The store with a list, possibly empty, for the id. */
  function Opened(s: Store, id: string): Store
  {
    if id in s.versions then s else Store(s.ids + [id], s.versions[id := []])
  }

  lemma AddOpened(hash: Hash, s: Store, v: Version, now: int)
    ensures var id, o := v.content.id, Opened(s, v.content.id);
            id in o.versions && Add(hash, s, v, now) ==
              o.(versions := o.versions[id := Added(o.versions[id], v.(hash := hash(HashedText(v.content))), now)])
  {}

  function Pending(v: Version): Version
  {
    if v.status == Valid then v.(status := PendingVerification) else v
  }

  /** The valid versions, all or those of one service, become pending. */
  function Marked(service: Option<string>, vs: seq<Version>): seq<Version>
  {
    seq(|vs|, i requires 0 <= i < |vs| =>
      if service == None || service == Some(vs[i].content.service) then Pending(vs[i]) else vs[i])
  }

  /** The first i versions marked. */
  function MarkedUpTo(service: Option<string>, vs: seq<Version>, i: nat): seq<Version>
    requires i <= |vs|
  {
    Marked(service, vs[..i]) + vs[i..]
  }

  lemma MarkedStep(service: Option<string>, vs: seq<Version>, i: nat)
    requires i < |vs|
    ensures |MarkedUpTo(service, vs, i)| == |vs| && MarkedUpTo(service, vs, i)[i] == vs[i]
    ensures MarkedUpTo(service, vs, i + 1) == MarkedUpTo(service, vs, i)[i := Marked(service, vs)[i]]
  {}

  lemma MarkedEnds(service: Option<string>, vs: seq<Version>)
    ensures MarkedUpTo(service, vs, 0) == vs && MarkedUpTo(service, vs, |vs|) == Marked(service, vs)
  {}

  function MarkPending(s: Store, id: string): Store
  {
    if id in s.versions then s.(versions := s.versions[id := Marked(None, s.versions[id])]) else s
  }

  function MarkService(s: Store, service: string): Store
  {
    s.(versions := map id | id in s.versions :: Marked(Some(service), s.versions[id]))
  }

  function MarkId(s: Store, id: string, service: string): Store
  {
    if id in s.versions then s.(versions := s.versions[id := Marked(Some(service), s.versions[id])]) else s
  }

  /** One id after the other. */
  function MarkIds(s: Store, ids: seq<string>, service: string): Store
  {
    if ids == [] then s else MarkId(MarkIds(s, ids[..|ids| - 1], service), ids[|ids| - 1], service)
  }

  lemma {:induction false} MarkIdsNext(s: Store, ids: seq<string>, k: nat, service: string)
    requires k < |ids|
    ensures MarkIds(s, ids[..k + 1], service) == MarkId(MarkIds(s, ids[..k], service), ids[k], service)
  {
    assert ids[..k + 1][..k] == ids[..k];
  }

  lemma {:induction false} MarkIdsAt(s: Store, ids: seq<string>, service: string)
    requires forall i, j :: 0 <= i < j < |ids| ==> ids[i] != ids[j]
    ensures var r := MarkIds(s, ids, service);
            r.ids == s.ids && r.versions.Keys == s.versions.Keys &&
            forall id | id in s.versions ::
              r.versions[id] == if id in ids then Marked(Some(service), s.versions[id]) else s.versions[id]
  {
    if ids != [] {
      var n := |ids| - 1;
      MarkIdsAt(s, ids[..n], service);
      assert ids == ids[..n] + [ids[n]] && ids[n] !in ids[..n];
    }
  }

  /** Going through all ids marks what the one-step operation marks. */
  lemma {:induction false} MarkIdsAll(s: Store, service: string)
    requires forall i, j :: 0 <= i < j < |s.ids| ==> s.ids[i] != s.ids[j]
    requires forall id | id in s.versions :: id in s.ids
    ensures MarkIds(s, s.ids, service) == MarkService(s, service)
  {
    MarkIdsAt(s, s.ids, service);
    assert MarkIds(s, s.ids, service).versions == MarkService(s, service).versions;
  }

  function Verified(v: Version, now: int): Version
  {
    v.(status := Valid, lastVerifiedAt := Some(now))
  }

  function Verify(s: Store, id: string, name: string, now: int): Store
  {
    match Named(VersionsOf(s, id), name)
    case None => s
    case Some(i) => s.(versions := s.versions[id := s.versions[id][i := Verified(s.versions[id][i], now)]])
  }

  /** The first version with that name; the last version when no name is given. */
  function Named(vs: seq<Version>, name: string): (r: Option<nat>)
    ensures r.Some? ==> r.value < |vs|
  {
    if vs == [] then None else if name == "" then Some(|vs| - 1) else FirstNamed(vs, name)
  }

  function FirstNamed(vs: seq<Version>, name: string): (r: Option<nat>)
    ensures r.Some? ==> r.value < |vs| && vs[r.value].content.version == name
    ensures forall j :: 0 <= j < (if r.Some? then r.value else |vs|) ==> vs[j].content.version != name
  {
    if vs == [] then None
    else match FirstNamed(vs[..|vs| - 1], name)
      case Some(i) => Some(i)
      case None => if vs[|vs| - 1].content.version == name then Some(|vs| - 1) else None
  }

  function OfService(service: Option<string>): Version -> bool
  {
    (v: Version) => service == None || service == Some(v.content.service)
  }

  /** The newest active version. */
  function LastActive(vs: seq<Version>, now: int): (r: Option<nat>)
    ensures r.Some? ==> r.value < |vs| && IsActive(vs[r.value], now)
    ensures forall i :: (if r.Some? then r.value else -1) < i < |vs| ==> !IsActive(vs[i], now)
  {
    if vs == [] then None
    else if IsActive(vs[|vs| - 1], now) then Some(|vs| - 1)
    else LastActive(vs[..|vs| - 1], now)
  }

  function GetActive(s: Store, id: string, now: int): Option<Version>
  {
    match LastActive(VersionsOf(s, id), now)
    case None => None
    case Some(i) => Some(VersionsOf(s, id)[i])
  }

  /** The active version of every id, in insertion order of the ids. */
  function ActiveIn(s: Store, ids: seq<string>, now: int): seq<Version>
  {
    if ids == [] then []
    else
      var v := GetActive(s, ids[|ids| - 1], now);
      ActiveIn(s, ids[..|ids| - 1], now) + (if v.Some? then [v.value] else [])
  }

  function ActiveOne(s: Store, id: string, now: int, service: Option<string>): seq<Version>
  {
    var v := GetActive(s, id, now);
    if v.Some? && OfService(service)(v.value) then [v.value] else []
  }

  lemma {:induction false} ActiveStep(s: Store, ids: seq<string>, k: nat, now: int, service: Option<string>)
    requires k < |ids|
    ensures Filter(ActiveIn(s, ids[..k + 1], now), OfService(service)) ==
            Filter(ActiveIn(s, ids[..k], now), OfService(service)) + ActiveOne(s, ids[k], now, service)
  {
    assert ids[..k + 1][..k] == ids[..k];
    var v := GetActive(s, ids[k], now);
    assert ActiveIn(s, ids[..k + 1], now) == ActiveIn(s, ids[..k], now) + (if v.Some? then [v.value] else []);
    if v.Some? {
      FilterAppend(ActiveIn(s, ids[..k], now), v.value, OfService(service));
    } else {
      assert ActiveIn(s, ids[..k], now) + [] == ActiveIn(s, ids[..k], now);
    }
  }

  function ListActive(s: Store, now: int): seq<Version>
  {
    ActiveIn(s, s.ids, now)
  }

  // ---------- Runs ----------

  datatype Op =
    | AddOp(v: Version)
    | MarkPendingOp(id: string)
    | MarkServiceOp(service: string)
    | VerifyOp(id: string, name: string)

  datatype Timed = Timed(op: Op, at: int)

  function Apply(hash: Hash, s: Store, t: Timed): Store
  {
    match t.op
    case AddOp(v) => Add(hash, s, v, t.at)
    case MarkPendingOp(id) => MarkPending(s, id)
    case MarkServiceOp(service) => MarkService(s, service)
    case VerifyOp(id, name) => Verify(s, id, name, t.at)
  }

  function Run(hash: Hash, ops: seq<Timed>): Store
  {
    if ops == [] then Store([], map[]) else Apply(hash, Run(hash, ops[..|ops| - 1]), ops[|ops| - 1])
  }

  ghost predicate ClockRuns(ops: seq<Timed>)
  {
    forall i, j :: 0 <= i < j < |ops| ==> ops[i].at <= ops[j].at
  }

  /** No addition happened after the given time. */
  ghost predicate AddsBy(ops: seq<Timed>, latest: int)
  {
    forall i :: 0 <= i < |ops| && ops[i].op.AddOp? ==> ops[i].at <= latest
  }

  ghost predicate Closed(vs: seq<Version>, latest: int)
  {
    forall i :: 0 <= i < |vs| - 1 ==> vs[i].effectiveTo.Some? && vs[i].effectiveTo.value <= latest
  }

  ghost predicate NeighboursDiffer(vs: seq<Version>)
  {
    forall i :: 0 <= i < |vs| - 1 ==> vs[i].hash != vs[i + 1].hash
  }

  ghost predicate Keyed(hash: Hash, vs: seq<Version>, id: string)
  {
    forall i :: 0 <= i < |vs| ==> vs[i].content.id == id && vs[i].hash == hash(HashedText(vs[i].content))
  }

  ghost predicate Lifecycle(hash: Hash, s: Store, latest: int)
  {
    && (forall id :: id in s.versions <==> id in s.ids)
    && (forall i, j :: 0 <= i < j < |s.ids| ==> s.ids[i] != s.ids[j])
    && (forall id | id in s.versions ::
          s.versions[id] != [] && Closed(s.versions[id], latest) && NeighboursDiffer(s.versions[id]) &&
            Keyed(hash, s.versions[id], id))
  }

  lemma AddKeeps(hash: Hash, s: Store, v: Version, latest: int, now: int)
    requires Lifecycle(hash, s, latest) && latest <= now
    ensures Lifecycle(hash, Add(hash, s, v, now), now)
  {
    var t := Add(hash, s, v, now);
    var vs, w := VersionsOf(s, v.content.id), v.(hash := hash(HashedText(v.content)));
    assert HashedText(w.content) == HashedText(v.content);
    forall id | id in t.versions
      ensures t.versions[id] != [] && Closed(t.versions[id], now) && NeighboursDiffer(t.versions[id]) &&
              Keyed(hash, t.versions[id], id)
    {
      if id == v.content.id {
        SupersededKeeps(hash, vs, w, latest, now);
      }
    }
  }

  lemma SupersededKeeps(hash: Hash, vs: seq<Version>, w: Version, latest: int, now: int)
    requires Closed(vs, latest) && NeighboursDiffer(vs) && Keyed(hash, vs, w.content.id) && latest <= now
    requires w.hash == hash(HashedText(w.content))
    ensures var r := Added(vs, w, now); r != [] && Closed(r, now) && NeighboursDiffer(r) && Keyed(hash, r, w.content.id)
  {
    var r := Added(vs, w, now);
    forall i | 0 <= i < |r| ensures r[i].content.id == w.content.id && r[i].hash == hash(HashedText(r[i].content))
    {
      if i < |vs| {
        assert HashedText(r[i].content) == HashedText(vs[i].content);
      }
    }
  }

  /** Operations that only touch status and verification time. */
  ghost predicate SameButStatus(vs: seq<Version>, ws: seq<Version>)
  {
    |vs| == |ws| && forall i :: 0 <= i < |vs| ==>
      ws[i] == vs[i].(status := ws[i].status, lastVerifiedAt := ws[i].lastVerifiedAt)
  }

  lemma StatusKeeps(hash: Hash, s: Store, t: Store, latest: int)
    requires Lifecycle(hash, s, latest) && t.ids == s.ids && t.versions.Keys == s.versions.Keys
    requires forall id | id in s.versions :: SameButStatus(s.versions[id], t.versions[id])
    ensures Lifecycle(hash, t, latest)
  {
    forall id | id in t.versions
      ensures t.versions[id] != [] && Closed(t.versions[id], latest) && NeighboursDiffer(t.versions[id]) &&
              Keyed(hash, t.versions[id], id)
    {
      var vs, ws := s.versions[id], t.versions[id];
      assert SameButStatus(vs, ws);
      forall i | 0 <= i < |ws| ensures ws[i].hash == hash(HashedText(ws[i].content))
      {
        assert HashedText(ws[i].content) == HashedText(vs[i].content);
      }
    }
  }

  lemma StatusOpSame(hash: Hash, s: Store, t: Timed, id: string)
    requires !t.op.AddOp?
    ensures SameButStatus(VersionsOf(s, id), VersionsOf(Apply(hash, s, t), id))
  {}

  lemma StatusOpKeys(hash: Hash, s: Store, t: Timed)
    requires !t.op.AddOp?
    ensures Apply(hash, s, t).ids == s.ids && Apply(hash, s, t).versions.Keys == s.versions.Keys
  {}

  lemma StatusOpKeeps(hash: Hash, s: Store, t: Timed, latest: int)
    requires Lifecycle(hash, s, latest) && !t.op.AddOp?
    ensures Lifecycle(hash, Apply(hash, s, t), latest)
  {
    var r := Apply(hash, s, t);
    StatusOpKeys(hash, s, t);
    forall id | id in s.versions ensures SameButStatus(s.versions[id], r.versions[id])
    {
      StatusOpSame(hash, s, t, id);
    }
    StatusKeeps(hash, s, r, latest);
  }

  /** After any run under a clock that never goes back, superseded versions are closed
      no later than the last addition, neighbouring versions differ in their hash, and
      every version is filed under its own id. */
  lemma {:induction false} RunKeepsLifecycle(hash: Hash, ops: seq<Timed>, latest: int)
    requires ClockRuns(ops) && AddsBy(ops, latest)
    ensures Lifecycle(hash, Run(hash, ops), latest)
  {
    if ops != [] {
      var n := |ops| - 1;
      var last := ops[n];
      var s := Run(hash, ops[..n]);
      match last.op {
        case AddOp(v) =>
          RunKeepsLifecycle(hash, ops[..n], last.at);
          AddKeeps(hash, s, v, last.at, last.at);
          Later(hash, Add(hash, s, v, last.at), last.at, latest);
        case MarkPendingOp(_) =>
          RunKeepsLifecycle(hash, ops[..n], latest);
          StatusOpKeeps(hash, s, last, latest);
        case MarkServiceOp(_) =>
          RunKeepsLifecycle(hash, ops[..n], latest);
          StatusOpKeeps(hash, s, last, latest);
        case VerifyOp(_, _) =>
          RunKeepsLifecycle(hash, ops[..n], latest);
          StatusOpKeeps(hash, s, last, latest);
      }
    }
  }

  lemma Later(hash: Hash, s: Store, early: int, late: int)
    requires Lifecycle(hash, s, early) && early <= late
    ensures Lifecycle(hash, s, late)
  {}

  lemma {:induction false} OnlyLastActive(vs: seq<Version>, latest: int, now: int)
    requires Closed(vs, latest) && now > latest
    ensures LastActive(vs, now) == if vs != [] && IsActive(vs[|vs| - 1], now) then Some(|vs| - 1) else None
  {
    forall i | 0 <= i < |vs| - 1 ensures !IsActive(vs[i], now) {}
  }

  lemma {:induction false} ActiveOfLifecycle(hash: Hash, s: Store, latest: int, id: string, now: int)
    requires Lifecycle(hash, s, latest) && now > latest
    ensures var vs := VersionsOf(s, id);
            GetActive(s, id, now) == if vs != [] && IsActive(vs[|vs| - 1], now) then Some(vs[|vs| - 1]) else None
  {
    OnlyLastActive(VersionsOf(s, id), latest, now);
  }

  /** Superseded runbooks never return: at any reading after the last addition, whatever
      was marked or verified in between, the active version is the last one or none. */
  lemma {:induction false} SupersededNeverReturns(hash: Hash, ops: seq<Timed>, latest: int, id: string, now: int)
    requires ClockRuns(ops) && AddsBy(ops, latest) && now > latest
    ensures var s := Run(hash, ops); var vs := VersionsOf(s, id);
            GetActive(s, id, now) == if vs != [] && IsActive(vs[|vs| - 1], now) then Some(vs[|vs| - 1]) else None
  {
    RunKeepsLifecycle(hash, ops, latest);
    ActiveOfLifecycle(hash, Run(hash, ops), latest, id, now);
  }

  lemma {:induction false} RunNext(hash: Hash, ops: seq<Timed>, t: Timed)
    ensures Run(hash, ops + [t]) == Apply(hash, Run(hash, ops), t)
  {
    assert (ops + [t])[..|ops|] == ops;
  }

  /** At the very tick of the last addition they can: an old version verified in that
      tick, after everything was marked for verification, is active again. */
  lemma SameTickReturns(hash: Hash, v1: Version, v2: Version, now: int)
    requires v1.content.id == v2.content.id && v1.content.version == "1" && v2.content.version == "2" &&
             v2.status == Valid
    requires hash(HashedText(v1.content)) != hash(HashedText(v2.content))
    ensures var ops := [Timed(AddOp(v1), now)] + [Timed(AddOp(v2), now)] + [Timed(MarkPendingOp(v1.content.id), now)] +
            [Timed(VerifyOp(v1.content.id, "1"), now)];
            var r := GetActive(Run(hash, ops), v1.content.id, now);
            r.Some? && r.value.content.version == "1" && r.value.effectiveTo == Some(now)
  {
    var id := v1.content.id;
    var a, b := v1.(hash := hash(HashedText(v1.content))), v2.(hash := hash(HashedText(v2.content)));
    var o1 := [Timed(AddOp(v1), now)];
    RunNext(hash, [], Timed(AddOp(v1), now));
    assert [] + o1 == o1;
    assert VersionsOf(Run(hash, o1), id) == [a];
    RunNext(hash, o1, Timed(AddOp(v2), now));
    var o2 := o1 + [Timed(AddOp(v2), now)];
    var closed := a.(status := Deprecated, effectiveTo := Some(now));
    assert VersionsOf(Run(hash, o2), id) == [closed, b];
    RunNext(hash, o2, Timed(MarkPendingOp(id), now));
    var o3 := o2 + [Timed(MarkPendingOp(id), now)];
    var pending := [closed, b.(status := PendingVerification)];
    assert VersionsOf(Run(hash, o3), id) == pending;
    RunNext(hash, o3, Timed(VerifyOp(id, "1"), now));
    assert pending[..1] == [closed];
    assert FirstNamed([closed], "1") == Some(0);
    assert Named(pending, "1") == Some(0);
    var verified := [Verified(closed, now), pending[1]];
    assert VersionsOf(Run(hash, o3 + [Timed(VerifyOp(id, "1"), now)]), id) == verified;
    assert verified[..1] == [Verified(closed, now)];
    assert LastActive([Verified(closed, now)], now) == Some(0);
  }

  // ---------- When a superseded version returns ----------

  /** Operations of one moment that add nothing. */
  ghost predicate StatusOpsAt(ops: seq<Timed>, now: int)
  {
    forall i :: 0 <= i < |ops| ==> !ops[i].op.AddOp? && ops[i].at == now
  }

  lemma {:induction false} StatusOpsSame(hash: Hash, ops: seq<Timed>, more: seq<Timed>, id: string, now: int)
    requires StatusOpsAt(more, now)
    ensures SameButStatus(VersionsOf(Run(hash, ops), id), VersionsOf(Run(hash, ops + more), id))
  {
    if more == [] {
      assert ops + more == ops;
    } else {
      var n := |more| - 1;
      ConcatLast(ops, more);
      StatusOpsSame(hash, ops, more[..n], id, now);
      RunNext(hash, ops + more[..n], more[n]);
      StatusOpSame(hash, Run(hash, ops + more[..n]), more[n], id);
    }
  }

  lemma {:induction false} OnlyOneActive(vs: seq<Version>, i: nat, now: int)
    requires i < |vs| && IsActive(vs[i], now) && forall k :: 0 <= k < |vs| && k != i ==> vs[k].status != Valid
    ensures LastActive(vs, now) == Some(i)
  {
    if i < |vs| - 1 {
      OnlyOneActive(vs[..|vs| - 1], i, now);
    }
  }

  /** The version has a name, and no earlier version has the same: verifying that name
      verifies this version. */
  ghost predicate NameLeads(vs: seq<Version>, i: nat)
    requires i < |vs|
  {
    vs[i].content.version != "" && forall j :: 0 <= j < i ==> vs[j].content.version != vs[i].content.version
  }

  /** A superseded version is valid only where its name leads to it. */
  ghost predicate LedIfValid(vs: seq<Version>)
  {
    forall i :: 0 <= i < |vs| - 1 && vs[i].status == Valid ==> NameLeads(vs, i)
  }

  lemma AddedLeads(vs: seq<Version>, v: Version, now: int)
    requires LedIfValid(vs)
    ensures LedIfValid(Added(vs, v, now))
  {
    var r := Added(vs, v, now);
    forall i | 0 <= i < |r| - 1 && r[i].status == Valid ensures NameLeads(r, i)
    {
      assert r != vs ==> i < |vs| - 1;
      assert NameLeads(vs, i);
      assert forall j :: 0 <= j <= i ==> r[j] == vs[j];
    }
  }

  lemma StatusOpLeads(hash: Hash, s: Store, t: Timed, id: string)
    requires !t.op.AddOp? && LedIfValid(VersionsOf(s, id))
    ensures LedIfValid(VersionsOf(Apply(hash, s, t), id))
  {
    var vs, ws := VersionsOf(s, id), VersionsOf(Apply(hash, s, t), id);
    StatusOpSame(hash, s, t, id);
    forall i | 0 <= i < |ws| - 1 && ws[i].status == Valid ensures NameLeads(ws, i)
    {
      if vs[i].status == Valid {
        assert NameLeads(vs, i);
      }
      assert forall j :: 0 <= j <= i ==> ws[j].content == vs[j].content;
    }
  }

  lemma {:induction false} RunLeads(hash: Hash, ops: seq<Timed>, id: string)
    ensures LedIfValid(VersionsOf(Run(hash, ops), id))
  {
    if ops != [] {
      var n := |ops| - 1;
      var s := Run(hash, ops[..n]);
      RunLeads(hash, ops[..n], id);
      match ops[n].op
      case AddOp(v) => AddedLeads(VersionsOf(s, id), v.(hash := hash(HashedText(v.content))), ops[n].at);
      case _ => StatusOpLeads(hash, s, ops[n], id);
    }
  }

  lemma VerifyLeads(s: Store, id: string, i: nat, now: int)
    requires id in s.versions && i < |s.versions[id]|
    requires NameLeads(s.versions[id], i) && !IsExpired(s.versions[id][i], now)
    requires forall k :: 0 <= k < |s.versions[id]| ==> s.versions[id][k].status != Valid
    ensures LastActive(VersionsOf(Verify(s, id, s.versions[id][i].content.version, now), id), now) == Some(i)
  {
    var vs := s.versions[id];
    assert FirstNamed(vs, vs[i].content.version) == Some(i);
    OnlyOneActive(vs[i := Verified(vs[i], now)], i, now);
  }

  /** Everything marked, then one version verified. */
  lemma MarkThenVerify(hash: Hash, ops: seq<Timed>, id: string, i: nat, now: int)
    requires id in Run(hash, ops).versions && i < |Run(hash, ops).versions[id]|
    requires NameLeads(Run(hash, ops).versions[id], i) && !IsExpired(Run(hash, ops).versions[id][i], now)
    ensures var name := Run(hash, ops).versions[id][i].content.version;
            LastActive(VersionsOf(Run(hash, ops + [Timed(MarkPendingOp(id), now)] + [Timed(VerifyOp(id, name), now)]),
                                  id), now) == Some(i)
  {
    var s := Run(hash, ops);
    var vs, name := s.versions[id], s.versions[id][i].content.version;
    var mark, verify := Timed(MarkPendingOp(id), now), Timed(VerifyOp(id, name), now);
    RunNext(hash, ops, mark);
    RunNext(hash, ops + [mark], verify);
    VerifyLeads(MarkPending(s, id), id, i, now);
  }

  ghost predicate CanReturn(hash: Hash, ops: seq<Timed>, id: string, i: nat, now: int)
  {
    exists more :: StatusOpsAt(more, now) && LastActive(VersionsOf(Run(hash, ops + more), id), now) == Some(i)
  }

  lemma {:induction false} ReturnsLed(hash: Hash, ops: seq<Timed>, more: seq<Timed>, id: string, i: nat, now: int)
    requires StatusOpsAt(more, now) && LastActive(VersionsOf(Run(hash, ops + more), id), now) == Some(i)
    requires i < |VersionsOf(Run(hash, ops), id)| - 1
    ensures var vs := VersionsOf(Run(hash, ops), id); !IsExpired(vs[i], now) && NameLeads(vs, i)
  {
    StatusOpsSame(hash, ops, more, id, now);
    RunLeads(hash, ops + more, id);
    assert NameLeads(VersionsOf(Run(hash, ops + more), id), i);
  }

  lemma {:induction false} LedReturns(hash: Hash, ops: seq<Timed>, id: string, i: nat, now: int)
    requires id in Run(hash, ops).versions && i < |Run(hash, ops).versions[id]|
    requires NameLeads(Run(hash, ops).versions[id], i) && !IsExpired(Run(hash, ops).versions[id][i], now)
    ensures CanReturn(hash, ops, id, i, now)
  {
    var mark, verify := Timed(MarkPendingOp(id), now),
      Timed(VerifyOp(id, Run(hash, ops).versions[id][i].content.version), now);
    MarkThenVerify(hash, ops, id, i, now);
    assert ops + [mark] + [verify] == ops + [mark, verify];
    assert StatusOpsAt([mark, verify], now);
  }

  /** Exactly when a superseded version can return: after any run, some marking and
      verifying at a moment makes it the active version if and only if the moment is not
      past its closing, it has a name, and no earlier version has the same name. */
  lemma {:induction false} SupersededReturnsExactly(hash: Hash, ops: seq<Timed>, latest: int, id: string, i: nat,
                                                    now: int)
    requires ClockRuns(ops) && AddsBy(ops, latest)
    requires id in Run(hash, ops).versions && i < |Run(hash, ops).versions[id]| - 1
    ensures var vs := Run(hash, ops).versions[id];
            && vs[i].effectiveTo.Some? && vs[i].effectiveTo.value <= latest
            && (CanReturn(hash, ops, id, i, now) <==> now <= vs[i].effectiveTo.value && NameLeads(vs, i))
  {
    RunKeepsLifecycle(hash, ops, latest);
    assert Closed(Run(hash, ops).versions[id], latest);
    if CanReturn(hash, ops, id, i, now) {
      var more :| StatusOpsAt(more, now) && LastActive(VersionsOf(Run(hash, ops + more), id), now) == Some(i);
      ReturnsLed(hash, ops, more, id, i, now);
    }
    if now <= Run(hash, ops).versions[id][i].effectiveTo.value && NameLeads(Run(hash, ops).versions[id], i) {
      LedReturns(hash, ops, id, i, now);
    }
  }

  /** Three additions under the name every runbook has by default: within their tick the
      first version can return, the second cannot. */
  lemma SameNameStaysSuperseded(hash: Hash, v1: Version, v2: Version, v3: Version, now: int)
    requires v1.content.id == v2.content.id == v3.content.id
    requires v1.content.version == "1.0" && v2.content.version == "1.0" && v3.content.version == "1.0"
    requires hash(HashedText(v1.content)) != hash(HashedText(v2.content)) &&
             hash(HashedText(v2.content)) != hash(HashedText(v3.content))
    ensures var ops := [Timed(AddOp(v1), now)] + [Timed(AddOp(v2), now)] + [Timed(AddOp(v3), now)];
            CanReturn(hash, ops, v1.content.id, 0, now) && !CanReturn(hash, ops, v1.content.id, 1, now)
  {
    var id := v1.content.id;
    var a, b, c := v1.(hash := hash(HashedText(v1.content))), v2.(hash := hash(HashedText(v2.content))),
      v3.(hash := hash(HashedText(v3.content)));
    var o1 := [Timed(AddOp(v1), now)];
    RunNext(hash, [], Timed(AddOp(v1), now));
    assert [] + o1 == o1;
    assert VersionsOf(Run(hash, o1), id) == [a];
    RunNext(hash, o1, Timed(AddOp(v2), now));
    var o2 := o1 + [Timed(AddOp(v2), now)];
    var a', b' := a.(status := Deprecated, effectiveTo := Some(now)),
      b.(status := Deprecated, effectiveTo := Some(now));
    assert VersionsOf(Run(hash, o2), id) == [a', b];
    RunNext(hash, o2, Timed(AddOp(v3), now));
    var ops := o2 + [Timed(AddOp(v3), now)];
    assert VersionsOf(Run(hash, ops), id) == [a', b', c];
    SupersededReturnsExactly(hash, ops, now, id, 0, now);
    SupersededReturnsExactly(hash, ops, now, id, 1, now);
  }
}

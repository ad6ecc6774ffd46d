/** What each store operation does to which versions, field by field
    (python/app/infrastructure/runbook_store.py). */
module RunbookMeaning {
  import opened Collections
  import opened RunbookStore

  ghost predicate SameElsewhere(s: Store, t: Store, id: string)
  {
    forall other :: other != id ==>
      (other in t.versions <==> other in s.versions) && (other in s.versions ==> t.versions[other] == s.versions[other])
  }

  // ---------- Adding ----------

  /** Adding a runbook whose content hash is that of the last version changes nothing but the
      order of ids; any other becomes the last version as it is, and the one before it is
      DEPRECATED and closed at this moment. */
  lemma AddMeans(hash: Hash, s: Store, v: Version, now: int)
    requires v.content.id in s.versions && s.versions[v.content.id] != []
    ensures var t, id := Add(hash, s, v, now), v.content.id;
            var vs, ws, n := VersionsOf(s, id), VersionsOf(t, id), |VersionsOf(s, id)|;
            var h := hash(HashedText(v.content));
            && SameElsewhere(s, t, id) && t.ids == s.ids
            && (vs[n - 1].hash == h ==> ws == vs)
            && (vs[n - 1].hash != h ==>
                && |ws| == n + 1 && ws[n] == v.(hash := h)
                && ws[n - 1] == vs[n - 1].(status := Deprecated, effectiveTo := Some(now))
                && ws[..n - 1] == vs[..n - 1])
  {}

  lemma AddFirst(hash: Hash, s: Store, v: Version, now: int)
    requires v.content.id !in s.versions
    ensures var t := Add(hash, s, v, now);
            && t.ids == s.ids + [v.content.id] && SameElsewhere(s, t, v.content.id)
            && VersionsOf(t, v.content.id) == [v.(hash := hash(HashedText(v.content)))]
  {}

  // ---------- Marking ----------

  /** Exactly the VALID versions of the given service, under whatever id, await
      verification; nothing else of them and nothing of the others changes. */
  lemma MarkServiceMeans(s: Store, service: string, id: string, i: nat)
    requires id in s.versions && i < |s.versions[id]|
    ensures var v, t := s.versions[id][i], MarkService(s, service);
            && t.ids == s.ids && t.versions.Keys == s.versions.Keys && |t.versions[id]| == |s.versions[id]|
            && t.versions[id][i] == (if v.status == Valid && v.content.service == service
                                     then v.(status := PendingVerification) else v)
  {}

  lemma MarkPendingMeans(s: Store, id: string, i: nat)
    requires id in s.versions && i < |s.versions[id]|
    ensures var v, t := s.versions[id][i], MarkPending(s, id);
            && t.ids == s.ids && SameElsewhere(s, t, id) && id in t.versions && |t.versions[id]| == |s.versions[id]|
            && t.versions[id][i] == (if v.status == Valid then v.(status := PendingVerification) else v)
  {}

  // ---------- Verifying ----------

  /** The version verification is about: the first of that name, or the last one when no
      name is given. */
  ghost predicate IsMeant(vs: seq<Version>, name: string, i: nat)
  {
    && i < |vs|
    && (name == "" ==> i == |vs| - 1)
    && (name != "" ==> vs[i].content.version == name && forall j :: 0 <= j < i ==> vs[j].content.version != name)
  }

  /** Verification makes exactly that version VALID and dates it, and touches nothing else;
      without such a version it does nothing. */
  lemma VerifyMeans(s: Store, id: string, name: string, now: int, i: nat)
    ensures var vs, t := VersionsOf(s, id), Verify(s, id, name, now);
            && t.ids == s.ids && SameElsewhere(s, t, id)
            && (IsMeant(vs, name, i) ==>
                VersionsOf(t, id) == vs[i := vs[i].(status := Valid, lastVerifiedAt := Some(now))])
            && ((forall j :: !IsMeant(vs, name, j)) ==> t == s)
  {
    var vs := VersionsOf(s, id);
    var named := Named(vs, name);
    if named.Some? {
      assert IsMeant(vs, name, named.value);
    }
    if IsMeant(vs, name, i) && name != "" {
      assert named == Some(i);
    }
  }

  // ---------- Reading ----------

  /** VALID, and not past its closing. */
  predicate IsCurrent(v: Version, now: int)
  {
    v.status == Valid && (v.effectiveTo.Some? ==> now <= v.effectiveTo.value)
  }

  /** The active version is the newest current one. */
  lemma ActiveMeans(s: Store, id: string, now: int)
    ensures var vs, active := VersionsOf(s, id), GetActive(s, id, now);
            && (active.None? ==> forall i :: 0 <= i < |vs| ==> !IsCurrent(vs[i], now))
            && (active.Some? ==> exists i :: 0 <= i < |vs| && vs[i] == active.value && IsCurrent(vs[i], now) &&
                                   forall j :: i < j < |vs| ==> !IsCurrent(vs[j], now))
  {
    var vs := VersionsOf(s, id);
    forall v: Version ensures IsActive(v, now) <==> IsCurrent(v, now) {}
    if LastActive(vs, now).Some? {
      assert IsCurrent(vs[LastActive(vs, now).value], now);
    }
  }

  lemma {:induction false} ActiveMember(s: Store, ids: seq<string>, now: int, v: Version)
    ensures v in ActiveIn(s, ids, now) <==> exists id :: id in ids && GetActive(s, id, now) == Some(v)
  {
    if ids != [] {
      var n := |ids| - 1;
      ActiveMember(s, ids[..n], now, v);
      assert ids == ids[..n] + [ids[n]];
    }
  }

  /** Listing gives the active version of every id, of one service or of all. */
  lemma ListMeans(s: Store, now: int, service: Option<string>, v: Version)
    ensures v in Filter(ListActive(s, now), OfService(service)) <==>
            && (service.Some? ==> v.content.service == service.value)
            && exists id :: id in s.ids && GetActive(s, id, now) == Some(v)
  {
    ActiveMember(s, s.ids, now, v);
    FilterMembers(ListActive(s, now), OfService(service));
  }

  // ---------- What counts as a change ----------

  /** Title, root cause, resolution and symptoms are what is hashed: runbooks that agree in
      them are the same to the store. */
  lemma HashedFields(c: Content, d: Content)
    requires c.title == d.title && c.rootCause == d.rootCause && c.resolution == d.resolution &&
             c.symptoms == d.symptoms
    ensures HashedText(c) == HashedText(d)
  {}

  predicate Plain(text: string)
  {
    '|' !in text
  }

  lemma FirstBar(a: string, b: string, x: string, y: string)
    requires Plain(a) && Plain(b) && a + "|" + x == b + "|" + y
    ensures a == b && x == y
  {
    var s := a + "|" + x;
    assert s[|a|] == '|' && s[|b|] == '|';
    assert forall i :: 0 <= i < |a| ==> s[i] == a[i];
    assert forall i :: 0 <= i < |b| ==> s[i] == b[i];
    assert |a| == |b|;
    assert a == s[..|a|] && b == s[..|b|];
    assert x == s[|a| + 1..] && y == s[|b| + 1..];
  }

  /** And where title, root cause and resolution hold no vertical bar, two texts agree only
      if these fields agree, and the symptoms as they are joined. */
  lemma HashedFieldsDiffer(c: Content, d: Content)
    requires Plain(c.title) && Plain(c.rootCause) && Plain(c.resolution)
    requires Plain(d.title) && Plain(d.rootCause) && Plain(d.resolution)
    requires HashedText(c) == HashedText(d)
    ensures c.title == d.title && c.rootCause == d.rootCause && c.resolution == d.resolution
    ensures Join(c.symptoms, "|") == Join(d.symptoms, "|")
  {
    var x, y := Join(c.symptoms, "|"), Join(d.symptoms, "|");
    assert HashedText(c) == c.title + "|" + (c.rootCause + "|" + (c.resolution + "|" + x));
    assert HashedText(d) == d.title + "|" + (d.rootCause + "|" + (d.resolution + "|" + y));
    FirstBar(c.title, d.title, c.rootCause + "|" + (c.resolution + "|" + x),
             d.rootCause + "|" + (d.resolution + "|" + y));
    FirstBar(c.rootCause, d.rootCause, c.resolution + "|" + x, d.resolution + "|" + y);
    FirstBar(c.resolution, d.resolution, x, y);
  }
}

/** The reports of one building as a sequence: filtering, the newest of them, and well-formed version chains. */
module Chains {
  import opened Basics
  import opened Tables
  import opened Rows

  lemma OfBuildingAppend(s: seq<Report>, r: Report, b: string)
    ensures OfBuilding(s + [r], b) == OfBuilding(s, b) + if r.building == Some(b) then [r] else []
  {
    assert Front(s + [r]) == s;
  }

  lemma {:induction false} OfBuildingMembers(s: seq<Report>, b: string)
    ensures forall r :: r in OfBuilding(s, b) <==> r in s && r.building == Some(b)
    ensures Unique(s) ==> Unique(OfBuilding(s, b))
  {
    if s != [] {
      OfBuildingMembers(Front(s), b);
      assert s == Front(s) + [Last(s)];
    }
  }

  lemma {:induction false} OfBuildingCore(s: seq<Report>, s': seq<Report>, b: string)
    requires SameCore(s, s')
    ensures SameCore(OfBuilding(s, b), OfBuilding(s', b))
  {
    if s != [] {
      FrontCore(s, s');
      OfBuildingCore(Front(s), Front(s'), b);
      assert Core(Last(s)).building == Core(Last(s')).building;
    }
  }

  /** Erasing a report nobody in the building is, or points to, leaves the building's chain as it was. */
  lemma {:induction false} OfBuildingErase(s: seq<Report>, id: string, b: string)
    requires forall r :: r in OfBuilding(s, b) ==> r.id != id && r.supersedes != Some(id)
    ensures OfBuilding(Erase(s, id), b) == OfBuilding(s, b)
  {
    if s != [] {
      EraseFront(s, id);
      assert forall r :: r in OfBuilding(Front(s), b) ==> r in OfBuilding(s, b);
      OfBuildingErase(Front(s), id, b);
      if Last(s).id != id {
        OfBuildingAppend(Erase(Front(s), id), Unlink(s, id)[|s| - 1], b);
      } else {
        assert Erase(s, id) == Erase(Front(s), id);
      }
    }
  }

  lemma {:induction false} NewestCore(s: seq<Report>, s': seq<Report>)
    requires SameCore(s, s')
    ensures NewestId(s) == NewestId(s') && NewestDamage(s) == NewestDamage(s')
    ensures Newest(s).Some? ==> Newest(s').Some? && Core(Newest(s).value) == Core(Newest(s').value)
  {
    if s != [] {
      FrontCore(s, s');
      NewestCore(Front(s), Front(s'));
      CoreFields(Last(s), Last(s'));
      if Newest(Front(s)).Some? {
        CoreFields(Newest(Front(s)).value, Newest(Front(s')).value);
      }
    }
  }

  lemma CoreFields(r: Report, r': Report)
    requires Core(r) == Core(r')
    ensures r.id == r'.id && r.key == r'.key && r.building == r'.building && r.supersedes == r'.supersedes
    ensures r.damage == r'.damage && r.captured == r'.captured && r.created == r'.created && r.submitter == r'.submitter
    ensures r.version == r'.version && r.point == r'.point && r.source == r'.source
  {
    var c, c' := Core(r), Core(r');
    assert c.id == r.id && c.key == r.key && c.building == r.building && c.supersedes == r.supersedes;
    assert c'.id == r'.id && c'.key == r'.key && c'.building == r'.building && c'.supersedes == r'.supersedes;
    assert c.damage == r.damage && c.captured == r.captured && c.created == r.created && c.submitter == r.submitter;
    assert c'.damage == r'.damage && c'.captured == r'.captured && c'.created == r'.created && c'.submitter == r'.submitter;
    assert c.version == r.version && c.point == r.point && c.source == r.source;
    assert c'.version == r'.version && c'.point == r'.point && c'.source == r'.source;
  }

  lemma {:induction false} NewestMember(s: seq<Report>)
    ensures Newest(s) == None <==> s == []
    ensures Newest(s).Some? ==> Newest(s).value in s
  {
    if s != [] {
      NewestMember(Front(s));
      assert s == Front(s) + [Last(s)];
    }
  }

  lemma NewerTotal(a: Report, b: Report)
    ensures Newer(a, b) || Newer(b, a) || (a.captured == b.captured && a.id == b.id)
    ensures !(Newer(a, b) && Newer(b, a))
  {
    BelowTotal(a.id, b.id);
    BelowAsymmetric(a.id, b.id);
  }

  lemma NewerTransitive(a: Report, b: Report, c: Report)
    requires Newer(a, b) && Newer(b, c)
    ensures Newer(a, c)
  {
    if a.captured == b.captured == c.captured {
      BelowTransitive(c.id, b.id, a.id);
    }
  }

  /** Newest is the maximum of the (captured_at, id) order: no row of the table is newer. */
  lemma {:induction false} NewestIsMaximal(s: seq<Report>, r: Report)
    requires r in s
    ensures Newest(s).Some? && !Newer(r, Newest(s).value)
  {
    assert s == Front(s) + [Last(s)];
    var rest := Newest(Front(s));
    if r in Front(s) {
      NewestIsMaximal(Front(s), r);
      if Newer(Last(s), rest.value) {
        NewerTotal(r, Last(s));
        if Newer(r, Last(s)) {
          NewerTransitive(r, Last(s), rest.value);
        }
      }
    } else {
      NewerTotal(r, r);
    }
  }

  // ---- version chains ---------------------------------------------------------

  /** Versions count 1, 2, 3, ...; each report supersedes the newest one stored when it was written. */
  ghost predicate Chain(c: seq<Report>) {
    forall k :: 0 <= k < |c| ==> c[k].version == k + 1 && c[k].supersedes == NewestId(c[..k])
  }

  lemma ChainAppend(c: seq<Report>, r: Report)
    requires Chain(c) && r.version == |c| + 1 && r.supersedes == NewestId(c)
    ensures Chain(c + [r])
  {
    var d := c + [r];
    forall k | 0 <= k < |d|
      ensures d[k].version == k + 1 && d[k].supersedes == NewestId(d[..k])
    {
      assert d[..k] == c[..k];
      assert c[..|c|] == c;
    }
  }

  lemma ChainCore(c: seq<Report>, c': seq<Report>)
    requires Chain(c) && SameCore(c, c')
    ensures Chain(c')
  {
    forall k | 0 <= k < |c'|
      ensures c'[k].version == k + 1 && c'[k].supersedes == NewestId(c'[..k])
    {
      CoreFields(c[k], c'[k]);
      assert SameCore(c[..k], c'[..k]);
      NewestCore(c[..k], c'[..k]);
    }
  }

  /** A chain only ever points into itself. */
  lemma ChainLinksInside(c: seq<Report>, r: Report)
    requires Chain(c) && r in c && r.supersedes.Some?
    ensures exists q :: q in c && q.id == r.supersedes.value
  {
    var k :| 0 <= k < |c| && c[k] == r;
    NewestMember(c[..k]);
    assert Newest(c[..k]).value in c;
  }

  /** Version k supersedes version k-1, all along the chain. */
  ghost predicate Linear(c: seq<Report>) {
    forall k :: 1 <= k < |c| ==> c[k].supersedes == Some(c[k - 1].id)
  }

  lemma NewestIsLast(c: seq<Report>, k: nat)
    requires Unique(c) && 1 <= k <= |c|
    ensures NewestId(c[..k]) == Some(c[k - 1].id) <==> k == 1 || Newer(c[k - 1], Newest(c[..k - 1]).value)
  {
    assert Front(c[..k]) == c[..k - 1];
    NewestMember(c[..k - 1]);
    if k > 1 {
      var n :| 0 <= n < k - 1 && c[n] == Newest(c[..k - 1]).value;
      assert c[n].id != c[k - 1].id;
    }
  }

  /**
   The history is one linear chain exactly when every report but the latest was, when it was stored,
   captured after the one stored before it (id breaking a tie).
   */
  lemma LinearExactly(c: seq<Report>)
    requires Chain(c) && Unique(c)
    ensures Linear(c) <==> forall k :: 1 <= k < |c| - 1 ==> Newer(c[k], c[k - 1])
  {
    if Linear(c) {
      forall k | 1 <= k < |c| - 1
        ensures Newer(c[k], c[k - 1])
      {
        assert c[k + 1].supersedes == Some(c[k].id) && c[k].supersedes == Some(c[k - 1].id);
        NewestIsLast(c, k + 1);
        NewestMember(c[..k]);
        var n :| 0 <= n < k && c[n] == Newest(c[..k]).value;
        assert c[n].id == c[k - 1].id;
        assert n == k - 1;
      }
    }
    if forall k :: 1 <= k < |c| - 1 ==> Newer(c[k], c[k - 1]) {
      forall k | 1 <= k < |c|
        ensures c[k].supersedes == Some(c[k - 1].id)
      {
        IncreasingNewest(c, k);
      }
    }
  }

  lemma {:induction false} IncreasingNewest(c: seq<Report>, k: nat)
    requires Unique(c) && 1 <= k < |c| && forall j :: 1 <= j < |c| - 1 ==> Newer(c[j], c[j - 1])
    ensures Newest(c[..k]) == Some(c[k - 1])
  {
    assert Front(c[..k]) == c[..k - 1];
    if k > 1 {
      IncreasingNewest(c, k - 1);
    }
  }

  /** In particular: strictly increasing capture times give one linear chain. */
  lemma CaptureOrderIsLinear(c: seq<Report>)
    requires Chain(c) && Unique(c)
    requires forall k :: 1 <= k < |c| ==> c[k - 1].captured < c[k].captured
    ensures Linear(c)
  {
    LinearExactly(c);
  }
}

/** Facts about report tables: which updates keep identity, order, uniqueness and supersedes links. */
module Rows {
  import opened Basics
  import opened Tables

  /** What no update ever touches; only insertion and erasure change it. */
  function Core(r: Report): Report {
    r.(crisis := None, verification := Pending, photo := None, admin := NO_ADMIN)
  }

  ghost predicate SameCore(s: seq<Report>, s': seq<Report>) {
    |s| == |s'| && forall i :: 0 <= i < |s| ==> Core(s[i]) == Core(s'[i])
  }

  /** What remains of a table after the transaction that erases `id`. */
  function Erase(s: seq<Report>, id: string): seq<Report> {
    Without(Unlink(s, id), id)
  }

  ghost predicate Unique(s: seq<Report>) {
    forall i, j :: 0 <= i < j < |s| ==> s[i].id != s[j].id && s[i].key != s[j].key
  }

  /** Every supersedes link points to a row that was committed earlier and is still there. */
  ghost predicate Linked(s: seq<Report>) {
    s == [] || (Linked(Front(s)) && (Last(s).supersedes.Some? ==> Last(s).supersedes.value in Ids(Front(s))))
  }

  lemma FrontCore(s: seq<Report>, s': seq<Report>)
    requires SameCore(s, s') && s != []
    ensures s' != [] && SameCore(Front(s), Front(s')) && Core(Last(s)) == Core(Last(s'))
  {}

  lemma IdsCore(s: seq<Report>, s': seq<Report>)
    requires SameCore(s, s')
    ensures Ids(s) == Ids(s') && Keys(s) == Keys(s')
  {
    forall i | 0 <= i < |s|
      ensures s[i].id in Ids(s') && s'[i].id in Ids(s) && s[i].key in Keys(s') && s'[i].key in Keys(s)
    {
      assert Core(s[i]).id == Core(s'[i]).id && Core(s[i]).key == Core(s'[i]).key;
      assert s[i] in s && s'[i] in s';
    }
  }

  lemma UniqueCore(s: seq<Report>, s': seq<Report>)
    requires SameCore(s, s') && Unique(s)
    ensures Unique(s')
  {
    forall i, j | 0 <= i < j < |s'|
      ensures s'[i].id != s'[j].id && s'[i].key != s'[j].key
    {
      assert Core(s[i]) == Core(s'[i]) && Core(s[j]) == Core(s'[j]);
      assert Core(s[i]).id == s[i].id && Core(s[j]).id == s[j].id && Core(s[i]).key == s[i].key && Core(s[j]).key == s[j].key;
    }
  }

  lemma UniqueAppend(s: seq<Report>, r: Report)
    requires Unique(s) && r.id !in Ids(s) && r.key !in Keys(s)
    ensures Unique(s + [r])
  {
    forall i | 0 <= i < |s| ensures s[i].id != r.id && s[i].key != r.key {
      assert s[i] in s;
    }
  }

  lemma IdsAppend(s: seq<Report>, r: Report)
    ensures Ids(s + [r]) == Ids(s) + {r.id} && Keys(s + [r]) == Keys(s) + {r.key}
  {
    assert forall x :: x in s + [r] <==> x in s || x == r;
  }

  lemma {:induction false} LinkedCore(s: seq<Report>, s': seq<Report>)
    requires SameCore(s, s') && Linked(s)
    ensures Linked(s')
  {
    if s != [] {
      FrontCore(s, s');
      LinkedCore(Front(s), Front(s'));
      IdsCore(Front(s), Front(s'));
      assert Core(Last(s)).supersedes == Last(s).supersedes && Core(Last(s')).supersedes == Last(s').supersedes;
    }
  }

  // ---- erasure ---------------------------------------------------------------

  lemma EraseFront(s: seq<Report>, id: string)
    requires s != []
    ensures Erase(s, id) == Erase(Front(s), id) + if Last(s).id == id then [] else [Unlink(s, id)[|s| - 1]]
    ensures Unlink(s, id)[|s| - 1] == if Last(s).supersedes == Some(id) then Last(s).(supersedes := None) else Last(s)
  {
    assert Front(Unlink(s, id)) == Unlink(Front(s), id);
  }

  lemma {:induction false} IdsErase(s: seq<Report>, id: string)
    ensures Ids(Erase(s, id)) == Ids(s) - {id} && Keys(Erase(s, id)) <= Keys(s)
  {
    if s == [] {
      assert Erase(s, id) == [];
    } else {
      EraseFront(s, id);
      IdsErase(Front(s), id);
      assert s == Front(s) + [Last(s)];
      IdsAppend(Front(s), Last(s));
      if Last(s).id != id {
        IdsAppend(Erase(Front(s), id), Unlink(s, id)[|s| - 1]);
      } else {
        assert Erase(s, id) == Erase(Front(s), id);
      }
    }
  }

  lemma {:induction false} UniqueErase(s: seq<Report>, id: string)
    requires Unique(s)
    ensures Unique(Erase(s, id))
  {
    if s != [] {
      EraseFront(s, id);
      UniqueErase(Front(s), id);
      if Last(s).id != id {
        IdsErase(Front(s), id);
        assert forall r :: r in Front(s) ==> r.id != Last(s).id && r.key != Last(s).key;
        UniqueAppend(Erase(Front(s), id), Unlink(s, id)[|s| - 1]);
      }
    }
  }

  lemma {:induction false} LinkedErase(s: seq<Report>, id: string)
    requires Linked(s)
    ensures Linked(Erase(s, id))
  {
    if s != [] {
      EraseFront(s, id);
      LinkedErase(Front(s), id);
      IdsErase(Front(s), id);
      if Last(s).id != id {
        LinkedAppend(Erase(Front(s), id), Unlink(s, id)[|s| - 1]);
      } else {
        assert Erase(s, id) == Erase(Front(s), id);
      }
    }
  }

  lemma LinkedAppend(s: seq<Report>, r: Report)
    requires Linked(s) && (r.supersedes.Some? ==> r.supersedes.value in Ids(s))
    ensures Linked(s + [r])
  {
    assert Front(s + [r]) == s;
  }

  lemma {:induction false} FindStored(s: seq<Report>, id: string)
    ensures Find(s, id).Some? <==> id in Ids(s)
    ensures Find(s, id).Some? ==> Find(s, id).value in s && Find(s, id).value.id == id
  {
    if s != [] {
      FindStored(Front(s), id);
      assert s == Front(s) + [Last(s)];
    }
  }

  lemma FindUnique(s: seq<Report>, r: Report)
    requires Unique(s) && r in s
    ensures Find(s, r.id) == Some(r)
  {
    FindStored(s, r.id);
    assert r.id in Ids(s);
    var i :| 0 <= i < |s| && s[i] == r;
    var j :| 0 <= j < |s| && s[j] == Find(s, r.id).value;
    assert i == j;
  }

  // ---- counting ------------------------------------------------------------------

  /** The positions of the rows that `p` holds of. */
  function Where(s: seq<Report>, p: Report -> bool): set<int> {
    set i | 0 <= i < |s| && p(s[i])
  }

  lemma WhereFront(s: seq<Report>, p: Report -> bool)
    requires s != []
    ensures |Where(s, p)| == |Where(Front(s), p)| + if p(Last(s)) then 1 else 0
  {
    var before := Where(Front(s), p);
    if p(Last(s)) {
      assert Where(s, p) == before + {|s| - 1};
    } else {
      assert Where(s, p) == before;
    }
  }

  // ---- what the links mean -----------------------------------------------------

  /** Row `i` of the table supersedes row `j`. */
  predicate Supersedes(s: seq<Report>, i: int, j: int) {
    0 <= i < |s| && 0 <= j < |s| && s[i].supersedes == Some(s[j].id)
  }

  /** No dangling link; and with unique ids, every link goes strictly backwards in commit order. */
  lemma {:induction false} LinksPointBack(s: seq<Report>)
    requires Linked(s) && Unique(s)
    ensures forall i :: 0 <= i < |s| && s[i].supersedes.Some? ==> exists j :: Supersedes(s, i, j)
    ensures forall i, j :: Supersedes(s, i, j) ==> j < i
  {
    if s != [] {
      var f := Front(s);
      LinksPointBack(f);
      var n := |s| - 1;
      forall i | 0 <= i < |s| && s[i].supersedes.Some?
        ensures exists j :: Supersedes(s, i, j)
      {
        if i < n {
          var j :| Supersedes(f, i, j);
          assert Supersedes(s, i, j);
        } else {
          var r :| r in f && r.id == s[i].supersedes.value;
          var j :| 0 <= j < |f| && f[j] == r;
          assert Supersedes(s, i, j);
        }
      }
      forall i, j | Supersedes(s, i, j)
        ensures j < i
      {
        if i < n {
          assert s[i].supersedes.Some? && f[i] == s[i];
          var k :| Supersedes(f, i, k);
          assert k < i;
          assert j == k;
        } else {
          var r :| r in f && r.id == s[i].supersedes.value;
          var k :| 0 <= k < |f| && f[k] == r;
          assert j == k;
        }
      }
    }
  }

  /** A walk along supersedes links, as row indices. */
  ghost predicate Walk(s: seq<Report>, p: seq<int>) {
    forall k :: 0 <= k < |p| - 1 ==> Supersedes(s, p[k], p[k + 1])
  }

  /** The supersedes graph is acyclic: a walk never returns to where it began. */
  lemma {:induction false} NoCycle(s: seq<Report>, p: seq<int>)
    requires Linked(s) && Unique(s) && Walk(s, p) && |p| >= 2
    ensures p[|p| - 1] < p[0]
  {
    LinksPointBack(s);
    assert Supersedes(s, p[0], p[1]);
    if |p| > 2 {
      assert Walk(s, p[1..]) by {
        forall k | 0 <= k < |p[1..]| - 1 ensures Supersedes(s, p[1..][k], p[1..][k + 1]) {
          assert Supersedes(s, p[k + 1], p[k + 2]);
        }
      }
      NoCycle(s, p[1..]);
    }
  }
}

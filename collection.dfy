/**
  The client-side collection of the user's CVs (src/context/CVContext.tsx).

  The provider keeps one piece of state, the list `cvs`, which the class
  `CVProvider` holds as a field. Every remote call is reduced to what the
  provider does with its outcome: a flag for "the call resolved" and, for a
  fetch, the list it returned (`None` when it was rejected). The user id the
  provider reads from local storage is a parameter.
*/
module CVContext {

  import opened Wrappers
  import opened CVTypes
  import opened Seqs

  /** `cvs.find(cv => cv.id === id)`: some CV carrying `id` when there is
      one (FindByIdIsFirst: the first), nothing otherwise. */
  function FindById(cvs: seq<CV>, id: string): (r: Option<CV>)
    ensures r.None? <==> forall k :: 0 <= k < |cvs| ==> cvs[k].id != Some(id)
    ensures r.Some? ==> r.value in cvs && r.value.id == Some(id)
  {
    if cvs == [] then None
    else if cvs[0].id == Some(id) then Some(cvs[0])
    else FindById(cvs[1..], id)
  }

  /** Index `k` holds the first CV of `cvs` whose id is `id`. */
  predicate FirstWithId(cvs: seq<CV>, id: string, k: nat)
  {
    k < |cvs| && cvs[k].id == Some(id) && forall j :: 0 <= j < k ==> cvs[j].id != Some(id)
  }

  /** The CV `find` returns is the one at the first index carrying `id`. */
  lemma {:induction false} FindByIdIsFirst(cvs: seq<CV>, id: string, k: nat)
    requires FirstWithId(cvs, id, k)
    ensures FindById(cvs, id) == Some(cvs[k])
  {
    if k > 0 {
      assert cvs[0].id != Some(id);
      assert FirstWithId(cvs[1..], id, k - 1);
      FindByIdIsFirst(cvs[1..], id, k - 1);
    }
  }

  /** `cvs.filter(cv => cv.id !== id)`: exactly the CVs with another id
      are left. */
  function RemoveById(cvs: seq<CV>, id: string): (r: seq<CV>)
    ensures forall cv :: cv in r <==> cv in cvs && cv.id != Some(id)
  {
    FilterMembers(cvs, (cv: CV) => cv.id != Some(id));
    Filter(cvs, (cv: CV) => cv.id != Some(id))
  }

  /** Deleting keeps every copy of a CV with another id and none with `id`. */
  lemma RemoveByIdCounts(cvs: seq<CV>, id: string, cv: CV)
    ensures multiset(RemoveById(cvs, id))[cv] == if cv.id == Some(id) then 0 else multiset(cvs)[cv]
  {
    FilterCounts(cvs, (c: CV) => c.id != Some(id), cv);
  }

  /** Deleting keeps the remaining CVs in their original relative order:
      deleting from a concatenation deletes from each part. */
  lemma RemoveByIdConcat(a: seq<CV>, b: seq<CV>, id: string)
    ensures RemoveById(a + b, id) == RemoveById(a, id) + RemoveById(b, id)
  {
    FilterConcat(a, b, (cv: CV) => cv.id != Some(id));
  }

  /** Deleting an id that no CV carries changes nothing. */
  lemma RemoveAbsentId(cvs: seq<CV>, id: string)
    requires forall k :: 0 <= k < |cvs| ==> cvs[k].id != Some(id)
    ensures RemoveById(cvs, id) == cvs
  {
    FilterKeepsAll(cvs, (cv: CV) => cv.id != Some(id));
  }

  /** Deleting from a list that starts with `cv` deletes `cv` or keeps it in
      front of what is left of the rest. */
  lemma RemoveByIdCons(cv: CV, rest: seq<CV>, id: string)
    ensures RemoveById([cv] + rest, id) == (if cv.id == Some(id) then [] else [cv]) + RemoveById(rest, id)
  {
    RemoveByIdConcat([cv], rest, id);
    assert [cv][1..] == [];
  }

  /** After a delete, looking up the deleted id finds nothing. */
  lemma FindDeleted(cvs: seq<CV>, id: string)
    ensures FindById(RemoveById(cvs, id), id).None?
  {
    var r := RemoveById(cvs, id);
    forall k | 0 <= k < |r| ensures r[k].id != Some(id) {
      assert r[k] in r;
    }
  }

  /** After a delete, looking up any other id finds what it found before. */
  lemma {:induction false} FindOtherAfterDelete(cvs: seq<CV>, id: string, other: string)
    requires other != id
    ensures FindById(RemoveById(cvs, id), other) == FindById(cvs, other)
  {
    if cvs != [] {
      assert cvs == [cvs[0]] + cvs[1..];
      RemoveByIdCons(cvs[0], cvs[1..], id);
      FindOtherAfterDelete(cvs[1..], id, other);
      var r := RemoveById(cvs, id);
      if cvs[0].id == Some(id) {
        assert r == RemoveById(cvs[1..], id);
        assert FindById(cvs, other) == FindById(cvs[1..], other);
      } else {
        assert r == [cvs[0]] + RemoveById(cvs[1..], id);
        assert r[0] == cvs[0] && r[1..] == RemoveById(cvs[1..], id);
      }
    }
  }

  /** Deleting one CV out of three leaves the other two, in order. */
  lemma DeleteMiddleOfThree(a: CV, b: CV, c: CV, id: string)
    requires b.id == Some(id) && a.id != Some(id) && c.id != Some(id)
    ensures RemoveById([a, b, c], id) == [a, c]
  {
    RemoveByIdCons(c, [], id);
    assert [c] + [] == [c];
    RemoveByIdCons(b, [c], id);
    assert [b] + [c] == [b, c];
    RemoveByIdCons(a, [b, c], id);
    assert [a] + [b, c] == [a, b, c];
  }

  /** `if (userId)`: a missing id and an empty id are both falsy. */
  predicate HasUser(storedUserId: Option<string>)
  {
    storedUserId.Some? && storedUserId.value != ""
  }

  class CVProvider {
    /** `cvs`: the cached list of the user's CVs. */
    var cvs: seq<CV>

    constructor ()
      ensures cvs == []
    {
      cvs := [];
    }

    /** `loadCVs`: with a stored user id and a fetch that resolved, the list
        is replaced wholesale; otherwise (no user, or the fetch was rejected
        and only logged) it is left as it was. */
    method LoadCVs(storedUserId: Option<string>, fetched: Option<seq<CV>>)
      modifies this
      ensures HasUser(storedUserId) && fetched.Some? ==> cvs == fetched.value
      ensures !(HasUser(storedUserId) && fetched.Some?) ==> cvs == old(cvs)
    {
      if HasUser(storedUserId) {
        match fetched
        case Some(list) => cvs := list;
        case None =>
      }
    }

    /** `addCV`: after the remote create resolved, the list is reloaded; a
        rejected create is re-thrown (`ok` is false) and the list is kept. */
    method AddCV(created: bool, storedUserId: Option<string>, fetched: Option<seq<CV>>) returns (ok: bool)
      modifies this
      ensures ok == created
      ensures created && HasUser(storedUserId) && fetched.Some? ==> cvs == fetched.value
      ensures !(created && HasUser(storedUserId) && fetched.Some?) ==> cvs == old(cvs)
    {
      ok := created;
      if created {
        LoadCVs(storedUserId, fetched);
      }
    }

    /** `updateCV`: after the remote update resolved, the list is reloaded; a
        rejected update is re-thrown (`ok` is false) and the list is kept. */
    method UpdateCV(updated: bool, storedUserId: Option<string>, fetched: Option<seq<CV>>) returns (ok: bool)
      modifies this
      ensures ok == updated
      ensures updated && HasUser(storedUserId) && fetched.Some? ==> cvs == fetched.value
      ensures !(updated && HasUser(storedUserId) && fetched.Some?) ==> cvs == old(cvs)
    {
      ok := updated;
      if updated {
        LoadCVs(storedUserId, fetched);
      }
    }

    /** `deleteCV`: once the remote delete resolved, every CV with that id is
        dropped and the rest keep their order; a rejected delete is only
        logged and the list is kept. */
    method DeleteCV(id: string, deleted: bool)
      modifies this
      ensures deleted ==> cvs == RemoveById(old(cvs), id)
      ensures !deleted ==> cvs == old(cvs)
    {
      if deleted {
        cvs := RemoveById(cvs, id);
      }
    }

    /** `getCVById`: a read of the cached list. */
    function GetCVById(id: string): (r: Option<CV>)
      reads this
      ensures r == FindById(cvs, id)
      ensures r.None? <==> forall k :: 0 <= k < |cvs| ==> cvs[k].id != Some(id)
      ensures r.Some? ==> r.value in cvs && r.value.id == Some(id)
    {
      FindById(cvs, id)
    }
  }
}

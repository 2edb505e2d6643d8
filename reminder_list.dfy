/** The list operations the in-memory data sources perform on their ordered
    reminder list: `find { it.id == id }`, `remove(...)` of what `find`
    returned, and the not-found mapping of a lookup. Ids are not required to
    be distinct: a save appends, so several records may share an id, and
    every lookup sees the first of them. */
module ReminderList {
  import opened Data

  /** Position of the first reminder whose id is `id`, or `|s|` when no
      reminder has that id. */
  function FirstIndex(s: seq<ReminderDTO>, id: string): (k: nat)
    ensures k <= |s|
    ensures forall j :: 0 <= j < k ==> s[j].id != id
    ensures k < |s| ==> s[k].id == id
  {
    if s == [] then 0
    else if s[0].id == id then 0
    else 1 + FirstIndex(s[1..], id)
  }

  /** `s.find { it.id == id }`: the first reminder with the given id. */
  function Find(s: seq<ReminderDTO>, id: string): (r: Option<ReminderDTO>)
    ensures r.Some? <==> exists i :: 0 <= i < |s| && s[i].id == id
    ensures r.Some? ==> exists i :: 0 <= i < |s| && s[i] == r.value && r.value.id == id &&
                                    forall j :: 0 <= j < i ==> s[j].id != id
  {
    var k := FirstIndex(s, id);
    if k < |s| then Some(s[k]) else None
  }

  /** A by-id lookup as both in-memory sources report it: the first match,
      or an error saying that the reminder was not found. */
  function Lookup(s: seq<ReminderDTO>, id: string): (r: Result<ReminderDTO>)
    ensures r.Success? ==> exists i :: 0 <= i < |s| && s[i] == r.data && r.data.id == id &&
                                       forall j :: 0 <= j < i ==> s[j].id != id
    ensures r.Error? ==> r.message == REMINDER_NOT_FOUND && forall x :: x in s ==> x.id != id
  {
    match Find(s, id)
    case Some(x) => Success(x)
    case None => Error(REMINDER_NOT_FOUND)
  }

  /** `s.remove(s.find { it.id == id })`: drops the first reminder with the
      given id and keeps the others in their order; `s` itself when there is
      none. (`remove` drops the first element equal to the one found, and an
      element equal to it has the same id, so it is that first match.) */
  function RemoveFirst(s: seq<ReminderDTO>, id: string): (r: seq<ReminderDTO>)
    ensures FirstIndex(s, id) == |s| ==> r == s
    ensures FirstIndex(s, id) < |s| ==> r == s[..FirstIndex(s, id)] + s[FirstIndex(s, id) + 1..]
  {
    if s == [] then []
    else if s[0].id == id then s[1..]
    else
      var k := FirstIndex(s[1..], id);
      assert k < |s[1..]| ==> s[..k + 1] == [s[0]] + s[1..][..k] && s[k + 2..] == s[1..][k + 1..];
      [s[0]] + RemoveFirst(s[1..], id)
  }

  /** How many reminders of `s` carry the id. */
  function CountId(s: seq<ReminderDTO>, id: string): (n: nat)
    ensures n <= |s|
  {
    if s == [] then 0
    else (if s[0].id == id then 1 else 0) + CountId(s[1..], id)
  }

  /** Every id occurs at most once: the uniqueness the storage layer is
      meant to have but the in-memory sources do not enforce. */
  ghost predicate DistinctIds(s: seq<ReminderDTO>)
  {
    forall i, j :: 0 <= i < j < |s| ==> s[i].id != s[j].id
  }

  /** Cutting the element at position k out of a list loses exactly that
      element. */
  lemma CutLosesOne(s: seq<ReminderDTO>, k: nat)
    requires k < |s|
    ensures multiset(s[..k] + s[k + 1..]) + multiset{s[k]} == multiset(s)
  {
    assert s == s[..k] + ([s[k]] + s[k + 1..]);
  }

  /** Removing a present id drops exactly one record, the first match, and
      keeps every other record. */
  lemma RemoveFirstDropsOne(s: seq<ReminderDTO>, id: string)
    requires Find(s, id).Some?
    ensures |RemoveFirst(s, id)| == |s| - 1
    ensures multiset(RemoveFirst(s, id)) + multiset{Find(s, id).value} == multiset(s)
  {
    var k := FirstIndex(s, id);
    CutLosesOne(s, k);
  }

  /** Counting the records of an appended list. */
  lemma {:induction false} CountIdAppend(s: seq<ReminderDTO>, r: ReminderDTO, id: string)
    ensures CountId(s + [r], id) == CountId(s, id) + (if r.id == id then 1 else 0)
  {
    if s != [] {
      assert (s + [r])[1..] == s[1..] + [r];
      CountIdAppend(s[1..], r, id);
    }
  }

  /** A lookup misses exactly when no record carries the id. */
  lemma {:induction false} FindNoneIffCountZero(s: seq<ReminderDTO>, id: string)
    ensures Find(s, id).None? <==> CountId(s, id) == 0
  {
    if s != [] {
      FindNoneIffCountZero(s[1..], id);
      if s[0].id != id && Find(s[1..], id).Some? {
        var i :| 0 <= i < |s[1..]| && s[1..][i].id == id;
        assert s[i + 1].id == id;
      }
      if s[0].id != id && Find(s, id).Some? {
        var i :| 0 <= i < |s| && s[i].id == id;
        assert i > 0 && s[1..][i - 1].id == id;
      }
    }
  }

  /** Removing the first match lowers the count of that id by one and
      leaves the count of every other id unchanged. */
  lemma {:induction false} RemoveFirstCount(s: seq<ReminderDTO>, id: string, other: string)
    requires Find(s, id).Some?
    ensures CountId(RemoveFirst(s, id), id) == CountId(s, id) - 1
    ensures other != id ==> CountId(RemoveFirst(s, id), other) == CountId(s, other)
  {
    if s[0].id != id {
      assert Find(s[1..], id).Some? by {
        var i :| 0 <= i < |s| && s[i].id == id;
        assert i > 0 && s[1..][i - 1].id == id;
      }
      RemoveFirstCount(s[1..], id, other);
      assert ([s[0]] + RemoveFirst(s[1..], id))[1..] == RemoveFirst(s[1..], id);
    }
  }

  /** Round trip: once a reminder whose id is not yet stored is appended, a
      lookup of that id returns exactly that reminder. */
  lemma SaveThenLookup(s: seq<ReminderDTO>, r: ReminderDTO)
    requires CountId(s, r.id) == 0
    ensures Lookup(s + [r], r.id) == Success(r)
  {
    FindNoneIffCountZero(s, r.id);
    assert forall j :: 0 <= j < |s| ==> (s + [r])[j] == s[j];
    assert (s + [r])[|s|] == r;
  }

  /** Appending never hides an earlier record: when the id is already
      stored, a lookup keeps returning the earlier record. */
  lemma SaveKeepsEarlierMatch(s: seq<ReminderDTO>, r: ReminderDTO, id: string)
    requires Find(s, id).Some?
    ensures Lookup(s + [r], id) == Lookup(s, id)
  {
    assert forall j :: 0 <= j < |s| ==> (s + [r])[j] == s[j];
  }

  /** Deleting an id that is stored once makes a later lookup of it fail. */
  lemma DeleteThenLookup(s: seq<ReminderDTO>, id: string)
    requires CountId(s, id) == 1
    ensures Lookup(RemoveFirst(s, id), id) == Error(REMINDER_NOT_FOUND)
  {
    FindNoneIffCountZero(s, id);
    RemoveFirstCount(s, id, id);
    FindNoneIffCountZero(RemoveFirst(s, id), id);
  }

  /** Under distinct ids, a lookup of a stored reminder's id returns that
      very reminder. */
  lemma LookupDistinct(s: seq<ReminderDTO>, i: nat)
    requires DistinctIds(s) && i < |s|
    ensures Lookup(s, s[i].id) == Success(s[i])
  {
  }

  /** Appending a reminder with a fresh id keeps ids distinct. */
  lemma SaveKeepsDistinct(s: seq<ReminderDTO>, r: ReminderDTO)
    requires DistinctIds(s) && Find(s, r.id).None?
    ensures DistinctIds(s + [r])
  {
  }

  /** Deleting keeps ids distinct. */
  lemma DeleteKeepsDistinct(s: seq<ReminderDTO>, id: string)
    requires DistinctIds(s)
    ensures DistinctIds(RemoveFirst(s, id))
  {
    var k := FirstIndex(s, id);
    if k < |s| {
      var t := RemoveFirst(s, id);
      forall i, j | 0 <= i < j < |t|
        ensures t[i].id != t[j].id
      {
        var i' := if i < k then i else i + 1;
        var j' := if j < k then j else j + 1;
        assert t[i] == s[i'] && t[j] == s[j'];
      }
    }
  }
}

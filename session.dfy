/**
 * The app's per-session lists (app.py): the shortlist and the compare
 * list of car identifiers, created empty and changed in place by
 * `add_to_shortlist`, `remove_from_shortlist` and `toggle_compare`. The
 * compare list is capped at three cars.
 */
module Session {

  /** The most cars the compare list holds. */
  const CompareLimit: nat := 3

  predicate NoDuplicates(s: seq<string>) {
    forall i, j :: 0 <= i < j < |s| ==> s[i] != s[j]
  }

  /** `list.remove(x)` on a list holding `x`: its first occurrence goes; otherwise nothing changes. */
  function RemoveFirst(s: seq<string>, x: string): (r: seq<string>)
    ensures x !in s ==> r == s
    ensures x in s ==> |r| == |s| - 1
    ensures multiset(r) == multiset(s) - multiset{x}
  {
    if s == [] then []
    else
      assert s == [s[0]] + s[1..];
      if s[0] == x then s[1..]
      else [s[0]] + RemoveFirst(s[1..], x)
  }

  /** Removing from a list without duplicates removes the entry entirely and keeps the others. */
  lemma RemoveFromDistinct(s: seq<string>, x: string)
    requires NoDuplicates(s)
    ensures NoDuplicates(RemoveFirst(s, x))
    ensures x !in RemoveFirst(s, x)
    ensures forall y :: y != x ==> (y in RemoveFirst(s, x) <==> y in s)
  {
    var r := RemoveFirst(s, x);
    assert forall y :: y in r <==> y in multiset(r);
    assert forall y :: y in s <==> y in multiset(s);
    if x in s {
      assert multiset(s)[x] == 1 by {
        var i :| 0 <= i < |s| && s[i] == x;
        DistinctCount(s, i);
      }
    }
    forall i, j | 0 <= i < j < |r| ensures r[i] != r[j] {
      if r[i] == r[j] {
        TwiceCounted(r, i, j);
        assert multiset(s)[r[i]] >= multiset(r)[r[i]];
        var k :| 0 <= k < |s| && s[k] == r[i];
        DistinctCount(s, k);
        assert false;
      }
    }
  }

  /** In a list without duplicates each entry occurs once. */
  lemma {:induction false} DistinctCount(s: seq<string>, i: nat)
    requires NoDuplicates(s) && i < |s|
    ensures multiset(s)[s[i]] == 1
  {
    if i == 0 {
      assert s == [s[0]] + s[1..];
      assert s[0] !in s[1..];
      assert multiset(s[1..])[s[0]] == 0;
    } else {
      assert s == [s[0]] + s[1..];
      assert NoDuplicates(s[1..]);
      assert s[1..][i - 1] == s[i];
      DistinctCount(s[1..], i - 1);
    }
  }

  /** An entry at two positions occurs at least twice. */
  lemma {:induction false} TwiceCounted(s: seq<string>, i: nat, j: nat)
    requires i < j < |s| && s[i] == s[j]
    ensures multiset(s)[s[i]] >= 2
  {
    assert s == s[..j] + [s[j]] + s[j + 1..];
    assert s[..j][i] == s[i];
    assert s[i] in multiset(s[..j]);
  }

  /** The shortlist after `add_to_shortlist(uid)`: appended only when absent. */
  function Shortlisted(s: seq<string>, uid: string): seq<string> {
    if uid in s then s else s + [uid]
  }

  /** The compare list after `toggle_compare(uid)`. */
  function Toggled(s: seq<string>, uid: string): seq<string> {
    if uid in s then RemoveFirst(s, uid)
    else if |s| >= CompareLimit then s
    else s + [uid]
  }

  /** Adding keeps the shortlist free of duplicates, keeps its entries in order and then holds `uid`. */
  lemma ShortlistedProperties(s: seq<string>, uid: string)
    requires NoDuplicates(s)
    ensures NoDuplicates(Shortlisted(s, uid))
    ensures uid in Shortlisted(s, uid)
    ensures Shortlisted(s, uid)[..|s|] == s
  {
  }

  /** Removing an absent uid leaves the shortlist unchanged; a present one disappears. */
  lemma RemovedFromShortlist(s: seq<string>, uid: string)
    requires NoDuplicates(s)
    ensures uid !in s ==> RemoveFirst(s, uid) == s
    ensures uid !in RemoveFirst(s, uid) && NoDuplicates(RemoveFirst(s, uid))
  {
    RemoveFromDistinct(s, uid);
  }

  /**
   * Toggling keeps the compare list within the limit and free of
   * duplicates; the uid ends up listed exactly when it was absent and
   * there was room.
   */
  lemma ToggledProperties(s: seq<string>, uid: string)
    requires NoDuplicates(s) && |s| <= CompareLimit
    ensures NoDuplicates(Toggled(s, uid)) && |Toggled(s, uid)| <= CompareLimit
    ensures uid in Toggled(s, uid) <==> uid !in s && |s| < CompareLimit
    ensures uid !in s && |s| >= CompareLimit ==> Toggled(s, uid) == s
  {
    if uid in s {
      RemoveFromDistinct(s, uid);
    }
  }

  /** Toggling a uid on and then off restores the compare list. */
  lemma ToggleTwice(s: seq<string>, uid: string)
    requires uid !in s && |s| < CompareLimit
    ensures Toggled(Toggled(s, uid), uid) == s
  {
    RemoveLast(s, uid);
  }

  /** Removing an entry appended to a list that lacked it gives the list back. */
  lemma {:induction false} RemoveLast(s: seq<string>, x: string)
    requires x !in s
    ensures RemoveFirst(s + [x], x) == s
  {
    if s != [] {
      assert (s + [x])[1..] == s[1..] + [x];
      RemoveLast(s[1..], x);
    } else {
      assert [x][1..] == [];
    }
  }

  /** The compare list after toggling each uid of `uids` in turn, from the empty list. */
  function CompareAfter(uids: seq<string>): seq<string> {
    if uids == [] then [] else Toggled(CompareAfter(uids[..|uids| - 1]), uids[|uids| - 1])
  }

  /** Whatever the clicks, the compare list never exceeds three cars and never repeats one. */
  lemma {:induction false} CompareAfterBounded(uids: seq<string>)
    ensures |CompareAfter(uids)| <= CompareLimit
    ensures NoDuplicates(CompareAfter(uids))
  {
    if uids != [] {
      CompareAfterBounded(uids[..|uids| - 1]);
      ToggledProperties(CompareAfter(uids[..|uids| - 1]), uids[|uids| - 1]);
    }
  }

  /** `st.session_state["shortlist"]` and `st.session_state["compare"]`. */
  class SessionState {
    var shortlist: seq<string>
    var compare: seq<string>

    ghost predicate Valid()
      reads this
    {
      NoDuplicates(shortlist) && NoDuplicates(compare) && |compare| <= CompareLimit
    }

    /** Both lists start empty. */
    constructor ()
      ensures Valid()
      ensures shortlist == [] && compare == []
    {
      shortlist := [];
      compare := [];
    }

    /** `add_to_shortlist(uid)` */
    method AddToShortlist(uid: string)
      requires Valid()
      modifies this`shortlist
      ensures Valid()
      ensures shortlist == Shortlisted(old(shortlist), uid)
      ensures uid in shortlist && shortlist[..|old(shortlist)|] == old(shortlist)
    {
      ShortlistedProperties(shortlist, uid);
      if uid !in shortlist {
        shortlist := shortlist + [uid];
      }
    }

    /** `remove_from_shortlist(uid)` */
    method RemoveFromShortlist(uid: string)
      requires Valid()
      modifies this`shortlist
      ensures Valid()
      ensures shortlist == RemoveFirst(old(shortlist), uid)
      ensures uid !in shortlist
      ensures uid !in old(shortlist) ==> shortlist == old(shortlist)
    {
      RemovedFromShortlist(shortlist, uid);
      if uid in shortlist {
        shortlist := RemoveFirst(shortlist, uid);
      }
    }

    /** `toggle_compare(uid)`; the warning shown at the limit is not modelled. */
    method ToggleCompare(uid: string)
      requires Valid()
      modifies this`compare
      ensures Valid()
      ensures compare == Toggled(old(compare), uid)
      ensures uid in compare <==> uid !in old(compare) && |old(compare)| < CompareLimit
    {
      ToggledProperties(compare, uid);
      if uid in compare {
        compare := RemoveFirst(compare, uid);
      } else if |compare| < CompareLimit {
        compare := compare + [uid];
      }
    }
  }
}

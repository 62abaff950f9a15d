/** The row selection and the row action menu of the contacts table, as values:
    toggling one id in the selection (`includes`, then `filter` or append), the ids
    of the loaded page that "select all" takes, and the single open dropdown. Ids
    are compared by value. */
module Selection {
  import opened Json
  import opened Wrappers
  import opened Normalize

  /** No id occurs twice. */
  predicate NoDup(s: seq<Value>) {
    forall i, j :: 0 <= i < j < |s| ==> s[i] != s[j]
  }

  /** `s.filter(x => x !== id)`: every occurrence of `id` dropped, the rest kept in
      order; nothing changes when `id` does not occur. */
  function RemoveAll(s: seq<Value>, id: Value): (r: seq<Value>)
    ensures |r| <= |s|
    ensures id !in s ==> r == s
    decreases |s|
  {
    if s == [] then []
    else
      var rest := RemoveAll(s[1..], id);
      if s[0] == id then rest else [s[0]] + rest
  }

  /** The filter keeps exactly the ids other than `id`. */
  lemma {:induction false} RemoveAllMembers(s: seq<Value>, id: Value)
    ensures forall x :: x in RemoveAll(s, id) <==> x in s && x != id
    decreases |s|
  {
    if s != [] {
      RemoveAllMembers(s[1..], id);
      assert s == [s[0]] + s[1..];
    }
  }

  /** The filter keeps every other id as often as it occurs: only `id`'s
      occurrences go. */
  lemma {:induction false} RemoveAllCounts(s: seq<Value>, id: Value)
    ensures multiset(RemoveAll(s, id)) == multiset(s)[id := 0]
    decreases |s|
  {
    if s != [] {
      var rest := RemoveAll(s[1..], id);
      RemoveAllCounts(s[1..], id);
      assert s == [s[0]] + s[1..];
      assert multiset(s) == multiset{s[0]} + multiset(s[1..]);
      if s[0] != id {
        assert multiset([s[0]] + rest) == multiset{s[0]} + multiset(rest);
      }
    }
  }

  /** The filter works piece by piece, so the kept ids stay in their order:
      filtering a concatenation is concatenating the filtered pieces. */
  lemma {:induction false} RemoveAllConcat(s1: seq<Value>, s2: seq<Value>, id: Value)
    ensures RemoveAll(s1 + s2, id) == RemoveAll(s1, id) + RemoveAll(s2, id)
    decreases |s1|
  {
    if s1 == [] {
      assert s1 + s2 == s2;
    } else {
      var t := s1 + s2;
      assert t[0] == s1[0];
      assert t[1..] == s1[1..] + s2;
      RemoveAllConcat(s1[1..], s2, id);
      if s1[0] != id {
        calc {
          RemoveAll(t, id);
          [s1[0]] + RemoveAll(s1[1..] + s2, id);
          [s1[0]] + (RemoveAll(s1[1..], id) + RemoveAll(s2, id));
          { AppendAssoc([s1[0]], RemoveAll(s1[1..], id), RemoveAll(s2, id)); }
          ([s1[0]] + RemoveAll(s1[1..], id)) + RemoveAll(s2, id);
        }
      }
    }
  }

  /** Concatenation is associative. */
  lemma AppendAssoc(x: seq<Value>, y: seq<Value>, z: seq<Value>)
    ensures x + (y + z) == (x + y) + z
  {
  }

  /** Filtering a selection without duplicates leaves one without duplicates. */
  lemma {:induction false} RemoveAllKeepsNoDup(s: seq<Value>, id: Value)
    requires NoDup(s)
    ensures NoDup(RemoveAll(s, id))
    decreases |s|
  {
    if s != [] {
      assert NoDup(s[1..]);
      RemoveAllKeepsNoDup(s[1..], id);
      if s[0] != id {
        RemoveAllMembers(s[1..], id);
        assert s[0] !in s[1..];
      }
    }
  }

  /** `handleSelectContact`'s new selection: without `id` if it was selected,
      otherwise with `id` appended. */
  function Toggled(s: seq<Value>, id: Value): (r: seq<Value>) {
    if id in s then RemoveAll(s, id) else s + [id]
  }

  /** Toggling flips whether `id` is selected and leaves every other id as it was. */
  lemma ToggledMembership(s: seq<Value>, id: Value)
    ensures id in Toggled(s, id) <==> id !in s
    ensures forall x :: x != id ==> (x in Toggled(s, id) <==> x in s)
  {
    RemoveAllMembers(s, id);
  }

  /** Toggling the same id twice gives back the same set of selected ids, and the
      very same sequence when the id was not selected. */
  lemma ToggleTwice(s: seq<Value>, id: Value)
    ensures forall x :: x in Toggled(Toggled(s, id), id) <==> x in s
    ensures id !in s ==> Toggled(Toggled(s, id), id) == s
  {
    if id in s {
      RemoveAllMembers(s, id);
    } else {
      RemoveAllConcat(s, [id], id);
      assert RemoveAll([id], id) == [];
      assert s + [] == s;
    }
  }

  /** A selection without duplicates stays without duplicates. */
  lemma ToggleKeepsNoDup(s: seq<Value>, id: Value)
    requires NoDup(s)
    ensures NoDup(Toggled(s, id))
  {
    if id in s {
      RemoveAllKeepsNoDup(s, id);
    }
  }

  /** `contacts.map(c => c.id)`. */
  function Ids(contacts: seq<Contact>): (r: seq<Value>)
    ensures |r| == |contacts|
    ensures forall i :: 0 <= i < |contacts| ==> r[i] == contacts[i].id
  {
    seq(|contacts|, i requires 0 <= i < |contacts| => contacts[i].id)
  }

  /** The ids "select all" takes are exactly the loaded contacts' ids. */
  lemma IdsAreLoaded(contacts: seq<Contact>, x: Value)
    ensures x in Ids(contacts) <==> exists i :: 0 <= i < |contacts| && contacts[i].id == x
  {
    if x in Ids(contacts) {
      var i :| 0 <= i < |contacts| && Ids(contacts)[i] == x;
    }
  }

  /** The dropdown after its row's button is clicked: closed if it was open for
      that row, otherwise open for that row. */
  function ToggledDropdown(active: Option<Value>, id: Value): (r: Option<Value>)
    ensures r == None <==> active == Some(id)
    ensures r != None ==> r == Some(id)
  {
    if active == Some(id) then None else Some(id)
  }

  /** Clicking the same row twice returns the dropdown to where it was when it was
      open for that row or closed; from another row's menu it ends closed. */
  lemma DropdownTwice(active: Option<Value>, id: Value)
    ensures active == Some(id) || active == None ==> ToggledDropdown(ToggledDropdown(active, id), id) == active
    ensures active != Some(id) && active != None ==> ToggledDropdown(ToggledDropdown(active, id), id) == None
  {
  }

  /** The row `i` shows its menu when `activeDropdown === contact.id`. */
  predicate MenuOpen(contacts: seq<Contact>, active: Option<Value>, i: int)
    requires 0 <= i < |contacts|
  {
    active == Some(contacts[i].id)
  }

  /** The menu is exclusive: when the loaded ids are distinct, at most one row shows it. */
  lemma MenuExclusive(contacts: seq<Contact>, active: Option<Value>, i: int, j: int)
    requires NoDup(Ids(contacts))
    requires 0 <= i < |contacts| && 0 <= j < |contacts|
    requires MenuOpen(contacts, active, i) && MenuOpen(contacts, active, j)
    ensures i == j
  {
  }
}

/**
 * The change log of version/version.go: an append-only list of changes, each
 * with a type, content and author, and queries over it. The clock is a
 * parameter.
 */
module Version {
  import opened Wrappers

  type ChangeType = string

  const ChangeTypeUser: ChangeType := "user"
  const ChangeTypeAgent: ChangeType := "agent"
  const ChangeTypeSystem: ChangeType := "system"

  datatype Change = Change(timestamp: int, changeType: ChangeType, content: string, author: string)

  /** `GetLatestContent`: the content of the last change, or empty when there is none. */
  function LatestContent(changes: seq<Change>): (r: string)
    ensures changes == [] ==> r == ""
    ensures changes != [] ==> r == changes[|changes| - 1].content
  {
    if changes == [] then "" else changes[|changes| - 1].content
  }

  /** `GetChangesByType`: the changes of the type, in their original order. */
  function ChangesByType(changes: seq<Change>, t: ChangeType): (r: seq<Change>)
    ensures |r| <= |changes|
    ensures forall k :: 0 <= k < |r| ==> r[k].changeType == t
  {
    if changes == [] then []
    else (if changes[0].changeType == t then [changes[0]] else []) + ChangesByType(changes[1..], t)
  }

  /** Filtering by type distributes over concatenation, so it keeps the original order. */
  lemma {:induction false} ChangesByTypeAppend(a: seq<Change>, b: seq<Change>, t: ChangeType)
    ensures ChangesByType(a + b, t) == ChangesByType(a, t) + ChangesByType(b, t)
  {
    if a == [] {
      assert a + b == b;
    } else {
      var head := if a[0].changeType == t then [a[0]] else [];
      ChangesByTypeAppend(a[1..], b, t);
      assert (a + b)[1..] == a[1..] + b;
      calc {
        ChangesByType(a + b, t);
        head + ChangesByType(a[1..] + b, t);
        head + (ChangesByType(a[1..], t) + ChangesByType(b, t));
        (head + ChangesByType(a[1..], t)) + ChangesByType(b, t);
      }
    }
  }

  /** Every change of the type is kept, only changes of the list are kept, and a list of that type alone is kept whole. */
  lemma {:induction false} ChangesByTypeExact(changes: seq<Change>, t: ChangeType)
    ensures forall c :: c in changes && c.changeType == t ==> c in ChangesByType(changes, t)
    ensures forall c :: c in ChangesByType(changes, t) ==> c in changes
    ensures ChangesByType(changes, t) == changes <==> forall k :: 0 <= k < |changes| ==> changes[k].changeType == t
  {
    if changes != [] {
      var rest := changes[1..];
      ChangesByTypeExact(rest, t);
      assert changes == [changes[0]] + rest;
      var r := ChangesByType(changes, t);
      if changes[0].changeType == t {
        assert r == [changes[0]] + ChangesByType(rest, t);
        assert (forall k :: 0 <= k < |changes| ==> changes[k].changeType == t) <==>
               (forall k :: 0 <= k < |rest| ==> rest[k].changeType == t);
      } else {
        assert r == ChangesByType(rest, t);
        assert |r| < |changes|;
      }
    }
  }

  /**
   * `GetLastUserChange`: the index of the last change of type "user", `None`
   * when there is none; the source returns a pointer to that element.
   */
  function LastUserChange(changes: seq<Change>): (r: Option<nat>)
    ensures r.None? <==> forall k :: 0 <= k < |changes| ==> changes[k].changeType != ChangeTypeUser
    ensures r.Some? ==> r.value < |changes| && changes[r.value].changeType == ChangeTypeUser &&
                        forall k :: r.value < k < |changes| ==> changes[k].changeType != ChangeTypeUser
  {
    if changes == [] then None
    else if changes[|changes| - 1].changeType == ChangeTypeUser then Some(|changes| - 1)
    else LastUserChange(changes[..|changes| - 1])
  }

  /**
   * The backward scan and the filter agree: there is a last user change
   * exactly when the user changes are not empty, and it is the last of them.
   */
  lemma {:induction false} LastUserChangeIsLastOfType(changes: seq<Change>)
    ensures LastUserChange(changes).None? <==> ChangesByType(changes, ChangeTypeUser) == []
    ensures LastUserChange(changes).Some? ==>
              var users := ChangesByType(changes, ChangeTypeUser);
              users != [] && users[|users| - 1] == changes[LastUserChange(changes).value]
    decreases |changes|
  {
    if changes != [] {
      var init := changes[..|changes| - 1];
      var last := changes[|changes| - 1];
      assert changes == init + [last];
      ChangesByTypeAppend(init, [last], ChangeTypeUser);
      assert ChangesByType([last], ChangeTypeUser) ==
             (if last.changeType == ChangeTypeUser then [last] else []) + ChangesByType([], ChangeTypeUser);
      if last.changeType != ChangeTypeUser {
        LastUserChangeIsLastOfType(init);
      }
    }
  }

  class VersionHistory {
    var changes: seq<Change>

    /** `NewVersionHistory`: no changes. */
    constructor ()
      ensures changes == []
    {
      changes := [];
    }

    /** `AddChange`, stamped with the given time: one change at the end, the earlier ones untouched. */
    method AddChange(content: string, changeType: ChangeType, author: string, now: int)
      modifies this
      ensures changes == old(changes) + [Change(now, changeType, content, author)]
      ensures LatestContent(changes) == content
      ensures changeType == ChangeTypeUser ==> LastUserChange(changes) == Some(|old(changes)|)
      ensures changeType != ChangeTypeUser ==> LastUserChange(changes) == LastUserChange(old(changes))
    {
      changes := changes + [Change(now, changeType, content, author)];
      assert changes[..|changes| - 1] == old(changes);
    }
  }
}

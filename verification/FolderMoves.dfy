/** `validateFolderMove` (src/lib/folders.ts:168-206) and what accepted moves keep. */
module FolderMoves {
  import opened Options

  /** The parent id stored for each folder of one user. */
  type Parents = map<string, Option<string>>

  datatype Outcome = Accepted | IntoItself | ParentMissing | IntoDescendant

  /** One turn of the cursor; the empty id ends the walk as an absent one does. */
  function Next(parents: Parents, id: string): Option<string> {
    if id in parents && parents[id].Some? && parents[id].value != "" then parents[id] else None
  }

  /** The n-th ancestor. */
  function Up(parents: Parents, id: string, n: nat): Option<string>
    decreases n
  {
    if n == 0 then Some(id) else
    var below := Up(parents, id, n - 1);
    if below.None? then None else Next(parents, below.value)
  }

  ghost predicate Reaches(parents: Parents, id: string, target: string) {
    exists n :: Up(parents, id, n) == Some(target)
  }

  /** No folder is its own ancestor. */
  ghost predicate Acyclic(parents: Parents) {
    forall id, n :: n > 0 ==> Up(parents, id, n) != Some(id)
  }

  lemma {:induction false} UpAdds(parents: Parents, id: string, m: nat, n: nat)
    requires Up(parents, id, m).Some?
    ensures Up(parents, id, m + n) == Up(parents, Up(parents, id, m).value, n)
  {
    if n > 0 {
      UpAdds(parents, id, m, n - 1);
    }
  }

  lemma {:induction false} UpStaysNone(parents: Parents, id: string, m: nat, n: nat)
    requires Up(parents, id, m).None? && m <= n
    ensures Up(parents, id, n).None?
    decreases n
  {
    if m < n {
      UpStaysNone(parents, id, m, n - 1);
    }
  }

  /** Once the walk repeats an id, it only ever repeats: a target not met so far is never met. */
  lemma {:induction false} RepeatingWalkMeetsNothingNew(
    parents: Parents, id: string, i: nat, k: nat, target: string, n: nat)
    requires i < k && Up(parents, id, i).Some? && Up(parents, id, i) == Up(parents, id, k)
    requires forall m :: 0 <= m < k ==> Up(parents, id, m) != Some(target)
    ensures Up(parents, id, n) != Some(target)
    decreases n
  {
    if n >= k {
      UpAdds(parents, id, k, n - k);
      UpAdds(parents, id, i, n - k);
      RepeatingWalkMeetsNothingNew(parents, id, i, k, target, i + (n - k));
    }
  }

  ghost function Verdict(parents: Parents, folderId: string, nextParentId: Option<string>): Outcome {
    if nextParentId.None? || nextParentId.value == "" then Accepted
    else if nextParentId.value == folderId then IntoItself
    else if nextParentId.value !in parents then ParentMissing
    else if Reaches(parents, nextParentId.value, folderId) then IntoDescendant
    else Accepted
  }

  /** The walk halts on every map, cyclic or not, and accepts exactly the moves whose new parent is
    * listed and is neither the folder nor anywhere below it. */
  method ValidateFolderMove(parents: Parents, folderId: string, nextParentId: Option<string>) returns (outcome: Outcome)
    ensures outcome == Verdict(parents, folderId, nextParentId)
  {
    if nextParentId.None? || nextParentId.value == "" {
      return Accepted;
    }
    var next := nextParentId.value;
    if next == folderId {
      return IntoItself;
    }
    if next !in parents {
      return ParentMissing;
    }
    var visited: set<string> := {};
    var cursor := nextParentId;
    ghost var k := 0;
    ghost var universe := parents.Keys + (set id | id in parents && parents[id].Some? :: parents[id].value);
    while cursor.Some?
      invariant cursor == Up(parents, next, k)
      invariant cursor.Some? ==> cursor.value in universe
      invariant visited <= universe
      invariant forall v :: v in visited ==> exists i :: 0 <= i < k && Up(parents, next, i) == Some(v)
      invariant forall m :: 0 <= m < k ==> Up(parents, next, m) != Some(folderId)
      decreases universe - visited
    {
      if cursor.value == folderId {
        return IntoDescendant;
      }
      if cursor.value in visited {
        ghost var i :| 0 <= i < k && Up(parents, next, i) == cursor;
        forall n: nat ensures Up(parents, next, n) != Some(folderId) {
          RepeatingWalkMeetsNothingNew(parents, next, i, k, folderId, n);
        }
        return Accepted;
      }
      visited := visited + {cursor.value};
      cursor := Next(parents, cursor.value);
      k := k + 1;
    }
    forall n: nat ensures Up(parents, next, n) != Some(folderId) {
      if n >= k {
        UpStaysNone(parents, next, k, n);
      }
    }
    return Accepted;
  }

  // --------------------------------------------------- what moves preserve

  ghost predicate DifferOnlyAt(a: Parents, b: Parents, folderId: string) {
    forall id :: id != folderId ==> Next(a, id) == Next(b, id)
  }

  /** Until it meets the moved folder, a climb is the same in both maps. */
  lemma {:induction false} SameClimb(a: Parents, b: Parents, folderId: string, id: string, n: nat)
    requires DifferOnlyAt(a, b, folderId)
    requires forall m :: 0 <= m < n ==> Up(a, id, m) != Some(folderId)
    ensures Up(a, id, n) == Up(b, id, n)
  {
    if n > 0 {
      SameClimb(a, b, folderId, id, n - 1);
    }
  }

  /** The first time a climb meets the target. */
  lemma {:induction false} FirstMeeting(parents: Parents, id: string, target: string, n: nat) returns (first: nat)
    requires Up(parents, id, n) == Some(target)
    ensures first <= n && Up(parents, id, first) == Some(target)
    ensures forall m :: 0 <= m < first ==> Up(parents, id, m) != Some(target)
  {
    if m: nat :| m < n && Up(parents, id, m) == Some(target) {
      first := FirstMeeting(parents, id, target, m);
    } else {
      first := n;
    }
  }

  lemma StillReaches(a: Parents, b: Parents, folderId: string, id: string)
    requires DifferOnlyAt(a, b, folderId) && Reaches(a, id, folderId)
    ensures Reaches(b, id, folderId)
  {
    var n :| Up(a, id, n) == Some(folderId);
    var first := FirstMeeting(a, id, folderId, n);
    SameClimb(a, b, folderId, id, first);
  }

  /** A cycle of the new map that is not one of the old runs through the moved folder. */
  lemma CycleThroughMoved(parents: Parents, moved: Parents, folderId: string, id: string, n: nat)
    requires DifferOnlyAt(moved, parents, folderId) && Acyclic(parents)
    requires n > 0 && Up(moved, id, n) == Some(id)
    ensures Up(moved, folderId, n) == Some(folderId)
  {
    if k: nat :| k < n && Up(moved, id, k) == Some(folderId) {
      UpAdds(moved, id, k, n);
      UpAdds(moved, id, n, k);
    } else {
      SameClimb(moved, parents, folderId, id, n);
    }
  }

  /** On an acyclic map a move under a listed parent is accepted exactly when the result is acyclic. */
  lemma AcceptedIffStillAcyclic(parents: Parents, folderId: string, parentId: string)
    requires Acyclic(parents) && parentId in parents && parentId != ""
    ensures Verdict(parents, folderId, Some(parentId)) == Accepted
        <==> Acyclic(parents[folderId := Some(parentId)])
  {
    var moved := parents[folderId := Some(parentId)];
    assert Up(moved, folderId, 0) == Some(folderId);
    assert Up(moved, folderId, 1) == Some(parentId);
    if Reaches(parents, parentId, folderId) {
      StillReaches(parents, moved, folderId, parentId);
      var n :| Up(moved, parentId, n) == Some(folderId);
      UpAdds(moved, folderId, 1, n);
    } else if parentId != folderId {
      forall id, n: nat | n > 0 ensures Up(moved, id, n) != Some(id) {
        if Up(moved, id, n) == Some(id) {
          CycleThroughMoved(parents, moved, folderId, id, n);
          UpAdds(moved, folderId, 1, n - 1);
          StillReaches(moved, parents, folderId, parentId);
        }
      }
    }
  }

  lemma ToTheTopStaysAcyclic(parents: Parents, folderId: string, to: Option<string>)
    requires Acyclic(parents) && (to.None? || to.value == "")
    ensures Acyclic(parents[folderId := to])
  {
    var moved := parents[folderId := to];
    forall id, n: nat | n > 0 ensures Up(moved, id, n) != Some(id) {
      if Up(moved, id, n) == Some(id) {
        CycleThroughMoved(parents, moved, folderId, id, n);
        assert Up(moved, folderId, 0) == Some(folderId);
        assert Up(moved, folderId, 1).None?;
        UpStaysNone(moved, folderId, 1, n);
      }
    }
  }

  /** On an acyclic map a move is accepted if and only if it names no parent, or a listed one under which the
    * map stays acyclic. */
  lemma AcceptedExactly(parents: Parents, folderId: string, to: Option<string>)
    requires Acyclic(parents)
    ensures Verdict(parents, folderId, to) == Accepted
       <==> to.None? || to.value == "" || (to.value in parents && Acyclic(parents[folderId := to]))
  {
    if to.Some? && to.value != "" && to.value in parents {
      AcceptedIffStillAcyclic(parents, folderId, to.value);
    } else if to.Some? && to.value != "" {
      assert Verdict(parents, folderId, to) != Accepted;
    }
  }

  datatype Move = Move(folderId: string, to: Option<string>)

  /** Moves made one after the other, each validated against the map it finds. */
  ghost function AfterMoves(parents: Parents, moves: seq<Move>): Parents
    decreases |moves|
  {
    if moves == [] then parents else
    var m := moves[0];
    AfterMoves(if Verdict(parents, m.folderId, m.to) == Accepted then parents[m.folderId := m.to] else parents,
               moves[1..])
  }

  lemma {:induction false} MovesStayAcyclic(parents: Parents, moves: seq<Move>)
    requires Acyclic(parents)
    ensures Acyclic(AfterMoves(parents, moves))
    decreases |moves|
  {
    if moves != [] {
      var m := moves[0];
      if m.to.None? || m.to.value == "" {
        ToTheTopStaysAcyclic(parents, m.folderId, m.to);
      } else if m.to.value in parents {
        AcceptedIffStillAcyclic(parents, m.folderId, m.to.value);
      }
      MovesStayAcyclic(
        if Verdict(parents, m.folderId, m.to) == Accepted then parents[m.folderId := m.to] else parents, moves[1..]);
    }
  }

  lemma Compose(parents: Parents, a: string, b: string, c: string)
    requires Reaches(parents, a, b) && Reaches(parents, b, c)
    ensures Reaches(parents, a, c)
  {
    var m :| Up(parents, a, m) == Some(b);
    var n :| Up(parents, b, n) == Some(c);
    UpAdds(parents, a, m, n);
  }

  /** A climb that never meets the moved folder is the same after the move. */
  lemma ReachesAside(a: Parents, b: Parents, folderId: string, id: string, target: string)
    requires DifferOnlyAt(a, b, folderId) && Reaches(a, id, target) && !Reaches(a, id, folderId)
    ensures Reaches(b, id, target)
  {
    var n :| Up(a, id, n) == Some(target);
    SameClimb(a, b, folderId, id, n);
  }

  /** A climb gets to a target that it did not get to before only through the moved folder, and so from
    * its new parent on. */
  lemma NewlyReached(parents: Parents, moved: Parents, folderId: string, id: string, target: string)
    requires DifferOnlyAt(moved, parents, folderId) && target != folderId
    requires Reaches(moved, id, target) && !Reaches(parents, id, target)
    ensures Reaches(parents, id, folderId)
    ensures Next(moved, folderId).Some? && Reaches(moved, Next(moved, folderId).value, target)
  {
    var n: nat :| Up(moved, id, n) == Some(target);
    if !exists k: nat :: k < n && Up(moved, id, k) == Some(folderId) {
      SameClimb(moved, parents, folderId, id, n);
    }
    var k: nat :| k < n && Up(moved, id, k) == Some(folderId);
    StillReaches(moved, parents, folderId, id);
    UpAdds(moved, id, k, n - k);
    assert Up(moved, folderId, 0) == Some(folderId);
    assert Up(moved, folderId, 1) == Next(moved, folderId);
    if Next(moved, folderId).None? {
      UpStaysNone(moved, folderId, 1, n - k);
    }
    UpAdds(moved, folderId, 1, n - k - 1);
  }

  /** After the first of two moves the second folder is above its new parent exactly when the moves
    * cross: each new parent lies below the other folder. */
  lemma SecondMoveBlocked(parents: Parents, f: string, g: string, x: string, y: string)
    requires Acyclic(parents) && f != g && x in parents && x != ""
    requires Verdict(parents, f, Some(x)) == Accepted && !Reaches(parents, y, g)
    ensures Reaches(parents[f := Some(x)], y, g) <==> Reaches(parents, x, g) && Reaches(parents, y, f)
  {
    var moved := parents[f := Some(x)];
    if Reaches(parents, x, g) && Reaches(parents, y, f) {
      StillReaches(parents, moved, f, y);
      ReachesAside(parents, moved, f, x, g);
      assert Up(moved, f, 0) == Some(f);
      assert Up(moved, f, 1) == Some(x);
      Compose(moved, y, f, x);
      Compose(moved, y, x, g);
    }
    if Reaches(moved, y, g) {
      NewlyReached(parents, moved, f, y, g);
      if Reaches(moved, x, f) {
        StillReaches(moved, parents, f, x);
      }
      ReachesAside(moved, parents, f, x, g);
    }
  }

  predicate NamesParent(m: Move) {
    m.to.Some? && m.to.value != ""
  }

  /** Each of the two moves puts its folder somewhere below the other one's. */
  ghost predicate Crossing(parents: Parents, m: Move, n: Move) {
    && m.folderId != n.folderId && NamesParent(m) && NamesParent(n)
    && Reaches(parents, m.to.value, n.folderId) && Reaches(parents, n.to.value, m.folderId)
  }

  /** Validation and write are two statements. Two moves that are each accepted against the same acyclic
    * map, then written one after the other, close a cycle if and only if they cross. */
  lemma ConcurrentMovesExactly(parents: Parents, m: Move, n: Move)
    requires Acyclic(parents)
    requires Verdict(parents, m.folderId, m.to) == Accepted && Verdict(parents, n.folderId, n.to) == Accepted
    ensures Acyclic(parents[m.folderId := m.to][n.folderId := n.to]) <==> !Crossing(parents, m, n)
  {
    var first := parents[m.folderId := m.to];
    if m.folderId == n.folderId {
      assert first[n.folderId := n.to] == parents[n.folderId := n.to];
      WrittenAlone(parents, n);
    } else {
      WrittenAlone(parents, m);
      if !NamesParent(n) {
        ToTheTopStaysAcyclic(first, n.folderId, n.to);
      } else {
        AcceptedIffStillAcyclic(first, n.folderId, n.to.value);
        if NamesParent(m) {
          SecondMoveBlocked(parents, m.folderId, n.folderId, m.to.value, n.to.value);
        } else if Reaches(first, n.to.value, n.folderId) {
          NewlyReached(parents, first, m.folderId, n.to.value, n.folderId);
        }
      }
    }
  }

  lemma WrittenAlone(parents: Parents, m: Move)
    requires Acyclic(parents) && Verdict(parents, m.folderId, m.to) == Accepted
    ensures Acyclic(parents[m.folderId := m.to])
  {
    if NamesParent(m) {
      AcceptedIffStillAcyclic(parents, m.folderId, m.to.value);
    } else {
      ToTheTopStaysAcyclic(parents, m.folderId, m.to);
    }
  }

  /** The smallest such pair: two top-level folders, each moved under the other. */
  lemma ConcurrentMovesCanCloseACycle()
    ensures var before: Parents := map["a" := None, "b" := None];
      && Acyclic(before)
      && Verdict(before, "a", Some("b")) == Accepted
      && Verdict(before, "b", Some("a")) == Accepted
      && !Acyclic(before["a" := Some("b")]["b" := Some("a")])
  {
    var before: Parents := map["a" := None, "b" := None];
    var after := before["a" := Some("b")]["b" := Some("a")];
    forall id: string, n: nat | n > 0 ensures Up(before, id, n).None? {
      assert Up(before, id, 0) == Some(id);
      assert Up(before, id, 1).None?;
      UpStaysNone(before, id, 1, n);
    }
    forall n ensures Up(before, "a", n) != Some("b") && Up(before, "b", n) != Some("a") {
      if n == 0 {
        assert Up(before, "a", 0) == Some("a") && Up(before, "b", 0) == Some("b");
      }
    }
    assert Up(after, "a", 0) == Some("a");
    assert Up(after, "a", 1) == Some("b");
    assert Up(after, "a", 2) == Some("a");
  }
}

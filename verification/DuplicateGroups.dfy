/** The read side of the duplicate guard, `admin.service.ts`: expenses that already duplicate
    one another, grouped in one pass over the rows in ascending id order.

    The duplicate key itself is a parameter: a detection names some earlier row or none. */
module DuplicateGroups {
  import opened Wrappers

  datatype MatchKind = InvoiceNumber | AmountAndDate

  datatype Row = Row(id: int, supplierId: int)

  datatype Detection = Detection(existingExpenseId: int, matchedOn: MatchKind)

  datatype Group = Group(supplierId: int, matchedOn: MatchKind, expenseIds: seq<int>, expenses: seq<Row>)

  type Detector = (Row, seq<Row>) -> Option<Detection>

  ghost predicate AscendingIds(rows: seq<Row>) {
    forall i, j :: 0 <= i < j < |rows| ==> rows[i].id < rows[j].id
  }

  /** Every detection names one of the rows already placed. */
  ghost predicate NamesEarlierRows(detect: Detector, rows: seq<Row>) {
    forall n :: 0 <= n < |rows| ==>
      var d := detect(rows[n], rows[..n]);
      d.Some? ==> exists k :: 0 <= k < n && rows[k].id == d.value.existingExpenseId
  }

  ghost predicate Inputs(detect: Detector, rows: seq<Row>) {
    AscendingIds(rows) && NamesEarlierRows(detect, rows)
  }

  // ---------- the forest of detections ----------

  /** The row a row was detected to duplicate. */
  ghost function Parent(detect: Detector, rows: seq<Row>, n: nat): (p: Option<nat>)
    requires Inputs(detect, rows) && n < |rows|
    ensures p.Some? ==> p.value < n
    ensures p.Some? <==> detect(rows[n], rows[..n]).Some?
    ensures p.Some? ==> rows[p.value].id == detect(rows[n], rows[..n]).value.existingExpenseId
  {
    var d := detect(rows[n], rows[..n]);
    if d.None? then None
    else
      var k: nat :| k < n && rows[k].id == d.value.existingExpenseId;
      Some(k)
  }

  /** The original expense a row goes back to. */
  ghost function Root(detect: Detector, rows: seq<Row>, n: nat): (r: nat)
    requires Inputs(detect, rows) && n < |rows|
    ensures r <= n
    ensures Parent(detect, rows, r).None?
  {
    var p := Parent(detect, rows, n);
    if p.None? then n else Root(detect, rows, p.value)
  }

  /** Two rows are linked when a detection on one of them named the other. */
  ghost predicate Linked(detect: Detector, rows: seq<Row>, i: nat, j: nat)
    requires Inputs(detect, rows)
  {
    && i < |rows| && j < |rows|
    && (Parent(detect, rows, i) == Some(j) || Parent(detect, rows, j) == Some(i))
  }

  ghost predicate IsPath(detect: Detector, rows: seq<Row>, path: seq<nat>)
    requires Inputs(detect, rows)
  {
    && path != [] && path[0] < |rows|
    && forall k :: 0 <= k < |path| - 1 ==> Linked(detect, rows, path[k], path[k + 1])
  }

  /** Some chain of detections, followed in either direction, leads from one row to the other. */
  ghost predicate Connected(detect: Detector, rows: seq<Row>, i: nat, j: nat)
    requires Inputs(detect, rows)
  {
    exists path :: IsPath(detect, rows, path) && path[0] == i && path[|path| - 1] == j
  }

  lemma {:induction false} PathKeepsRoot(detect: Detector, rows: seq<Row>, path: seq<nat>)
    requires Inputs(detect, rows) && IsPath(detect, rows, path)
    ensures path[|path| - 1] < |rows|
    ensures Root(detect, rows, path[|path| - 1]) == Root(detect, rows, path[0])
  {
    if |path| > 1 {
      assert Linked(detect, rows, path[0], path[1]);
      var rest := path[1..];
      forall k | 0 <= k < |rest| - 1
        ensures Linked(detect, rows, rest[k], rest[k + 1])
      {
        assert Linked(detect, rows, path[k + 1], path[k + 1 + 1]);
      }
      PathKeepsRoot(detect, rows, rest);
    }
  }

  lemma {:induction false} PathToRoot(detect: Detector, rows: seq<Row>, i: nat) returns (path: seq<nat>)
    requires Inputs(detect, rows) && i < |rows|
    ensures IsPath(detect, rows, path) && path[0] == i && path[|path| - 1] == Root(detect, rows, i)
  {
    var p := Parent(detect, rows, i);
    if p.None? {
      path := [i];
    } else {
      var rest := PathToRoot(detect, rows, p.value);
      path := [i] + rest;
      forall k | 0 <= k < |path| - 1
        ensures Linked(detect, rows, path[k], path[k + 1])
      {
        if k > 0 { assert path[k] == rest[k - 1] && path[k + 1] == rest[k - 1 + 1]; }
      }
    }
  }

  function Reverse(s: seq<nat>): (r: seq<nat>)
    ensures |r| == |s| && forall k :: 0 <= k < |r| ==> r[k] == s[|s| - 1 - k]
  {
    seq(|s|, k requires 0 <= k < |s| => s[|s| - 1 - k])
  }

  lemma PathDown(detect: Detector, rows: seq<Row>, i: nat) returns (path: seq<nat>)
    requires Inputs(detect, rows) && i < |rows|
    ensures IsPath(detect, rows, path) && path[0] == Root(detect, rows, i) && path[|path| - 1] == i
  {
    var up := PathToRoot(detect, rows, i);
    path := Reverse(up);
    forall k | 0 <= k < |path| - 1
      ensures Linked(detect, rows, path[k], path[k + 1])
    {
      var m := |up| - 2 - k;
      assert Linked(detect, rows, up[m], up[m + 1]);
    }
  }

  /** The components of the detections are the sets of rows with one original. */
  lemma ConnectedIffSameRoot(detect: Detector, rows: seq<Row>, i: nat, j: nat)
    requires Inputs(detect, rows) && i < |rows| && j < |rows|
    ensures Connected(detect, rows, i, j) <==> Root(detect, rows, i) == Root(detect, rows, j)
  {
    if Connected(detect, rows, i, j) {
      var path :| IsPath(detect, rows, path) && path[0] == i && path[|path| - 1] == j;
      PathKeepsRoot(detect, rows, path);
    }
    if Root(detect, rows, i) == Root(detect, rows, j) {
      var up := PathToRoot(detect, rows, i);
      var down := PathDown(detect, rows, j);
      var path := up + down[1..];
      forall k | 0 <= k < |path| - 1
        ensures Linked(detect, rows, path[k], path[k + 1])
      {
        if k < |up| - 1 {
          assert path[k] == up[k] && path[k + 1] == up[k + 1];
        } else {
          var m := k - (|up| - 1);
          assert path[k] == down[m] && path[k + 1] == down[m + 1];
        }
      }
      assert IsPath(detect, rows, path) && path[0] == i && path[|path| - 1] == j;
    }
  }

  // ---------- what the report promises ----------

  ghost predicate IsIncreasing(s: seq<nat>) {
    forall i, j :: 0 <= i < j < |s| ==> s[i] < s[j]
  }

  /** A group holds exactly the rows at these positions, in order. */
  ghost predicate Holds(rows: seq<Row>, g: Group, members: seq<nat>) {
    && |g.expenses| == |g.expenseIds| == |members|
    && forall k :: 0 <= k < |members| ==>
         members[k] < |rows| && g.expenses[k] == rows[members[k]] && g.expenseIds[k] == rows[members[k]].id
  }

  /** The positions of one group: its original first, then only rows that go back to it. */
  ghost predicate IsFamily(detect: Detector, rows: seq<Row>, members: seq<nat>, n: nat)
    requires Inputs(detect, rows) && n <= |rows|
  {
    && |members| >= 2
    && IsIncreasing(members)
    && forall k :: 0 <= k < |members| ==> members[k] < n && Root(detect, rows, members[k]) == members[0]
  }

  ghost predicate AreFamilies(detect: Detector, rows: seq<Row>, n: nat, groups: seq<Group>, members: seq<seq<nat>>)
    requires Inputs(detect, rows) && n <= |rows|
  {
    && |members| == |groups|
    && forall g :: 0 <= g < |groups| ==> Holds(rows, groups[g], members[g]) && IsFamily(detect, rows, members[g], n)
  }

  /** The members of a group are mapped to it. */
  ghost predicate MembersMapped(rows: seq<Row>, members: seq<nat>, groupOf: map<int, nat>, g: nat) {
    forall k :: 0 <= k < |members| ==>
      members[k] < |rows| && rows[members[k]].id in groupOf && groupOf[rows[members[k]].id] == g
  }

  /** A mapped row is a member of the group it is mapped to. */
  ghost predicate MappedIsMember(rows: seq<Row>, members: seq<seq<nat>>, groupOf: map<int, nat>, i: nat)
    requires i < |rows|
  {
    rows[i].id in groupOf ==> groupOf[rows[i].id] < |members| && i in members[groupOf[rows[i].id]]
  }

  /** A row that was detected is mapped, and so is the row it duplicates. */
  ghost predicate DetectionMapped(detect: Detector, rows: seq<Row>, groupOf: map<int, nat>, i: nat)
    requires Inputs(detect, rows) && i < |rows|
  {
    var p := Parent(detect, rows, i);
    p.Some? ==> rows[i].id in groupOf && rows[p.value].id in groupOf
  }

  ghost predicate Mapped(detect: Detector, rows: seq<Row>, n: nat, members: seq<seq<nat>>, groupOf: map<int, nat>)
    requires Inputs(detect, rows) && n <= |rows|
  {
    && (forall g :: 0 <= g < |members| ==> MembersMapped(rows, members[g], groupOf, g))
    && (forall i :: 0 <= i < n ==> MappedIsMember(rows, members, groupOf, i))
    && (forall i :: 0 <= i < n ==> DetectionMapped(detect, rows, groupOf, i))
  }

  /** A group carries the supplier and the match of the detection that founded it, of its second
      row on its first. */
  ghost predicate IsKeyed(detect: Detector, rows: seq<Row>, g: Group, members: seq<nat>) {
    && |members| >= 2 && members[0] < |rows| && members[1] < |rows|
    && g.supplierId == rows[members[1]].supplierId
    && detect(rows[members[1]], rows[..members[1]]) == Some(Detection(rows[members[0]].id, g.matchedOn))
  }

  ghost predicate AreKeyed(detect: Detector, rows: seq<Row>, groups: seq<Group>, members: seq<seq<nat>>) {
    |members| == |groups| && forall g :: 0 <= g < |groups| ==> IsKeyed(detect, rows, groups[g], members[g])
  }

  /** After `n` rows: every group is a family with its key, and every row that takes part in a
      detection is in the group of its original. */
  ghost predicate Grouped(detect: Detector, rows: seq<Row>, n: nat, groups: seq<Group>,
                          members: seq<seq<nat>>, groupOf: map<int, nat>)
    requires Inputs(detect, rows) && n <= |rows|
  {
    && AreFamilies(detect, rows, n, groups, members) && AreKeyed(detect, rows, groups, members)
    && Mapped(detect, rows, n, members, groupOf)
  }

  /** One turn of the loop: the row joins the group of the row it duplicates, or founds a group
      with it, or stays alone. */
  method PlaceRow(detect: Detector, rows: seq<Row>, n: nat, groups: seq<Group>,
                  ghost members: seq<seq<nat>>, groupOf: map<int, nat>)
    returns (groups': seq<Group>, ghost members': seq<seq<nat>>, groupOf': map<int, nat>)
    requires Inputs(detect, rows) && n < |rows|
    requires Grouped(detect, rows, n, groups, members, groupOf)
    requires forall i :: n <= i < |rows| ==> rows[i].id !in groupOf
    ensures Grouped(detect, rows, n + 1, groups', members', groupOf')
    ensures forall i :: n < i < |rows| ==> rows[i].id !in groupOf'
  {
    groups', members', groupOf' := groups, members, groupOf;
    var row := rows[n];
    var detection := detect(row, rows[..n]);
    if detection.Some? {
      ghost var p := Parent(detect, rows, n).value;
      var existing := detection.value.existingExpenseId;
      if existing in groupOf {
        var index := groupOf[existing];
        assert MappedIsMember(rows, members, groupOf, p);
        var g := groups[index];
        groups' := groups[index := g.(expenseIds := g.expenseIds + [row.id], expenses := g.expenses + [row])];
        members' := members[index := members[index] + [n]];
        groupOf' := groupOf[row.id := index];
        RowJoins(detect, rows, n, groups, members, groupOf, groups', members', groupOf');
      } else {
        var anchor := FindById(rows[..n], existing);
        var anchorRow := rows[anchor];
        var created := Group(row.supplierId, detection.value.matchedOn, [anchorRow.id, row.id], [anchorRow, row]);
        groups' := groups + [created];
        members' := members + [[anchor, n]];
        groupOf' := groupOf[anchorRow.id := |groups|][row.id := |groups|];
        RowFounds(detect, rows, n, anchor, groups, members, groupOf, created, groupOf');
      }
    } else {
      RowAlone(detect, rows, n, groups, members, groupOf);
    }
  }

  lemma FamilyGrows(detect: Detector, rows: seq<Row>, n: nat, g: Group, members: seq<nat>, g': Group)
    requires Inputs(detect, rows) && n < |rows|
    requires Holds(rows, g, members) && IsFamily(detect, rows, members, n)
    requires Parent(detect, rows, n).Some? && Parent(detect, rows, n).value in members
    requires g'.expenseIds == g.expenseIds + [rows[n].id] && g'.expenses == g.expenses + [rows[n]]
    ensures Holds(rows, g', members + [n]) && IsFamily(detect, rows, members + [n], n + 1)
  {
    var p := Parent(detect, rows, n).value;
    var k: nat :| k < |members| && members[k] == p;
    assert Root(detect, rows, n) == Root(detect, rows, p) == members[0];
  }

  lemma KeysStay(detect: Detector, rows: seq<Row>, groups: seq<Group>, members: seq<seq<nat>>, index: nat, n: nat, g': Group)
    requires AreKeyed(detect, rows, groups, members) && index < |groups|
    requires g'.supplierId == groups[index].supplierId && g'.matchedOn == groups[index].matchedOn
    ensures AreKeyed(detect, rows, groups[index := g'], members[index := members[index] + [n]])
  {
    assert IsKeyed(detect, rows, groups[index], members[index]);
  }

  lemma RowJoins(detect: Detector, rows: seq<Row>, n: nat,
                 groups: seq<Group>, members: seq<seq<nat>>, groupOf: map<int, nat>,
                 groups': seq<Group>, members': seq<seq<nat>>, groupOf': map<int, nat>)
    requires Inputs(detect, rows) && n < |rows| && Grouped(detect, rows, n, groups, members, groupOf)
    requires rows[n].id !in groupOf
    requires Parent(detect, rows, n).Some? && rows[Parent(detect, rows, n).value].id in groupOf
    requires var index := groupOf[rows[Parent(detect, rows, n).value].id];
             && index < |groups|
             && members' == members[index := members[index] + [n]]
             && groupOf' == groupOf[rows[n].id := index]
             && groups' == groups[index := groups[index].(expenseIds := groups[index].expenseIds + [rows[n].id],
                                                          expenses := groups[index].expenses + [rows[n]])]
    ensures Grouped(detect, rows, n + 1, groups', members', groupOf')
  {
    var p := Parent(detect, rows, n).value;
    var index := groupOf[rows[p].id];
    assert MappedIsMember(rows, members, groupOf, p);
    JoinedFamilies(detect, rows, n, groups, members, index, groups'[index]);
    KeysStay(detect, rows, groups, members, index, n, groups'[index]);
    JoinedMap(detect, rows, n, members, groupOf, index);
  }

  lemma JoinedFamilies(detect: Detector, rows: seq<Row>, n: nat, groups: seq<Group>, members: seq<seq<nat>>, index: nat, g': Group)
    requires Inputs(detect, rows) && n < |rows| && AreFamilies(detect, rows, n, groups, members) && index < |groups|
    requires Parent(detect, rows, n).Some? && Parent(detect, rows, n).value in members[index]
    requires g'.expenseIds == groups[index].expenseIds + [rows[n].id] && g'.expenses == groups[index].expenses + [rows[n]]
    ensures AreFamilies(detect, rows, n + 1, groups[index := g'], members[index := members[index] + [n]])
  {
    var groups', members' := groups[index := g'], members[index := members[index] + [n]];
    forall g | 0 <= g < |groups'|
      ensures Holds(rows, groups'[g], members'[g]) && IsFamily(detect, rows, members'[g], n + 1)
    {
      assert Holds(rows, groups[g], members[g]) && IsFamily(detect, rows, members[g], n);
      if g == index { FamilyGrows(detect, rows, n, groups[g], members[g], g'); }
    }
  }

  lemma JoinedMap(detect: Detector, rows: seq<Row>, n: nat, members: seq<seq<nat>>, groupOf: map<int, nat>, index: nat)
    requires Inputs(detect, rows) && n < |rows| && Mapped(detect, rows, n, members, groupOf) && index < |members|
    requires rows[n].id !in groupOf && Parent(detect, rows, n).Some? && rows[Parent(detect, rows, n).value].id in groupOf
    ensures Mapped(detect, rows, n + 1, members[index := members[index] + [n]], groupOf[rows[n].id := index])
  {
    var members', groupOf' := members[index := members[index] + [n]], groupOf[rows[n].id := index];
    forall g | 0 <= g < |members'|
      ensures MembersMapped(rows, members'[g], groupOf', g)
    {
      assert MembersMapped(rows, members[g], groupOf, g);
    }
    forall i | 0 <= i < n + 1
      ensures MappedIsMember(rows, members', groupOf', i) && DetectionMapped(detect, rows, groupOf', i)
    {
      if i < n { assert MappedIsMember(rows, members, groupOf, i) && DetectionMapped(detect, rows, groupOf, i); }
    }
  }

  lemma RowFounds(detect: Detector, rows: seq<Row>, n: nat, p: nat,
                  groups: seq<Group>, members: seq<seq<nat>>, groupOf: map<int, nat>,
                  g': Group, groupOf': map<int, nat>)
    requires Inputs(detect, rows) && n < |rows| && Grouped(detect, rows, n, groups, members, groupOf)
    requires rows[n].id !in groupOf
    requires Parent(detect, rows, n).Some? && p < n && rows[p].id == rows[Parent(detect, rows, n).value].id
    requires rows[p].id !in groupOf
    requires g'.expenseIds == [rows[p].id, rows[n].id] && g'.expenses == [rows[p], rows[n]]
    requires g'.supplierId == rows[n].supplierId && detect(rows[n], rows[..n]) == Some(Detection(rows[p].id, g'.matchedOn))
    requires groupOf' == groupOf[rows[p].id := |groups|][rows[n].id := |groups|]
    ensures Grouped(detect, rows, n + 1, groups + [g'], members + [[p, n]], groupOf')
  {
    assert p == Parent(detect, rows, n).value;
    assert DetectionMapped(detect, rows, groupOf, p);
    assert Root(detect, rows, n) == p;
    FoundedFamily(detect, rows, n, p, groups, members, g');
    assert IsKeyed(detect, rows, g', [p, n]);
    FoundedMap(detect, rows, n, p, members, groupOf, groupOf');
  }

  lemma FoundedFamily(detect: Detector, rows: seq<Row>, n: nat, p: nat,
                      groups: seq<Group>, members: seq<seq<nat>>, g': Group)
    requires Inputs(detect, rows) && n < |rows| && AreFamilies(detect, rows, n, groups, members)
    requires p < n && Root(detect, rows, n) == p == Root(detect, rows, p)
    requires g'.expenseIds == [rows[p].id, rows[n].id] && g'.expenses == [rows[p], rows[n]]
    ensures AreFamilies(detect, rows, n + 1, groups + [g'], members + [[p, n]])
  {
    assert Holds(rows, g', [p, n]) && IsFamily(detect, rows, [p, n], n + 1);
    var groups', members' := groups + [g'], members + [[p, n]];
    forall g | 0 <= g < |groups'|
      ensures Holds(rows, groups'[g], members'[g]) && IsFamily(detect, rows, members'[g], n + 1)
    {
      if g < |groups| {
        assert Holds(rows, groups[g], members[g]) && IsFamily(detect, rows, members[g], n);
      }
    }
  }

  lemma FoundedMap(detect: Detector, rows: seq<Row>, n: nat, p: nat,
                   members: seq<seq<nat>>, groupOf: map<int, nat>, groupOf': map<int, nat>)
    requires Inputs(detect, rows) && n < |rows| && Mapped(detect, rows, n, members, groupOf)
    requires Parent(detect, rows, n) == Some(p) && rows[n].id !in groupOf && rows[p].id !in groupOf
    requires groupOf' == groupOf[rows[p].id := |members|][rows[n].id := |members|]
    ensures Mapped(detect, rows, n + 1, members + [[p, n]], groupOf')
  {
    var members' := members + [[p, n]];
    forall g | 0 <= g < |members'|
      ensures MembersMapped(rows, members'[g], groupOf', g)
    {
      if g < |members| { assert MembersMapped(rows, members[g], groupOf, g); }
    }
    forall i | 0 <= i < n + 1
      ensures MappedIsMember(rows, members', groupOf', i)
    {
      if i == n || i == p {
        assert members'[|members|] == [p, n];
      } else {
        FoundedElsewhere(rows, n, p, members, groupOf, groupOf', i);
      }
    }
    forall i | 0 <= i < n + 1
      ensures DetectionMapped(detect, rows, groupOf', i)
    {
      if i < n { assert DetectionMapped(detect, rows, groupOf, i); }
    }
  }

  lemma FoundedElsewhere(rows: seq<Row>, n: nat, p: nat, members: seq<seq<nat>>, groupOf: map<int, nat>, groupOf': map<int, nat>, i: nat)
    requires AscendingIds(rows) && p < n < |rows| && i < |rows| && i != p && i != n && MappedIsMember(rows, members, groupOf, i)
    requires groupOf' == groupOf[rows[p].id := |members|][rows[n].id := |members|]
    ensures MappedIsMember(rows, members + [[p, n]], groupOf', i)
  {
    assert rows[i].id != rows[p].id && rows[i].id != rows[n].id;
  }

  lemma RowAlone(detect: Detector, rows: seq<Row>, n: nat,
                 groups: seq<Group>, members: seq<seq<nat>>, groupOf: map<int, nat>)
    requires Inputs(detect, rows) && n < |rows| && Grouped(detect, rows, n, groups, members, groupOf)
    requires rows[n].id !in groupOf && Parent(detect, rows, n).None?
    ensures Grouped(detect, rows, n + 1, groups, members, groupOf)
  {
    forall g | 0 <= g < |groups|
      ensures Holds(rows, groups[g], members[g]) && IsFamily(detect, rows, members[g], n + 1)
    {
      assert Holds(rows, groups[g], members[g]) && IsFamily(detect, rows, members[g], n);
    }
  }

  method FindById(placed: seq<Row>, id: int) returns (k: nat)
    requires exists i :: 0 <= i < |placed| && placed[i].id == id
    ensures k < |placed| && placed[k].id == id
  {
    k := 0;
    while placed[k].id != id
      invariant k < |placed|
      invariant exists i :: k <= i < |placed| && placed[i].id == id
      decreases |placed| - k
    {
      k := k + 1;
    }
  }

  /** Some group lists both expenses. */
  ghost predicate ShareGroup(groups: seq<Group>, a: int, b: int) {
    exists g :: 0 <= g < |groups| && a in groups[g].expenseIds && b in groups[g].expenseIds
  }

  /** What the groups mean: they are the connected components of the detections. */
  ghost predicate AreComponents(detect: Detector, rows: seq<Row>, groups: seq<Group>)
    requires Inputs(detect, rows)
  {
    forall i, j :: 0 <= i < j < |rows| ==>
      (ShareGroup(groups, rows[i].id, rows[j].id) <==> Connected(detect, rows, i, j))
  }

  /** A group lists expenses of the table in ascending order, the first being their original. */
  ghost predicate StartsWithOriginal(detect: Detector, rows: seq<Row>, g: Group)
    requires Inputs(detect, rows)
  {
    && |g.expenseIds| == |g.expenses| >= 2
    && (forall k :: 0 <= k < |g.expenses| ==> g.expenses[k] in rows && g.expenseIds[k] == g.expenses[k].id)
    && (forall k, m :: 0 <= k < m < |g.expenseIds| ==> g.expenseIds[k] < g.expenseIds[m])
    && (forall i :: 0 <= i < |rows| && rows[i].id in g.expenseIds ==>
          g.expenses[0] == rows[Root(detect, rows, i)])
  }

  /** The group names the supplier and the match by which its second expense was found to
      duplicate its first. */
  ghost predicate NamesItsKey(detect: Detector, rows: seq<Row>, g: Group) {
    && |g.expenseIds| == |g.expenses| >= 2
    && exists n :: 0 <= n < |rows| && g.expenses[1] == rows[n] && g.supplierId == rows[n].supplierId
         && detect(rows[n], rows[..n]) == Some(Detection(g.expenseIds[0], g.matchedOn))
  }

  ghost predicate AreDisjoint(groups: seq<Group>) {
    forall g, h, id :: 0 <= g < h < |groups| ==> !(id in groups[g].expenseIds && id in groups[h].expenseIds)
  }

  method GetDuplicateCandidates(detect: Detector, rows: seq<Row>) returns (groups: seq<Group>)
    requires Inputs(detect, rows)
    ensures AreComponents(detect, rows, groups)
    ensures forall g :: 0 <= g < |groups| ==> StartsWithOriginal(detect, rows, groups[g]) && NamesItsKey(detect, rows, groups[g])
    ensures AreDisjoint(groups)
  {
    groups := [];
    ghost var members := [];
    var groupOfExpense: map<int, nat> := map[];
    for n := 0 to |rows|
      invariant Grouped(detect, rows, n, groups, members, groupOfExpense)
      invariant forall i :: n <= i < |rows| ==> rows[i].id !in groupOfExpense
    {
      groups, members, groupOfExpense := PlaceRow(detect, rows, n, groups, members, groupOfExpense);
    }
    GroupsAreComponents(detect, rows, groups, members, groupOfExpense);
    GroupsAreFamilies(detect, rows, groups, members, groupOfExpense);
  }

  lemma ListedIffMember(detect: Detector, rows: seq<Row>, groups: seq<Group>, members: seq<seq<nat>>,
                        groupOf: map<int, nat>, g: nat, i: nat)
    requires Inputs(detect, rows) && Grouped(detect, rows, |rows|, groups, members, groupOf)
    requires g < |groups| && i < |rows|
    ensures rows[i].id in groups[g].expenseIds <==> i in members[g]
    ensures i in members[g] ==> rows[i].id in groupOf && groupOf[rows[i].id] == g && Root(detect, rows, i) == members[g][0]
  {
    assert Holds(rows, groups[g], members[g]);
    if rows[i].id in groups[g].expenseIds {
      var k: nat :| k < |groups[g].expenseIds| && groups[g].expenseIds[k] == rows[i].id;
      assert members[g][k] == i;
    }
    assert IsFamily(detect, rows, members[g], |rows|) && MembersMapped(rows, members[g], groupOf, g);
    if i in members[g] {
      var k: nat :| k < |members[g]| && members[g][k] == i;
      assert groups[g].expenseIds[k] == rows[i].id;
    }
  }

  lemma GroupsAreComponents(detect: Detector, rows: seq<Row>, groups: seq<Group>,
                            members: seq<seq<nat>>, groupOf: map<int, nat>)
    requires Inputs(detect, rows) && Grouped(detect, rows, |rows|, groups, members, groupOf)
    ensures AreComponents(detect, rows, groups)
  {
    forall i, j | 0 <= i < j < |rows|
      ensures ShareGroup(groups, rows[i].id, rows[j].id) <==> Connected(detect, rows, i, j)
    {
      ConnectedIffSameRoot(detect, rows, i, j);
      if ShareGroup(groups, rows[i].id, rows[j].id) {
        var g :| 0 <= g < |groups| && rows[i].id in groups[g].expenseIds && rows[j].id in groups[g].expenseIds;
        ListedIffMember(detect, rows, groups, members, groupOf, g, i);
        ListedIffMember(detect, rows, groups, members, groupOf, g, j);
      }
      if Root(detect, rows, i) == Root(detect, rows, j) {
        assert DetectionMapped(detect, rows, groupOf, i) && DetectionMapped(detect, rows, groupOf, j);
        assert MappedIsMember(rows, members, groupOf, i) && MappedIsMember(rows, members, groupOf, j);
        var g := groupOf[rows[j].id];
        ListedIffMember(detect, rows, groups, members, groupOf, g, j);
        var r := Root(detect, rows, i);
        assert members[g][0] == r;
        ListedIffMember(detect, rows, groups, members, groupOf, g, r);
        if i != r {
          var h := groupOf[rows[i].id];
          ListedIffMember(detect, rows, groups, members, groupOf, h, i);
          assert members[h][0] == r;
          ListedIffMember(detect, rows, groups, members, groupOf, h, r);
        }
        ListedIffMember(detect, rows, groups, members, groupOf, g, i);
        assert ShareGroup(groups, rows[i].id, rows[j].id);
      }
    }
  }

  lemma GroupsAreFamilies(detect: Detector, rows: seq<Row>, groups: seq<Group>,
                          members: seq<seq<nat>>, groupOf: map<int, nat>)
    requires Inputs(detect, rows) && Grouped(detect, rows, |rows|, groups, members, groupOf)
    ensures forall g :: 0 <= g < |groups| ==> StartsWithOriginal(detect, rows, groups[g]) && NamesItsKey(detect, rows, groups[g])
    ensures AreDisjoint(groups)
  {
    forall g | 0 <= g < |groups|
      ensures StartsWithOriginal(detect, rows, groups[g]) && NamesItsKey(detect, rows, groups[g])
    {
      GroupStartsWithOriginal(detect, rows, groups, members, groupOf, g);
      GroupNamesItsKey(detect, rows, groups[g], members[g]);
    }
    forall g, h, id | 0 <= g < h < |groups|
      ensures !(id in groups[g].expenseIds && id in groups[h].expenseIds)
    {
      assert Holds(rows, groups[g], members[g]) && Holds(rows, groups[h], members[h]);
      assert MembersMapped(rows, members[g], groupOf, g) && MembersMapped(rows, members[h], groupOf, h);
    }
  }

  lemma GroupStartsWithOriginal(detect: Detector, rows: seq<Row>, groups: seq<Group>,
                                members: seq<seq<nat>>, groupOf: map<int, nat>, g: nat)
    requires Inputs(detect, rows) && Grouped(detect, rows, |rows|, groups, members, groupOf) && g < |groups|
    ensures StartsWithOriginal(detect, rows, groups[g])
  {
    assert Holds(rows, groups[g], members[g]) && IsFamily(detect, rows, members[g], |rows|);
    forall i | 0 <= i < |rows| && rows[i].id in groups[g].expenseIds
      ensures groups[g].expenses[0] == rows[Root(detect, rows, i)]
    {
      ListedIffMember(detect, rows, groups, members, groupOf, g, i);
    }
  }

  lemma GroupNamesItsKey(detect: Detector, rows: seq<Row>, g: Group, members: seq<nat>)
    requires Holds(rows, g, members) && IsKeyed(detect, rows, g, members)
    ensures NamesItsKey(detect, rows, g)
  {
    assert g.expenses[1] == rows[members[1]] && g.expenseIds[0] == rows[members[0]].id;
  }

  // ---------- one supplier ----------

  /** Both duplicate keys name the supplier, so a detection never crosses suppliers. */
  ghost predicate StaysWithSupplier(detect: Detector, rows: seq<Row>)
    requires Inputs(detect, rows)
  {
    forall n :: 0 <= n < |rows| && Parent(detect, rows, n).Some? ==> rows[Parent(detect, rows, n).value].supplierId == rows[n].supplierId
  }

  lemma {:induction false} RootKeepsSupplier(detect: Detector, rows: seq<Row>, n: nat)
    requires Inputs(detect, rows) && StaysWithSupplier(detect, rows) && n < |rows|
    ensures rows[Root(detect, rows, n)].supplierId == rows[n].supplierId
  {
    var p := Parent(detect, rows, n);
    if p.Some? { RootKeepsSupplier(detect, rows, p.value); }
  }

  /** Then the supplier a group names is that of every expense it lists. */
  lemma GroupHasOneSupplier(detect: Detector, rows: seq<Row>, g: Group, k: nat)
    requires Inputs(detect, rows) && StaysWithSupplier(detect, rows)
    requires StartsWithOriginal(detect, rows, g) && NamesItsKey(detect, rows, g) && k < |g.expenses|
    ensures g.expenses[k].supplierId == g.supplierId
  {
    ListedWithRoot(detect, rows, g, k);
    ListedWithRoot(detect, rows, g, 1);
  }

  lemma ListedWithRoot(detect: Detector, rows: seq<Row>, g: Group, k: nat)
    requires Inputs(detect, rows) && StaysWithSupplier(detect, rows) && StartsWithOriginal(detect, rows, g) && k < |g.expenses|
    ensures g.expenses[k].supplierId == g.expenses[0].supplierId
  {
    assert g.expenses[k] in rows;
    var i: nat :| i < |rows| && rows[i] == g.expenses[k];
    assert rows[i].id in g.expenseIds;
    RootKeepsSupplier(detect, rows, i);
  }
}

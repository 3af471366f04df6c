/** The group list page: the in-memory catalog of study groups, the rule that
    allocates a new group's identifier, and the handler that appends a newly
    created group. */
module GroupPage {
  import opened JsString

  datatype Option<T> = None | Some(value: T)

  /** One catalog entry. `id` is the list key and the route segment of the
      group's page, so no two entries may share it. */
  datatype Group = Group(id: string, name: string, subject: string, members: int)

  /** What the create-group form hands to the page; `members` may be absent. */
  datatype GroupData = GroupData(name: string, subject: string, members: Option<int>)

  /** The catalog the page starts with. */
  const InitialGroups: seq<Group> := [
    Group("123", "DSA - 2nd Year CSE", "Data Structures", 18),
    Group("234", "DBMS Night Owls", "DBMS", 10)
  ]

  /** Every identifier in the catalog is a decimal digit string, so `parseInt`
      reads a number from each. */
  predicate NumericIds(groups: seq<Group>) {
    forall i :: 0 <= i < |groups| ==> IsDigitString(groups[i].id)
  }

  /** No two catalog entries share an identifier. */
  predicate DistinctIds(groups: seq<Group>) {
    forall i, j :: 0 <= i < j < |groups| ==> groups[i].id != groups[j].id
  }

  /** `Math.max(...groups.map(g => parseInt(g.id)))` on a non-empty catalog:
      the largest identifier value present. */
  function MaxId(groups: seq<Group>): (m: nat)
    requires |groups| > 0 && NumericIds(groups)
    ensures forall i :: 0 <= i < |groups| ==> ParseInt(groups[i].id) <= m
    decreases |groups|
  {
    var last := ParseInt(groups[|groups| - 1].id);
    if |groups| == 1 then last
    else
      var rest := MaxId(groups[..|groups| - 1]);
      if rest < last then last else rest
  }

  /** The maximum is the value of some entry's identifier. */
  lemma {:induction false} MaxIdAttained(groups: seq<Group>) returns (k: nat)
    requires |groups| > 0 && NumericIds(groups)
    ensures k < |groups| && ParseInt(groups[k].id) == MaxId(groups)
    decreases |groups|
  {
    if |groups| == 1 || MaxId(groups[..|groups| - 1]) < ParseInt(groups[|groups| - 1].id) {
      k := |groups| - 1;
    } else {
      k := MaxIdAttained(groups[..|groups| - 1]);
    }
  }

  /** `generateGroupId`: "123" for an empty catalog, otherwise one more than
      the largest identifier value, zero-padded to at least three digits. */
  function GenerateGroupId(groups: seq<Group>): (id: string)
    requires NumericIds(groups)
    ensures IsDigitString(id) && |id| >= 3
    ensures groups == [] ==> id == "123"
    ensures groups != [] ==> ParseInt(id) == MaxId(groups) + 1
  {
    if |groups| == 0 then
      "123"
    else
      Pad3Properties(MaxId(groups) + 1);
      Pad3(MaxId(groups) + 1)
  }

  /** The allocated identifier is a new key: its value exceeds the value of
      every identifier present, so it equals none of them. */
  lemma GenerateGroupIdIsFresh(groups: seq<Group>, i: nat)
    requires NumericIds(groups) && i < |groups|
    ensures ParseInt(groups[i].id) < ParseInt(GenerateGroupId(groups))
    ensures groups[i].id != GenerateGroupId(groups)
  {
  }

  /** `groupData.members || 1`: an absent or zero count becomes 1, any other
      count is kept. */
  function MembersOrDefault(members: Option<int>): (r: int)
    ensures r != 0
    ensures members.Some? && members.value != 0 ==> r == members.value
    ensures members == None || members == Some(0) ==> r == 1
  {
    match members
    case None => 1
    case Some(n) => if n == 0 then 1 else n
  }

  /** The record `handleCreateGroup` builds for `data` against the current
      catalog. */
  function NewGroup(groups: seq<Group>, data: GroupData): Group
    requires NumericIds(groups)
  {
    Group(GenerateGroupId(groups), data.name, data.subject, MembersOrDefault(data.members))
  }

  /** Appending the new record keeps identifiers numeric and distinct, and the
      record carries the caller's name and subject verbatim. */
  lemma NewGroupKeepsCatalogValid(groups: seq<Group>, data: GroupData)
    requires NumericIds(groups) && DistinctIds(groups)
    ensures NumericIds(groups + [NewGroup(groups, data)])
    ensures DistinctIds(groups + [NewGroup(groups, data)])
  {
    var g := NewGroup(groups, data);
    var after := groups + [g];
    forall i, j | 0 <= i < j < |after| ensures after[i].id != after[j].id {
      if j == |groups| {
        assert after[i] == groups[i];
        GenerateGroupIdIsFresh(groups, i);
      } else {
        assert after[i] == groups[i] && after[j] == groups[j];
      }
    }
  }

  /** The catalog after `handleCreateGroup` has run once for each entry of
      `batch`, in order, starting from `groups`. */
  function CreateAll(groups: seq<Group>, batch: seq<GroupData>): (r: seq<Group>)
    requires NumericIds(groups)
    ensures NumericIds(r)
    decreases |batch|
  {
    if batch == [] then groups
    else
      var prev := CreateAll(groups, batch[..|batch| - 1]);
      AppendKeepsNumeric(prev, NewGroup(prev, batch[|batch| - 1]));
      prev + [NewGroup(prev, batch[|batch| - 1])]
  }

  lemma AppendKeepsNumeric(groups: seq<Group>, g: Group)
    requires NumericIds(groups) && IsDigitString(g.id)
    ensures NumericIds(groups + [g])
  {
    var after := groups + [g];
    forall i | 0 <= i < |after| ensures IsDigitString(after[i].id) {
      if i < |groups| { assert after[i] == groups[i]; }
    }
  }

  /** Running a batch is running its first entry and then the rest. */
  lemma {:induction false} CreateAllSplit(groups: seq<Group>, batch: seq<GroupData>)
    requires NumericIds(groups) && batch != []
    ensures NumericIds(groups + [NewGroup(groups, batch[0])])
    ensures CreateAll(groups, batch) == CreateAll(groups + [NewGroup(groups, batch[0])], batch[1..])
    decreases |batch|, 1
  {
    AppendKeepsNumeric(groups, NewGroup(groups, batch[0]));
    if |batch| == 1 {
      CreateAllLast(groups, batch);
      assert batch[..0] == [] && batch[1..] == [];
    } else {
      CreateAllSplitStep(groups, batch);
    }
  }

  /** The inductive step of `CreateAllSplit`: both sides run the same entries
      before the batch's last one, then append the record for it. */
  lemma {:induction false} CreateAllSplitStep(groups: seq<Group>, batch: seq<GroupData>)
    requires NumericIds(groups) && |batch| >= 2
    requires NumericIds(groups + [NewGroup(groups, batch[0])])
    ensures CreateAll(groups, batch) == CreateAll(groups + [NewGroup(groups, batch[0])], batch[1..])
    decreases |batch|, 0
  {
    var next := groups + [NewGroup(groups, batch[0])];
    var init := batch[..|batch| - 1];
    var rest := batch[1..];
    var before := CreateAll(groups, init);
    assert before == CreateAll(next, rest[..|rest| - 1]) by {
      CreateAllSplit(groups, init);
      assert init[0] == batch[0];
      assert init[1..] == rest[..|rest| - 1];
    }
    assert rest[|rest| - 1] == batch[|batch| - 1];
    CreateAllLast(groups, batch);
    CreateAllLast(next, rest);
  }

  /** Appending one entry raises the maximum to that entry's value when it is
      larger. */
  lemma MaxIdAppend(groups: seq<Group>, g: Group)
    requires |groups| > 0 && NumericIds(groups) && IsDigitString(g.id)
    ensures NumericIds(groups + [g])
    ensures MaxId(groups + [g]) == if MaxId(groups) < ParseInt(g.id) then ParseInt(g.id) else MaxId(groups)
  {
    AppendKeepsNumeric(groups, g);
    assert (groups + [g])[..|groups|] == groups;
  }

  /** Running a non-empty batch is running all but its last entry and then
      appending the record for the last one. */
  lemma CreateAllLast(groups: seq<Group>, batch: seq<GroupData>)
    requires NumericIds(groups) && batch != []
    ensures NumericIds(CreateAll(groups, batch[..|batch| - 1]))
    ensures CreateAll(groups, batch) == CreateAll(groups, batch[..|batch| - 1])
      + [NewGroup(CreateAll(groups, batch[..|batch| - 1]), batch[|batch| - 1])]
  {
  }

  /** Creating a group raises the maximum identifier by exactly one. */
  lemma MaxIdAfterNewGroup(groups: seq<Group>, data: GroupData)
    requires |groups| > 0 && NumericIds(groups)
    ensures NumericIds(groups + [NewGroup(groups, data)])
    ensures MaxId(groups + [NewGroup(groups, data)]) == MaxId(groups) + 1
  {
    MaxIdAppend(groups, NewGroup(groups, data));
  }

  /** Successive creations on a non-empty catalog only grow it at the end:
      the old entries keep their places, and the maximum identifier value rises
      by one per creation. */
  lemma {:induction false} CreateAllAppends(groups: seq<Group>, batch: seq<GroupData>)
    requires NumericIds(groups) && |groups| > 0
    ensures |CreateAll(groups, batch)| == |groups| + |batch|
    ensures CreateAll(groups, batch)[..|groups|] == groups
    ensures MaxId(CreateAll(groups, batch)) == MaxId(groups) + |batch|
    decreases |batch|
  {
    if batch != [] {
      var init := batch[..|batch| - 1];
      CreateAllAppends(groups, init);
      CreateAllLast(groups, batch);
      MaxIdAfterNewGroup(CreateAll(groups, init), batch[|batch| - 1]);
    }
  }

  /** The last entry of a batch gets the old maximum plus the batch size. */
  lemma CreateAllLastId(groups: seq<Group>, batch: seq<GroupData>)
    requires NumericIds(groups) && |groups| > 0 && batch != []
    ensures |CreateAll(groups, batch)| == |groups| + |batch|
    ensures ParseInt(CreateAll(groups, batch)[|groups| + |batch| - 1].id) == MaxId(groups) + |batch|
  {
    var init := batch[..|batch| - 1];
    var prev := CreateAll(groups, init);
    CreateAllAppends(groups, init);
    CreateAllLast(groups, batch);
    var g := NewGroup(prev, batch[|batch| - 1]);
    assert CreateAll(groups, batch) == prev + [g];
    assert (prev + [g])[|prev|] == g;
    assert ParseInt(g.id) == MaxId(prev) + 1 == MaxId(groups) + |batch|;
  }

  /** Entries before the last one of a batch are those the rest of the batch
      produced. */
  lemma CreateAllEarlierAt(groups: seq<Group>, batch: seq<GroupData>, i: nat)
    requires NumericIds(groups) && |groups| > 0 && batch != []
    requires i < |groups| + |batch| - 1
    ensures |CreateAll(groups, batch)| == |groups| + |batch|
    ensures |CreateAll(groups, batch[..|batch| - 1])| == |groups| + |batch| - 1
    ensures CreateAll(groups, batch)[i] == CreateAll(groups, batch[..|batch| - 1])[i]
  {
    CreateAllAppends(groups, batch[..|batch| - 1]);
    CreateAllLast(groups, batch);
  }

  /** Successive creations on a non-empty catalog allocate consecutive
      identifiers: the entry created k-th (from 0) gets the old maximum plus
      k + 1, zero-padded. */
  lemma {:induction false} CreateAllIdAt(groups: seq<Group>, batch: seq<GroupData>, i: nat)
    requires NumericIds(groups) && |groups| > 0
    requires |groups| <= i < |groups| + |batch|
    ensures |CreateAll(groups, batch)| == |groups| + |batch|
    ensures ParseInt(CreateAll(groups, batch)[i].id) == MaxId(groups) + 1 + (i - |groups|)
    decreases |batch|
  {
    var init := batch[..|batch| - 1];
    if i < |groups| + |init| {
      CreateAllEarlierAt(groups, batch, i);
      CreateAllIdAt(groups, init, i);
    } else {
      CreateAllLastId(groups, batch);
    }
  }

  lemma SeedMax()
    ensures NumericIds(InitialGroups) && MaxId(InitialGroups) == 234
  {
    assert NatToString(12) == "12" && NatToString(123) == "123";
    assert NatToString(23) == "23" && NatToString(234) == "234";
    NatToStringRoundTrip(123);
    NatToStringRoundTrip(234);
  }

  lemma SeedDistinct()
    ensures DistinctIds(InitialGroups)
  {
    assert InitialGroups[0].id[1] != InitialGroups[1].id[1];
  }

  /** Starting from the page's seed catalog, the groups created get the
      identifier values 235, 236, … in creation order, after the two seed
      entries, which stay in place. */
  lemma SeedAllocatesFrom235(batch: seq<GroupData>, i: nat)
    requires 2 <= i < 2 + |batch|
    ensures |CreateAll(InitialGroups, batch)| == 2 + |batch|
    ensures CreateAll(InitialGroups, batch)[..2] == InitialGroups
    ensures ParseInt(CreateAll(InitialGroups, batch)[i].id) == 233 + i
  {
    SeedMax();
    CreateAllAppends(InitialGroups, batch);
    CreateAllIdAt(InitialGroups, batch, i);
  }

  /** The first group created in an empty catalog gets "123". */
  lemma FirstFromEmpty(data: GroupData)
    ensures NewGroup([], data).id == "123"
    ensures NumericIds([NewGroup([], data)]) && MaxId([NewGroup([], data)]) == 123
  {
    var g := NewGroup([], data);
    assert g.id == "123";
    assert [g][0] == g;
    Pad3Of123();
  }

  /** Starting from an empty catalog, the group created k-th (from 0) gets the
      identifier value 123 + k. */
  lemma EmptyAllocatesFrom123(batch: seq<GroupData>, i: nat)
    requires i < |batch|
    ensures |CreateAll([], batch)| == |batch|
    ensures ParseInt(CreateAll([], batch)[i].id) == 123 + i
  {
    var first := NewGroup([], batch[0]);
    var rest := batch[1..];
    FirstFromEmpty(batch[0]);
    var r := CreateAll([first], rest);
    assert CreateAll([], batch) == r by {
      CreateAllSplit([], batch);
      assert [] + [first] == [first];
    }
    assert |r| == |batch| && r[..1] == [first] by {
      CreateAllAppends([first], rest);
    }
    if i == 0 {
      assert r[0] == r[..1][0] == first;
      Pad3Of123();
    } else {
      CreateAllIdAt([first], rest, i);
    }
  }

  /** A catalog whose largest identifier is 5 allocates "006", one whose largest
      is 999 allocates "1000". */
  lemma GenerateGroupIdExamples()
    ensures GenerateGroupId([Group("5", "", "", 1)]) == "006"
    ensures GenerateGroupId([Group("999", "", "", 1)]) == "1000"
  {
    assert ParseInt("5") == 5;
    var p := Pad3(6);
    assert NatToString(6) == "6";
    assert p[2..] == "6";
    assert p == "006";
    assert NatToString(99) == "99" && NatToString(999) == "999";
    NatToStringRoundTrip(999);
    assert NatToString(100) == "100" && NatToString(1000) == "1000";
  }

  /** The group list page's state: the catalog, in creation order, and
      whether the create-group modal is shown. */
  class GroupListPage {
    var groups: seq<Group>
    var isModalOpen: bool

    /** The catalog's identifiers can all be parsed and are pairwise distinct,
        as list keys and route segments need. */
    ghost predicate Valid()
      reads this
    {
      NumericIds(groups) && DistinctIds(groups)
    }

    constructor ()
      ensures groups == InitialGroups && !isModalOpen
      ensures Valid()
    {
      groups := InitialGroups;
      isModalOpen := false;
      SeedMax();
      SeedDistinct();
    }

    /** The "+ Create Group" button. */
    method OpenModal()
      requires Valid()
      modifies this
      ensures isModalOpen && groups == old(groups)
      ensures Valid()
    {
      isModalOpen := true;
    }

    /** The `onClose` handler given to the modal. */
    method CloseModal()
      requires Valid()
      modifies this
      ensures !isModalOpen && groups == old(groups)
      ensures Valid()
    {
      isModalOpen := false;
    }

    /** `handleCreateGroup`: appends the record built from `data` with a freshly
        allocated identifier; every earlier entry is kept in place. */
    method HandleCreateGroup(data: GroupData)
      requires Valid()
      modifies this
      ensures groups == old(groups) + [NewGroup(old(groups), data)]
      ensures |groups| == |old(groups)| + 1 && groups[..|old(groups)|] == old(groups)
      ensures groups[|groups| - 1].name == data.name && groups[|groups| - 1].subject == data.subject
      ensures groups[|groups| - 1].members == MembersOrDefault(data.members)
      ensures groups[|groups| - 1].id == GenerateGroupId(old(groups))
      ensures isModalOpen == old(isModalOpen)
      ensures Valid()
    {
      var newGroup := NewGroup(groups, data);
      NewGroupKeepsCatalogValid(groups, data);
      groups := groups + [newGroup];
    }
  }

  /** On the seed catalog the next two identifiers are "235" and "236". */
  lemma SeedNextTwoIds(data: GroupData)
    ensures NumericIds(InitialGroups)
    ensures GenerateGroupId(InitialGroups) == "235"
    ensures NumericIds(InitialGroups + [NewGroup(InitialGroups, data)])
    ensures GenerateGroupId(InitialGroups + [NewGroup(InitialGroups, data)]) == "236"
  {
    SeedMax();
    MaxIdAfterNewGroup(InitialGroups, data);
    Pad3Of235And236();
  }

  lemma Pad3Of235And236()
    ensures Pad3(235) == "235" && Pad3(236) == "236"
  {
    assert NatToString(23) == "23" && NatToString(235) == "235" && NatToString(236) == "236";
  }

  /** Two creations on a fresh page allocate "235" and then "236". */
  method CreateTwoOnFreshPage(first: GroupData, second: GroupData) returns (ids: seq<string>)
    ensures ids == ["235", "236"]
  {
    var page := new GroupListPage();
    SeedNextTwoIds(first);
    page.HandleCreateGroup(first);
    page.HandleCreateGroup(second);
    ids := [page.groups[2].id, page.groups[3].id];
  }
}

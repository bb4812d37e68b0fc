/**
 * The team management page: the searchable, filterable member table and the
 * handlers that delete, add and edit members.
 */
module TeamManagement {
  import opened Seqs
  import opened Text

  datatype TeamMember = TeamMember(id: string, name: string, email: string, role: string, department: string,
                                   status: string, joinDate: string, phone: Option<string>, avatar: Option<string>)

  /** A member as the dialog returns it (`Omit<TeamMember, 'id'>`). */
  datatype MemberData = MemberData(name: string, email: string, role: string, department: string,
                                   status: string, joinDate: string, phone: Option<string>, avatar: Option<string>)

  const AllValues := "all"

  function WithMemberId(d: MemberData, id: string): TeamMember
  {
    TeamMember(id, d.name, d.email, d.role, d.department, d.status, d.joinDate, d.phone, d.avatar)
  }

  predicate MatchesSearch(m: TeamMember, term: string)
  {
    Includes(ToLower(m.name), ToLower(term)) || Includes(ToLower(m.email), ToLower(term))
  }

  predicate Shown(m: TeamMember, term: string, filterRole: string, filterStatus: string)
  {
    MatchesSearch(m, term) && (filterRole == AllValues || m.role == filterRole)
    && (filterStatus == AllValues || m.status == filterStatus)
  }

  /** The filter predicate of `filteredMembers`. */
  function ShownBy(term: string, filterRole: string, filterStatus: string): TeamMember -> bool
  {
    (m: TeamMember) => Shown(m, term, filterRole, filterStatus)
  }

  /** `filteredMembers`: the members passing search and both filters, in list order. */
  function FilteredMembers(members: seq<TeamMember>, term: string, filterRole: string, filterStatus: string): (r: seq<TeamMember>)
    ensures forall m :: m in r <==> m in members && MatchesSearch(m, term) &&
                                    (filterRole == AllValues || m.role == filterRole) &&
                                    (filterStatus == AllValues || m.status == filterStatus)
    ensures r == Filter(members, ShownBy(term, filterRole, filterStatus))
  {
    var p := ShownBy(term, filterRole, filterStatus);
    var r := Filter(members, p);
    forall m ensures m in r <==> m in members && Shown(m, term, filterRole, filterStatus) {
      FilterMembership(members, p, m);
    }
    r
  }

  /** With no search and both filters at 'all', every member is shown. */
  lemma NoFilterShowsAll(members: seq<TeamMember>)
    ensures FilteredMembers(members, [], AllValues, AllValues) == members
  {
    forall m ensures Shown(m, [], AllValues, AllValues) {
      IncludesEmpty(ToLower(m.name));
    }
    FilterAll(members, ShownBy([], AllValues, AllValues));
  }

  /** `handleDeleteMember` */
  function DeleteMember(members: seq<TeamMember>, id: string): (r: seq<TeamMember>)
    ensures forall m :: m in r <==> m in members && m.id != id
    ensures r == Filter(members, NotMember(id))
  {
    var r := Filter(members, NotMember(id));
    forall m ensures m in r <==> m in members && m.id != id {
      FilterMembership(members, NotMember(id), m);
    }
    r
  }

  /** The filter predicate "the member is not `id`". */
  function NotMember(id: string): TeamMember -> bool
  {
    (m: TeamMember) => m.id != id
  }

  /**
   * `handleSaveMember`, with the fresh id passed in: while editing, the
   * edited member's row is replaced by the dialog's data under its old id;
   * while adding, a new member goes last. The dialog closes either way,
   * which the caller does.
   */
  function SaveMember(members: seq<TeamMember>, editing: Option<TeamMember>, data: MemberData, newId: string): (r: seq<TeamMember>)
    ensures editing.None? ==> r == members + [WithMemberId(data, newId)]
    ensures editing.Some? ==> |r| == |members| && forall i :: 0 <= i < |members| ==>
              r[i] == if members[i].id == editing.value.id then WithMemberId(data, editing.value.id) else members[i]
  {
    if editing.Some? then
      Map(members, (m: TeamMember) => if m.id == editing.value.id then WithMemberId(data, editing.value.id) else m)
    else members + [WithMemberId(data, newId)]
  }

  predicate UniqueIds(members: seq<TeamMember>)
  {
    forall i, j :: 0 <= i < j < |members| ==> members[i].id != members[j].id
  }

  /** Editing keeps every id in place, and adding under an unused id keeps ids unique. */
  lemma SaveKeepsIds(members: seq<TeamMember>, editing: Option<TeamMember>, data: MemberData, newId: string)
    requires UniqueIds(members)
    requires editing.None? ==> forall i :: 0 <= i < |members| ==> members[i].id != newId
    ensures UniqueIds(SaveMember(members, editing, data, newId))
    ensures editing.Some? ==> forall i :: 0 <= i < |members| ==> SaveMember(members, editing, data, newId)[i].id == members[i].id
  {
  }

  /** With unique ids, deleting a present id shortens the list by exactly one. */
  lemma {:induction false} DeleteOne(members: seq<TeamMember>, k: nat)
    requires UniqueIds(members) && k < |members|
    ensures |DeleteMember(members, members[k].id)| == |members| - 1
  {
    var id := members[k].id;
    assert members == members[..k] + [members[k]] + members[k + 1..];
    FilterAppend(members[..k] + [members[k]], members[k + 1..], NotMember(id));
    FilterAppend(members[..k], [members[k]], NotMember(id));
    FilterAll(members[..k], NotMember(id));
    FilterAll(members[k + 1..], NotMember(id));
  }
}

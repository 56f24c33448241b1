/** The dashboard's checks on the member forms: a name is required when adding,
    and no two members may share a name up to the case of its letters. */
module MemberChecks {
  import opened Domain
  import opened Names
  import opened Forms

  /** `members.some(m => lower(m.name) === lower(name))`. */
  function HasMemberNamed(members: seq<Member>, name: string): (r: bool)
    ensures r <==> exists i :: 0 <= i < |members| && SameName(members[i].name, name)
  {
    if members == [] then false
    else SameName(members[0].name, name) || HasMemberNamed(members[1..], name)
  }

  /** The same search, skipping every member whose id is `exceptId`. */
  function HasOtherMemberNamed(members: seq<Member>, exceptId: string, name: string): (r: bool)
    ensures r <==> exists i :: 0 <= i < |members| && members[i].id != exceptId && SameName(members[i].name, name)
  {
    if members == [] then false
    else (members[0].id != exceptId && SameName(members[0].name, name))
         || HasOtherMemberNamed(members[1..], exceptId, name)
  }

  /** `handleAddMember`'s checks, in order: the name must be non-empty, then
      no member may already carry it in any letter case. */
  function CheckNewMember(members: seq<Member>, name: string): (r: Option<FormError>)
    ensures r == Some(MemberNameRequired) <==> name == ""
    ensures r == Some(DuplicateMemberName) <==>
              name != "" && exists i :: 0 <= i < |members| && SameName(members[i].name, name)
    ensures r == None <==>
              name != "" && forall i :: 0 <= i < |members| ==> !SameName(members[i].name, name)
  {
    if name == "" then Some(MemberNameRequired)
    else if HasMemberNamed(members, name) then Some(DuplicateMemberName)
    else None
  }

  /** `handleUpdateMember`'s only check: no OTHER member (by id) may carry the
      name in any letter case. There is no empty-name check. */
  function CheckMemberUpdate(members: seq<Member>, editId: string, name: string): (r: Option<FormError>)
    ensures r == None || r == Some(DuplicateMemberName)
    ensures r == None <==>
              forall i :: 0 <= i < |members| && members[i].id != editId ==> !SameName(members[i].name, name)
  {
    if HasOtherMemberNamed(members, editId, name) then Some(DuplicateMemberName) else None
  }

  /** No two members of the family share a name up to letter case. */
  predicate NamesDistinct(members: seq<Member>)
  {
    forall i, j :: 0 <= i < j < |members| ==> !SameName(members[i].name, members[j].name)
  }

  /** Renaming a member to its own name in another letter case passes the
      update check, while the add check rejects the same name. */
  lemma RenameToOwnNameInOtherCase(members: seq<Member>, k: nat, name: string)
    requires NamesDistinct(members)
    requires k < |members| && SameName(name, members[k].name) && name != ""
    ensures CheckMemberUpdate(members, members[k].id, name) == None
    ensures CheckNewMember(members, name) == Some(DuplicateMemberName)
  {
    forall i | 0 <= i < |members| && members[i].id != members[k].id
      ensures !SameName(members[i].name, name)
    {
      assert i != k;
      if i < k {
        assert !SameName(members[i].name, members[k].name);
      } else {
        assert !SameName(members[k].name, members[i].name);
      }
    }
  }

  /** Any case variant of an existing member's name is refused by the add check. */
  lemma AddRefusesCaseVariant(members: seq<Member>, k: nat, name: string)
    requires k < |members| && name != ""
    requires |name| == |members[k].name|
    requires forall i :: 0 <= i < |name| ==> SameLetter(name[i], members[k].name[i])
    ensures CheckNewMember(members, name) == Some(DuplicateMemberName)
  {
    forall i | 0 <= i < |name| ensures SameLetter(members[k].name[i], name[i]) {
      assert SameLetter(name[i], members[k].name[i]);
    }
  }

  /** With no member currently nameless, the update check lets an empty name
      through, where the add check would refuse it. */
  lemma UpdateAllowsEmptyName(members: seq<Member>, editId: string)
    requires forall i :: 0 <= i < |members| ==> members[i].name != ""
    ensures CheckMemberUpdate(members, editId, "") == None
    ensures CheckNewMember(members, "") == Some(MemberNameRequired)
  {
    forall i | 0 <= i < |members| ensures !SameName(members[i].name, "") {
      SameNameAsEmpty(members[i].name);
    }
  }
}

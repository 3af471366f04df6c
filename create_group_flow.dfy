/** The group list page and its create-group modal wired together: the modal's
    `onCreateGroup` is the page's `handleCreateGroup`, which returns normally,
    and its `onClose` hides the modal. */
module CreateGroupFlow {
  import opened JsString
  import opened GroupPage
  import opened CreateGroupModal

  /** The record the page builds from what the form hands over: the fields as
      typed, one member, and the identifier allocated for the catalog. */
  lemma PayloadGroup(groups: seq<Group>, groupName: string, subject: string)
    requires NumericIds(groups)
    ensures NewGroup(groups, Payload(groupName, subject)).name == groupName
    ensures NewGroup(groups, Payload(groupName, subject)).subject == subject
    ensures NewGroup(groups, Payload(groupName, subject)).members == 1
    ensures NewGroup(groups, Payload(groupName, subject)).id == GenerateGroupId(groups)
  {
  }

  lemma AppendTwo(calls: seq<PropCall>, first: PropCall, second: PropCall)
    ensures calls + [first] + [second] == calls + [first, second]
  {
  }

  /** A submission of the modal's form on the page. A blank field changes
      nothing anywhere; otherwise exactly one group is appended, named and
      subjected as typed, with 1 member and a fresh identifier, and the form
      is reset and hidden. */
  method SubmitOnPage(form: CreateGroupForm, page: GroupListPage) returns (created: bool)
    requires page.Valid()
    modifies form, page
    ensures created == CanSubmit(old(form.groupName), old(form.subject))
    ensures !created ==>
      page.groups == old(page.groups) && page.isModalOpen == old(page.isModalOpen)
      && form.groupName == old(form.groupName) && form.subject == old(form.subject)
      && form.loading == old(form.loading) && form.calls == old(form.calls)
    ensures created ==>
      page.groups == old(page.groups) + [NewGroup(old(page.groups), Payload(old(form.groupName), old(form.subject)))]
    ensures created ==>
      var g := page.groups[|page.groups| - 1];
      g.name == old(form.groupName) && g.subject == old(form.subject)
      && !IsBlank(g.name) && !IsBlank(g.subject) && g.members == 1
      && g.id == GenerateGroupId(old(page.groups))
    ensures created ==>
      form.groupName == "" && form.subject == "" && !form.loading && !page.isModalOpen
      && form.calls == old(form.calls)
        + [OnCreateGroup(Payload(old(form.groupName), old(form.subject))), OnClose]
    ensures page.Valid()
  {
    ghost var name0, subject0, calls0 := form.groupName, form.subject, form.calls;
    ghost var groups0 := page.groups;
    var request := form.BeginSubmit();
    created := request.Some?;
    if created {
      ghost var payload := Payload(name0, subject0);
      assert request.value == payload;
      assert form.calls == calls0 + [OnCreateGroup(payload)];
      // the page's handler runs while the form shows that it is busy
      assert form.loading;
      page.HandleCreateGroup(request.value);
      PayloadGroup(groups0, name0, subject0);
      assert form.calls == calls0 + [OnCreateGroup(payload)];
      form.FinishSubmit(Returned);
      assert form.calls == calls0 + [OnCreateGroup(payload)] + [OnClose];
      AppendTwo(calls0, OnCreateGroup(payload), OnClose);
      page.CloseModal();
    }
  }
}

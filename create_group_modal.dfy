/** The create-group modal: a two-field form whose submission validates the
    fields, marks itself busy, hands the new group to its parent's
    `onCreateGroup` callback and then either resets and closes or, when the
    callback throws, keeps what the user typed. */
module CreateGroupModal {
  import opened JsString
  import opened GroupPage

  /** How the parent's `onCreateGroup` callback ends. */
  datatype CallbackOutcome = Returned | Threw

  /** A call the form makes into the callbacks its parent passed it. */
  datatype PropCall = OnCreateGroup(data: GroupData) | OnClose

  /** `!groupName.trim() || !subject.trim()` is false: neither field is
      blank. */
  predicate CanSubmit(groupName: string, subject: string) {
    !IsBlank(groupName) && !IsBlank(subject)
  }

  /** What the form passes to `onCreateGroup`: both fields untrimmed and a
      member count of 1. */
  function Payload(groupName: string, subject: string): GroupData {
    GroupData(groupName, subject, Some(1))
  }

  /** Validation in terms of characters: submission goes ahead exactly when
      each field holds at least one non-whitespace character. */
  lemma CanSubmitIff(groupName: string, subject: string)
    ensures CanSubmit(groupName, subject) <==>
      (exists i :: 0 <= i < |groupName| && !IsJsWhitespace(groupName[i]))
      && (exists j :: 0 <= j < |subject| && !IsJsWhitespace(subject[j]))
  {
    BlankIffAllWhitespace(groupName);
    BlankIffAllWhitespace(subject);
  }

  /** The form's state, and the calls it has made to its parent, in order. */
  class CreateGroupForm {
    var groupName: string
    var subject: string
    var loading: bool
    var calls: seq<PropCall>

    constructor ()
      ensures groupName == "" && subject == "" && !loading && calls == []
    {
      groupName, subject, loading, calls := "", "", false, [];
    }

    /** The group-name input's `onChange`. */
    method SetGroupName(value: string)
      modifies this
      ensures groupName == value
      ensures subject == old(subject) && loading == old(loading) && calls == old(calls)
    {
      groupName := value;
    }

    /** The subject input's `onChange`. */
    method SetSubject(value: string)
      modifies this
      ensures subject == value
      ensures groupName == old(groupName) && loading == old(loading) && calls == old(calls)
    {
      subject := value;
    }

    /** The part of `handleSubmit` up to and including the callback: reject a
        blank field without touching anything, otherwise set `loading` and call
        `onCreateGroup`. The payload handed over is returned. */
    method BeginSubmit() returns (request: Option<GroupData>)
      modifies this
      ensures groupName == old(groupName) && subject == old(subject)
      ensures request.Some? <==> CanSubmit(old(groupName), old(subject))
      ensures request.None? ==> loading == old(loading) && calls == old(calls)
      ensures request.Some? ==> request.value == Payload(groupName, subject)
      ensures request.Some? ==> loading && calls == old(calls) + [OnCreateGroup(request.value)]
    {
      if IsBlank(groupName) || IsBlank(subject) {
        return None;
      }
      loading := true;
      request := Some(Payload(groupName, subject));
      calls := calls + [OnCreateGroup(request.value)];
    }

    /** The part of `handleSubmit` after the callback: on a normal return clear
        both fields and call `onClose`; on a throw keep the fields; in either
        case clear `loading`. */
    method FinishSubmit(outcome: CallbackOutcome)
      modifies this
      ensures !loading
      ensures outcome == Returned ==> groupName == "" && subject == "" && calls == old(calls) + [OnClose]
      ensures outcome == Threw ==>
        groupName == old(groupName) && subject == old(subject) && calls == old(calls)
    {
      if outcome == Returned {
        groupName := "";
        subject := "";
        calls := calls + [OnClose];
      }
      loading := false;
    }

    /** `handleSubmit`, with the callback's outcome given. */
    method HandleSubmit(outcome: CallbackOutcome) returns (request: Option<GroupData>)
      modifies this
      ensures request.Some? <==> CanSubmit(old(groupName), old(subject))
      ensures request.None? ==>
        groupName == old(groupName) && subject == old(subject)
        && loading == old(loading) && calls == old(calls)
      ensures request.Some? ==>
        request.value == Payload(old(groupName), old(subject)) && !loading
      ensures request.Some? && outcome == Returned ==>
        groupName == "" && subject == ""
        && calls == old(calls) + [OnCreateGroup(request.value), OnClose]
      ensures request.Some? && outcome == Threw ==>
        groupName == old(groupName) && subject == old(subject)
        && calls == old(calls) + [OnCreateGroup(request.value)]
    {
      request := BeginSubmit();
      if request.Some? {
        FinishSubmit(outcome);
      }
    }
  }
}

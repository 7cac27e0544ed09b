/** The profile page's editor: the skills list and the "looking for" list
    are edited through a draft input box with an add button and a remove
    button per tag, and an edit-mode flag switches the page between viewing
    and editing. */
module ProfileEditing {
  import opened Lists

  datatype UserData = UserData(
    name: string,
    avatar: string,
    title: string,
    company: string,
    education: string,
    location: string,
    bio: string,
    skills: seq<string>,
    lookingFor: seq<string>,
    email: string,
    phone: string)

  /** A tag list together with the draft in its input box. */
  datatype TagEdit = TagEdit(tags: seq<string>, draft: string)

  /** The add button (`addSkill`, `addInterest`): a non-empty draft not yet in
      the list is appended and the draft cleared; otherwise nothing changes.
      Only emptiness is tested, so a whitespace-only draft is accepted. */
  function AddTag(tags: seq<string>, draft: string): (r: TagEdit)
    ensures r.tags == tags || r.tags == tags + [draft]
    ensures draft != "" ==> draft in r.tags
    ensures r.draft == draft || r.draft == ""
    ensures r.draft == "" <==> draft == "" || |r.tags| == |tags| + 1
  {
    if draft != "" && draft !in tags then TagEdit(tags + [draft], "") else TagEdit(tags, draft)
  }

  /** The remove button (`removeSkill`, `removeInterest`). */
  function RemoveTag(tags: seq<string>, tag: string): (r: seq<string>)
    ensures tag !in r
    ensures IsSublist(r, tags)
    ensures forall i :: 0 <= i < |tags| && tags[i] != tag ==> tags[i] in r
    ensures forall y :: y != tag ==> multiset(r)[y] == multiset(tags)[y]
  {
    Without(tags, tag)
  }

  lemma AddTagAppends(tags: seq<string>, draft: string)
    requires draft != "" && draft !in tags
    ensures AddTag(tags, draft) == TagEdit(tags + [draft], "")
  {
  }

  lemma AddTagRejects(tags: seq<string>, draft: string)
    requires draft == "" || draft in tags
    ensures AddTag(tags, draft) == TagEdit(tags, draft)
  {
  }

  /** A draft of spaces only is added like any other. */
  lemma BlankDraftAccepted(tags: seq<string>)
    requires " " !in tags
    ensures AddTag(tags, " ") == TagEdit(tags + [" "], "")
  {
  }

  lemma AddTagKeepsNoDup(tags: seq<string>, draft: string)
    requires NoDup(tags)
    ensures NoDup(AddTag(tags, draft).tags)
  {
    if draft != "" && draft !in tags {
      AppendNoDup(tags, draft);
    }
  }

  /** Adding a tag that was not there and then removing it restores the list. */
  lemma AddThenRemove(tags: seq<string>, draft: string)
    requires draft != "" && draft !in tags
    ensures RemoveTag(AddTag(tags, draft).tags, draft) == tags
  {
    AppendThenWithout(tags, draft);
  }

  /** One button press on a tag list. */
  datatype TagOp = Add(draft: string) | Remove(tag: string)

  function ApplyTagOp(tags: seq<string>, op: TagOp): seq<string>
  {
    match op
    case Add(draft) => AddTag(tags, draft).tags
    case Remove(tag) => RemoveTag(tags, tag)
  }

  function ApplyTagOps(tags: seq<string>, ops: seq<TagOp>): seq<string>
    decreases |ops|
  {
    if ops == [] then tags else ApplyTagOps(ApplyTagOp(tags, ops[0]), ops[1..])
  }

  /** A duplicate-free list stays duplicate-free under any presses of the
      add and remove buttons. */
  lemma {:induction false} TagOpsKeepNoDup(tags: seq<string>, ops: seq<TagOp>)
    requires NoDup(tags)
    ensures NoDup(ApplyTagOps(tags, ops))
    decreases |ops|
  {
    if ops != [] {
      match ops[0] {
        case Add(draft) => AddTagKeepsNoDup(tags, draft);
        case Remove(tag) => WithoutNoDup(tags, tag);
      }
      TagOpsKeepNoDup(ApplyTagOp(tags, ops[0]), ops[1..]);
    }
  }

  /** The `ProfilePage` component's state. The tag inputs, the add buttons,
      the remove buttons and "Save Changes" are rendered only in edit mode,
      and "Edit Profile" only outside it, so each handler requires the mode
      in which its control exists. */
  class ProfilePage {
    var editMode: bool
    var userData: UserData
    var newSkill: string
    var newInterest: string

    constructor (initial: UserData)
      ensures !editMode && userData == initial
      ensures newSkill == "" && newInterest == ""
    {
      editMode := false;
      userData := initial;
      newSkill := "";
      newInterest := "";
    }

    /** The skill input box's change handler. */
    method TypeSkill(text: string)
      requires editMode
      modifies this`newSkill
      ensures newSkill == text
    {
      newSkill := text;
    }

    /** The "looking for" input box's change handler. */
    method TypeInterest(text: string)
      requires editMode
      modifies this`newInterest
      ensures newInterest == text
    {
      newInterest := text;
    }

    /** The skills "Add" button. */
    method AddSkill()
      requires editMode
      modifies this`userData, this`newSkill
      ensures userData == old(userData).(skills := AddTag(old(userData.skills), old(newSkill)).tags)
      ensures newSkill == AddTag(old(userData.skills), old(newSkill)).draft
      ensures old(NoDup(userData.skills)) ==> NoDup(userData.skills)
    {
      assert NoDup(userData.skills) ==> NoDup(AddTag(userData.skills, newSkill).tags) by {
        if NoDup(userData.skills) { AddTagKeepsNoDup(userData.skills, newSkill); }
      }
      if newSkill != "" && newSkill !in userData.skills {
        userData := userData.(skills := userData.skills + [newSkill]);
        newSkill := "";
      }
    }

    /** The remove button on a skill badge. */
    method RemoveSkill(skill: string)
      requires editMode
      modifies this`userData
      ensures userData == old(userData).(skills := RemoveTag(old(userData.skills), skill))
      ensures old(NoDup(userData.skills)) ==> NoDup(userData.skills)
    {
      assert NoDup(userData.skills) ==> NoDup(RemoveTag(userData.skills, skill)) by {
        if NoDup(userData.skills) { WithoutNoDup(userData.skills, skill); }
      }
      userData := userData.(skills := RemoveTag(userData.skills, skill));
    }

    /** The "looking for" "Add" button. */
    method AddInterest()
      requires editMode
      modifies this`userData, this`newInterest
      ensures userData == old(userData).(lookingFor := AddTag(old(userData.lookingFor), old(newInterest)).tags)
      ensures newInterest == AddTag(old(userData.lookingFor), old(newInterest)).draft
      ensures old(NoDup(userData.lookingFor)) ==> NoDup(userData.lookingFor)
    {
      assert NoDup(userData.lookingFor) ==> NoDup(AddTag(userData.lookingFor, newInterest).tags) by {
        if NoDup(userData.lookingFor) { AddTagKeepsNoDup(userData.lookingFor, newInterest); }
      }
      if newInterest != "" && newInterest !in userData.lookingFor {
        userData := userData.(lookingFor := userData.lookingFor + [newInterest]);
        newInterest := "";
      }
    }

    /** The remove button on a "looking for" badge. */
    method RemoveInterest(interest: string)
      requires editMode
      modifies this`userData
      ensures userData == old(userData).(lookingFor := RemoveTag(old(userData.lookingFor), interest))
      ensures old(NoDup(userData.lookingFor)) ==> NoDup(userData.lookingFor)
    {
      assert NoDup(userData.lookingFor) ==> NoDup(RemoveTag(userData.lookingFor, interest)) by {
        if NoDup(userData.lookingFor) { WithoutNoDup(userData.lookingFor, interest); }
      }
      userData := userData.(lookingFor := RemoveTag(userData.lookingFor, interest));
    }

    /** The "Edit Profile" button. */
    method StartEditing()
      requires !editMode
      modifies this`editMode
      ensures editMode
    {
      editMode := true;
    }

    /** `handleSaveProfile`: leaves edit mode; the profile data is kept as edited. */
    method HandleSaveProfile()
      requires editMode
      modifies this`editMode
      ensures !editMode
    {
      editMode := false;
    }
  }
}

/** components/pages/message-layout.tsx: the channel header's invite dialog and the join
    banner. The dialog offers the co-workers who are not yet collaborators; the banner lets
    the signed-in user join the selected channel. */
module MessageLayout {
  import opened Common
  import opened Entities
  import AppProvider

  const AtLeastOnePerson := "At least one person must be selected"

  /** One option of the invite select: `{ value: c._id, label: c.email }`; the label is kept as `caption`. */
  datatype SelectItem = SelectItem(value: string, caption: Option<string>)

  /** The requests the component posts. */
  datatype Request =
    | InviteRequest(userIds: seq<string>, channelId: Option<string>)  // POST /teammates
    | JoinRequest(channelId: Option<string>, userId: Option<string>)  // POST /channel/<id>

  /** `!collaboratorsToRemove?.includes?.(id)`: with no id list, nobody is excluded. */
  predicate Excluded(exclude: Option<seq<string>>, id: string) {
    exclude.Some? && id in exclude.value
  }

  /** The co-workers that are not excluded, in their original order. */
  function Invitable(coWorkers: seq<User>, exclude: Option<seq<string>>): (r: seq<User>)
    ensures |r| <= |coWorkers|
    ensures forall i :: 0 <= i < |r| ==> r[i] in coWorkers && !Excluded(exclude, r[i].id)
  {
    if coWorkers == [] then []
    else
      assert coWorkers == [coWorkers[0]] + coWorkers[1..];
      var rest := Invitable(coWorkers[1..], exclude);
      if Excluded(exclude, coWorkers[0].id) then rest else [coWorkers[0]] + rest
  }

  /** No co-worker who is not excluded is dropped. */
  lemma {:induction false} InvitableKeeps(coWorkers: seq<User>, exclude: Option<seq<string>>, u: User)
    requires u in coWorkers && !Excluded(exclude, u.id)
    ensures u in Invitable(coWorkers, exclude)
  {
    if coWorkers[0] != u {
      InvitableKeeps(coWorkers[1..], exclude, u);
    }
  }

  /** The filter keeps order: filtering a concatenation concatenates the filtered parts. */
  lemma {:induction false} InvitableAppend(a: seq<User>, b: seq<User>, exclude: Option<seq<string>>)
    ensures Invitable(a + b, exclude) == Invitable(a, exclude) + Invitable(b, exclude)
  {
    if a == [] {
      assert a + b == b;
    } else {
      assert (a + b)[0] == a[0] && (a + b)[1..] == a[1..] + b;
      InvitableAppend(a[1..], b, exclude);
      if !Excluded(exclude, a[0].id) {
        var x, y := Invitable(a[1..], exclude), Invitable(b, exclude);
        assert [a[0]] + (x + y) == ([a[0]] + x) + y;
      }
    }
  }

  /** With no id list every co-worker is kept. */
  lemma {:induction false} InvitableNoExclusion(coWorkers: seq<User>)
    ensures Invitable(coWorkers, None) == coWorkers
  {
    if coWorkers != [] {
      InvitableNoExclusion(coWorkers[1..]);
    }
  }

  /** `selected?.collaborators?.map((c) => c._id)`. */
  function CollaboratorIds(selected: Option<Chat>): (r: Option<seq<string>>)
    ensures r.Some? <==> selected.Some?
    ensures r.Some? ==> r.value == Ids(selected.value.collaborators)
  {
    if selected.Some? then Some(Ids(selected.value.collaborators)) else None
  }

  /** The invite select's options: undefined without an organisation; otherwise one
      option per co-worker who is not a collaborator of the selection, in order. */
  function InviteOptions(data: Option<Data>, selected: Option<Chat>): (r: Option<seq<SelectItem>>)
    ensures r.Some? <==> data.Some?
    ensures r.Some? ==>
      var kept := Invitable(data.value.coWorkers, CollaboratorIds(selected));
      |r.value| == |kept| &&
      forall i :: 0 <= i < |kept| ==> r.value[i] == SelectItem(kept[i].id, kept[i].email)
    ensures r.Some? && selected.Some? ==>
      forall i :: 0 <= i < |r.value| ==> r.value[i].value !in Ids(selected.value.collaborators)
  {
    match data
    case None => None
    case Some(d) => Some(ToItems(Invitable(d.coWorkers, CollaboratorIds(selected))))
  }

  /** `users.map((c) => ({ value: c._id, label: c.email }))`. */
  function ToItems(users: seq<User>): (r: seq<SelectItem>)
    ensures |r| == |users|
    ensures forall i :: 0 <= i < |users| ==> r[i] == SelectItem(users[i].id, users[i].email)
  {
    if users == [] then [] else [SelectItem(users[0].id, users[0].email)] + ToItems(users[1..])
  }

  /** The form's `userIds` rule: at least one entry. */
  function UserIdsError(val: seq<string>): (r: Option<string>)
    ensures r.None? <==> |val| > 0
    ensures r.Some? ==> r.value == AtLeastOnePerson
  {
    if |val| > 0 then None else Some(AtLeastOnePerson)
  }

  /** The form's initial `['']` already passes the rule. */
  const InitialUserIds: seq<string> := [""]

  /** The dialog, the form and the banner's local state. `channelCollaborators` is a copy
      made from the selection when the component mounts; entries are optional because a
      join appends the profile id even when there is none. */
  class ChannelHeader {
    const app: AppProvider.AppState
    var modalOpen: bool
    var isDisabled: bool
    var userIds: seq<string>
    var channelCollaborators: Option<seq<Option<string>>>
    var requests: seq<Request>

    /** The ids of the selection's collaborators at mount, each present. */
    static function InitialCollaborators(selected: Option<Chat>): (r: Option<seq<Option<string>>>)
      ensures r.Some? <==> selected.Some?
      ensures r.Some? ==> |r.value| == |selected.value.collaborators|
      ensures r.Some? ==>
        forall i :: 0 <= i < |r.value| ==> r.value[i] == Some(selected.value.collaborators[i].id)
    {
      if selected.None? then None else Some(SomeIds(selected.value.collaborators))
    }

    static function SomeIds(users: seq<User>): (r: seq<Option<string>>)
      ensures |r| == |users|
      ensures forall i :: 0 <= i < |users| ==> r[i] == Some(users[i].id)
    {
      if users == [] then [] else [Some(users[0].id)] + SomeIds(users[1..])
    }

    constructor (app: AppProvider.AppState)
      ensures this.app == app
      ensures !modalOpen && isDisabled && userIds == InitialUserIds && requests == []
      ensures channelCollaborators == InitialCollaborators(app.selected)
    {
      this.app := app;
      modalOpen, isDisabled, userIds, requests := false, true, InitialUserIds, [];
      channelCollaborators := InitialCollaborators(app.selected);
    }

    /** `isLoading`: the selection has no name (none, or an empty one). */
    predicate IsLoading()
      reads this, app
    {
      !(app.selected.Some? && app.selected.value.name != "")
    }

    /** The join banner: the selection is a channel and the profile id is not in the local
        collaborator list (an undefined list never includes it). */
    predicate JoinBannerShown()
      reads this, app
    {
      && app.selected.Some? && app.selected.value.isChannel
      && !(channelCollaborators.Some? && ProfileId(app.data) in channelCollaborators.value)
    }

    /** The add-people icon. */
    method Open()
      modifies this`modalOpen
      ensures modalOpen
    {
      modalOpen := true;
    }

    /** The modal's close. */
    method Close()
      modifies this`modalOpen
      ensures !modalOpen
    {
      modalOpen := false;
    }

    /** The select's onChange: store the choice and enable the send button for good. The
        select sits inside the modal, which renders only while open. */
    method OnSelectChange(val: seq<string>)
      modifies this`userIds, this`isDisabled
      ensures old(modalOpen) ==> userIds == val && !isDisabled
      ensures !old(modalOpen) ==> userIds == old(userIds) && isDisabled == old(isDisabled)
    {
      if modalOpen {
        userIds := val;
        isDisabled := false;
      }
    }

    /** Send invite: while the modal is open and the button is enabled, post the form's ids
        and the selected channel's id as they are; the `userIds` rule is not consulted. */
    method SendInvite()
      modifies this`requests
      ensures modalOpen && !isDisabled ==>
        requests == old(requests) + [InviteRequest(userIds, SelectedId(app.selected))]
      ensures !(modalOpen && !isDisabled) ==> requests == old(requests)
    {
      if modalOpen && !isDisabled {
        requests := requests + [InviteRequest(userIds, SelectedId(app.selected))];
      }
    }

    /** The invite's onSuccess: close the dialog and reset the form to its initial value.
        The send button stays enabled. */
    method InviteSucceeded()
      modifies this`modalOpen, this`userIds
      ensures !modalOpen && userIds == InitialUserIds
    {
      modalOpen := false;
      userIds := InitialUserIds;
    }

    /** The banner's join button, present only while the banner is shown. */
    method JoinClicked()
      modifies this`requests
      ensures old(JoinBannerShown()) ==>
        requests == old(requests) + [JoinRequest(SelectedId(app.selected), ProfileId(app.data))]
      ensures !old(JoinBannerShown()) ==> requests == old(requests)
    {
      if JoinBannerShown() {
        requests := requests + [JoinRequest(SelectedId(app.selected), ProfileId(app.data))];
      }
    }

    /** The join's onSuccess: append the profile id to the local collaborator list. The
        updater spreads the previous list; when that list is undefined the spread throws
        (`threw`) and the list stays undefined. */
    method JoinSucceeded() returns (threw: bool)
      modifies this`channelCollaborators
      ensures threw <==> old(channelCollaborators).None?
      ensures old(channelCollaborators).Some? ==>
        channelCollaborators == Some(old(channelCollaborators).value + [ProfileId(app.data)])
      ensures old(channelCollaborators).None? ==> channelCollaborators == None
      ensures channelCollaborators.Some? && app.data.Some? && app.selected.Some? && app.selected.value.isChannel
        ==> !JoinBannerShown()
    {
      if channelCollaborators.None? {
        return true;
      }
      channelCollaborators := Some(channelCollaborators.value + [ProfileId(app.data)]);
      threw := false;
    }
  }
}

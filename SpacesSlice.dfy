/** The spaces slice (store/spacesSlice.ts): the active audio spaces, the one
    the user is in, and each space's chat messages. */
module SpacesSlice {
  import opened Util
  import opened Types
  import opened Api
  import opened Mappers

  const LoginRequired := "Login required"

  /** The guard every mutating thunk starts with. */
  function WithToken<T>(token: Option<string>, attempt: Settled<T>): (s: Settled<T>)
    ensures !HasToken(token) ==> s == Rejected(LoginRequired)
    ensures HasToken(token) ==> s == attempt
  {
    if !HasToken(token) then Rejected(LoginRequired) else attempt
  }

  // ---------------------------------------------------------------------
  // The thunks

  datatype Joined = Joined(spaceId: string, participant: SpaceParticipant)
  datatype SpaceMessages = SpaceMessages(spaceId: string, messages: seq<SpaceMessage>)
  datatype SentMessage = SentMessage(spaceId: string, message: SpaceMessage)
  datatype HandRaise = HandRaise(spaceId: string, handRaised: bool)

  function FetchSpaces(response: ApiResult<seq<RawSpace>>, uuid: nat -> string): (s: Settled<seq<Space>>)
    ensures s.Fulfilled? <==> response.Success?
    ensures s.Fulfilled? ==> |s.payload| == |response.value|
    ensures s.Fulfilled? ==>
              forall i :: 0 <= i < |response.value| ==> s.payload[i] == MapSpace(Some(response.value[i]), uuid(i))
    ensures s.Rejected? ==> s.error == RejectMessage(response.message, "Unable to load spaces")
  {
    Attempt(response, (items: seq<RawSpace>) =>
              seq(|items|, i requires 0 <= i < |items| => MapSpace(Some(items[i]), uuid(i))),
            "Unable to load spaces")
  }

  function CreateSpace(token: Option<string>, response: ApiResult<RawSpace>, freshId: string): (s: Settled<Space>)
    ensures !HasToken(token) ==> s == Rejected(LoginRequired)
    ensures HasToken(token) && response.Success? ==> s == Fulfilled(MapSpace(Some(response.value), freshId))
    ensures HasToken(token) && response.Failure? ==> s == Rejected(RejectMessage(response.message, "Unable to create space"))
  {
    WithToken(token, Attempt(response, (raw: RawSpace) => MapSpace(Some(raw), freshId), "Unable to create space"))
  }

  function JoinSpace(token: Option<string>, spaceId: string, response: ApiResult<RawParticipant>): (s: Settled<Joined>)
    ensures !HasToken(token) ==> s == Rejected(LoginRequired)
    ensures HasToken(token) && response.Success? ==> s == Fulfilled(Joined(spaceId, MapSpaceParticipant(Some(response.value))))
    ensures HasToken(token) && response.Failure? ==> s == Rejected(RejectMessage(response.message, "Unable to join space"))
  {
    WithToken(token, Attempt(response, (raw: RawParticipant) => Joined(spaceId, MapSpaceParticipant(Some(raw))),
                             "Unable to join space"))
  }

  function LeaveSpace(token: Option<string>, spaceId: string, response: ApiResult<()>): (s: Settled<string>)
    ensures !HasToken(token) ==> s == Rejected(LoginRequired)
    ensures HasToken(token) && response.Success? ==> s == Fulfilled(spaceId)
    ensures HasToken(token) && response.Failure? ==> s == Rejected(RejectMessage(response.message, "Unable to leave space"))
  {
    WithToken(token, Attempt(response, (_: ()) => spaceId, "Unable to leave space"))
  }

  function EndSpace(token: Option<string>, spaceId: string, response: ApiResult<()>): (s: Settled<string>)
    ensures !HasToken(token) ==> s == Rejected(LoginRequired)
    ensures HasToken(token) && response.Success? ==> s == Fulfilled(spaceId)
    ensures HasToken(token) && response.Failure? ==> s == Rejected(RejectMessage(response.message, "Unable to end space"))
  {
    WithToken(token, Attempt(response, (_: ()) => spaceId, "Unable to end space"))
  }

  function FetchSpaceMessages(spaceId: string, response: ApiResult<seq<RawSpaceMessage>>, uuid: nat -> string, now: int)
    : (s: Settled<SpaceMessages>)
    ensures s.Fulfilled? <==> response.Success?
    ensures s.Fulfilled? ==> s.payload.spaceId == spaceId && |s.payload.messages| == |response.value|
    ensures s.Fulfilled? ==>
              forall i :: 0 <= i < |response.value| ==>
                s.payload.messages[i] == MapSpaceMessage(Some(response.value[i]), uuid(i), now)
    ensures s.Rejected? ==> s.error == RejectMessage(response.message, "Unable to load messages")
  {
    Attempt(response, (items: seq<RawSpaceMessage>) =>
              SpaceMessages(spaceId, seq(|items|, i requires 0 <= i < |items| => MapSpaceMessage(Some(items[i]), uuid(i), now))),
            "Unable to load messages")
  }

  function SendSpaceMessage(token: Option<string>, spaceId: string, response: ApiResult<RawSpaceMessage>,
                            freshId: string, now: int): (s: Settled<SentMessage>)
    ensures !HasToken(token) ==> s == Rejected(LoginRequired)
    ensures HasToken(token) && response.Success? ==>
              s == Fulfilled(SentMessage(spaceId, MapSpaceMessage(Some(response.value), freshId, now)))
    ensures HasToken(token) && response.Failure? ==> s == Rejected(RejectMessage(response.message, "Unable to send message"))
  {
    WithToken(token, Attempt(response, (raw: RawSpaceMessage) => SentMessage(spaceId, MapSpaceMessage(Some(raw), freshId, now)),
                             "Unable to send message"))
  }

  /** toggleHandRaise: the server's hand_raised flag, which no reducer
      stores. */
  function ToggleHandRaise(token: Option<string>, spaceId: string, response: ApiResult<bool>): (s: Settled<HandRaise>)
    ensures !HasToken(token) ==> s == Rejected(LoginRequired)
    ensures HasToken(token) && response.Success? ==> s == Fulfilled(HandRaise(spaceId, response.value))
    ensures HasToken(token) && response.Failure? ==> s == Rejected(RejectMessage(response.message, "Unable to toggle hand"))
  {
    WithToken(token, Attempt(response, (raised: bool) => HandRaise(spaceId, raised), "Unable to toggle hand"))
  }

  // ---------------------------------------------------------------------
  // The slice

  /** The filter endSpace applies. */
  function NotSpace(spaceId: string): Space -> bool {
    (s: Space) => s.id != spaceId
  }

  /** After endSpace no active space has the id, every other one is still
      there, and nothing is added. */
  lemma EndSpaceRemovesEveryMatch(spaces: seq<Space>, spaceId: string)
    ensures var r := Filter(spaces, NotSpace(spaceId));
            && (forall i :: 0 <= i < |r| ==> r[i].id != spaceId)
            && (forall i :: 0 <= i < |spaces| && spaces[i].id != spaceId ==> spaces[i] in r)
            && |r| <= |spaces|
  {
    var r := Filter(spaces, NotSpace(spaceId));
    forall i | 0 <= i < |r| ensures r[i].id != spaceId {
      assert r[i] in r;
    }
  }

  class SpacesState {
    var activeSpaces: seq<Space>
    var currentSpace: Option<Space>
    var messagesBySpaceId: map<string, seq<SpaceMessage>>
    var loading: bool
    var error: Option<string>

    constructor()
      ensures activeSpaces == [] && currentSpace.None? && messagesBySpaceId == map[] && !loading && error.None?
    {
      activeSpaces := [];
      currentSpace := None;
      messagesBySpaceId := map[];
      loading := false;
      error := None;
    }

    method SetCurrentSpace(space: Option<Space>)
      modifies this
      ensures currentSpace == space
      ensures activeSpaces == old(activeSpaces) && messagesBySpaceId == old(messagesBySpaceId)
      ensures loading == old(loading) && error == old(error)
    {
      currentSpace := space;
    }

    method FetchPending()
      modifies this
      ensures loading && error.None?
      ensures activeSpaces == old(activeSpaces) && currentSpace == old(currentSpace)
      ensures messagesBySpaceId == old(messagesBySpaceId)
    {
      loading := true;
      error := None;
    }

    method FetchFulfilled(spaces: seq<Space>)
      modifies this
      ensures !loading && activeSpaces == spaces
      ensures currentSpace == old(currentSpace) && messagesBySpaceId == old(messagesBySpaceId) && error == old(error)
    {
      loading := false;
      activeSpaces := spaces;
    }

    method FetchRejected(message: string)
      modifies this
      ensures !loading && error == Some(message)
      ensures activeSpaces == old(activeSpaces) && currentSpace == old(currentSpace)
      ensures messagesBySpaceId == old(messagesBySpaceId)
    {
      loading := false;
      error := Some(message);
    }

    /** createSpace.fulfilled: the new space is current and first. */
    method CreateFulfilled(space: Space)
      modifies this
      ensures currentSpace == Some(space) && activeSpaces == [space] + old(activeSpaces)
      ensures messagesBySpaceId == old(messagesBySpaceId) && loading == old(loading) && error == old(error)
    {
      currentSpace := Some(space);
      activeSpaces := [space] + activeSpaces;
    }

    /** joinSpace.fulfilled: the participant joins the current space only
        when its id matches; the active list is not touched. */
    method JoinFulfilled(payload: Joined)
      modifies this
      ensures old(currentSpace).Some? && old(currentSpace).value.id == payload.spaceId ==>
                currentSpace == Some(old(currentSpace).value.(participants := old(currentSpace).value.participants + [payload.participant]))
      ensures !(old(currentSpace).Some? && old(currentSpace).value.id == payload.spaceId) ==> currentSpace == old(currentSpace)
      ensures activeSpaces == old(activeSpaces) && messagesBySpaceId == old(messagesBySpaceId)
      ensures loading == old(loading) && error == old(error)
    {
      if currentSpace.Some? && currentSpace.value.id == payload.spaceId {
        var space := currentSpace.value;
        currentSpace := Some(space.(participants := space.participants + [payload.participant]));
      }
    }

    /** leaveSpace.fulfilled: clears the current space on a match only. */
    method LeaveFulfilled(spaceId: string)
      modifies this
      ensures old(currentSpace).Some? && old(currentSpace).value.id == spaceId ==> currentSpace.None?
      ensures !(old(currentSpace).Some? && old(currentSpace).value.id == spaceId) ==> currentSpace == old(currentSpace)
      ensures activeSpaces == old(activeSpaces) && messagesBySpaceId == old(messagesBySpaceId)
      ensures loading == old(loading) && error == old(error)
    {
      if currentSpace.Some? && currentSpace.value.id == spaceId {
        currentSpace := None;
      }
    }

    /** endSpace.fulfilled: every active space with the id goes, and the
        current one is cleared on a match. */
    method EndFulfilled(spaceId: string)
      modifies this
      ensures activeSpaces == Filter(old(activeSpaces), NotSpace(spaceId))
      ensures old(currentSpace).Some? && old(currentSpace).value.id == spaceId ==> currentSpace.None?
      ensures !(old(currentSpace).Some? && old(currentSpace).value.id == spaceId) ==> currentSpace == old(currentSpace)
      ensures messagesBySpaceId == old(messagesBySpaceId) && loading == old(loading) && error == old(error)
    {
      activeSpaces := Filter(activeSpaces, NotSpace(spaceId));
      if currentSpace.Some? && currentSpace.value.id == spaceId {
        currentSpace := None;
      }
    }

    /** fetchSpaceMessages.fulfilled: that space's list is replaced. */
    method MessagesFulfilled(payload: SpaceMessages)
      modifies this
      ensures messagesBySpaceId == old(messagesBySpaceId)[payload.spaceId := payload.messages]
      ensures activeSpaces == old(activeSpaces) && currentSpace == old(currentSpace)
      ensures loading == old(loading) && error == old(error)
    {
      messagesBySpaceId := messagesBySpaceId[payload.spaceId := payload.messages];
    }

    /** sendSpaceMessage.fulfilled: the message goes at the end of that
        space's list, which is created when absent. */
    method SendFulfilled(payload: SentMessage)
      modifies this
      ensures messagesBySpaceId == old(messagesBySpaceId)[payload.spaceId :=
                (if payload.spaceId in old(messagesBySpaceId) then old(messagesBySpaceId)[payload.spaceId] else []) + [payload.message]]
      ensures activeSpaces == old(activeSpaces) && currentSpace == old(currentSpace)
      ensures loading == old(loading) && error == old(error)
    {
      var existing := if payload.spaceId in messagesBySpaceId then messagesBySpaceId[payload.spaceId] else [];
      messagesBySpaceId := messagesBySpaceId[payload.spaceId := existing + [payload.message]];
    }

    method Logout()
      modifies this
      ensures activeSpaces == [] && currentSpace.None? && messagesBySpaceId == map[]
      ensures loading == old(loading) && error == old(error)
    {
      activeSpaces := [];
      currentSpace := None;
      messagesBySpaceId := map[];
    }
  }
}

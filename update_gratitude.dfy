/** `UpdateGratitudeViewModel` (View/UpdateGratitude/UpdateGratitudeViewModel.swift):
    the editor for an existing message. */
module UpdateGratitude {
  import opened Wrappers
  import opened Dto
  import SendStates
  import opened StoredUsers
  import CreateGratitude
  import GratitudeEndpoints

  /** The name shown when the stored user has no nickname. */
  const DefaultUserName := "User"

  /** A request to update the message with the given id. */
  datatype UpdateRequest = UpdateRequest(id: int, dto: UpdateGratitudeDto)

  /** The update a send issues: the text and both settings, with the
      recipient and the author left out. */
  function Request(id: int, content: string, isAnonymous: bool, visibility: Visibility): (r: UpdateRequest)
    ensures r.id == id && r.dto.contents == Some(content)
    ensures r.dto.isAnonymous == Some(isAnonymous) && r.dto.visibility == Some(visibility)
    ensures r.dto.recipientId.None? && r.dto.authorId.None?
  {
    UpdateRequest(id, UpdateGratitudeDto(None, None, Some(content), Some(isAnonymous), Some(visibility)))
  }

  /** The body the update endpoint sends for such a request carries
      exactly the text and the two settings. */
  lemma RequestBody(id: int, content: string, isAnonymous: bool, visibility: Visibility)
    ensures var body := GratitudeEndpoints.UpdateBody(Request(id, content, isAnonymous, visibility).dto);
      && body.Keys == {"contents", "isAnonymous", "visibility"}
      && body["contents"] == JString(content)
      && body["isAnonymous"] == JBool(isAnonymous)
      && body["visibility"] == JString(VisibilityRawValue(visibility))
  {
    var body := GratitudeEndpoints.UpdateBody(Request(id, content, isAnonymous, visibility).dto);
    assert "contents" in body && "isAnonymous" in body && "visibility" in body;
    assert "recipientId" !in body && "authorId" !in body;
  }

  class UpdateModel {
    /** `gratitudeId`: the message being edited, fixed at creation. */
    const gratitudeId: int
    var currentUserId: int
    var currentUserName: string
    var recipient: Option<Member>
    var messageContent: string
    var isAnonymous: bool
    var visibility: Visibility
    var sendState: SendStates.SendState

    /** `init(container:modelContext:gratitudeMessage:)`: the editor starts
        from the message's own fields, with the fetched stored user passed
        in (`null` when there is none). */
    constructor (message: GratitudeResponse, user: StoredUser?)
      ensures gratitudeId == message.id && messageContent == message.contents
      ensures isAnonymous == message.isAnonymous && visibility == message.visibility
      ensures recipient == Some(message.recipient) && sendState == SendStates.Idle
      ensures user != null ==> currentUserId == user.id && currentUserName == user.nickname.GetOr(DefaultUserName)
      ensures user == null ==> currentUserId == 0 && currentUserName == ""
    {
      gratitudeId := message.id;
      messageContent, isAnonymous, visibility := message.contents, message.isAnonymous, message.visibility;
      recipient := Some(message.recipient);
      sendState := SendStates.Idle;
      if user != null {
        currentUserId := user.id;
        currentUserName := user.nickname.GetOr(DefaultUserName);
      } else {
        currentUserId := 0;
        currentUserName := "";
      }
    }

    /** `updateGratitudeMessage` up to the request: blank text does nothing;
        otherwise the state is `sending` and the request targets the edited
        message. */
    method UpdateGratitudeMessage() returns (request: Option<UpdateRequest>)
      modifies this`sendState
      ensures !CreateGratitude.CanSendMessage(messageContent) ==> request == None && sendState == old(sendState)
      ensures CreateGratitude.CanSendMessage(messageContent) ==>
        sendState == SendStates.Sending
        && request == Some(Request(gratitudeId, messageContent, isAnonymous, visibility))
    {
      var canSend := CreateGratitude.CanSendMessage(messageContent);
      if !canSend {
        request := None;
      } else {
        sendState := SendStates.Sending;
        request := Some(Request(gratitudeId, messageContent, isAnonymous, visibility));
      }
    }

    /** The sink: success on a received value, the error's description on a
        failed completion. */
    method CompleteUpdate(outcome: Outcome<string>)
      modifies this`sendState
      ensures sendState == SendStates.Completed(outcome)
    {
      match outcome {
        case Pass => sendState := SendStates.Success;
        case Fail(description) => sendState := SendStates.Failure(description);
      }
    }

    /** `reset`: only the send state changes, back to `idle`; the draft is
        kept. */
    method Reset()
      modifies this`sendState
      ensures sendState == SendStates.Idle
    {
      sendState := SendStates.Idle;
    }
  }
}

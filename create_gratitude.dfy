/** `CreateGratitudeViewModel` (View/CreateGratitude/CreateGratitudeViewModel.swift):
    the editor for a new message, with its send state machine. Sending is
    split into issuing the request and completing it. */
module CreateGratitude {
  import opened Wrappers
  import opened Dto
  import opened Text
  import SendStates
  import opened StoredUsers

  /** `maxCharacterCount`. */
  const MaxCharacterCount: nat := 1000

  /** The failure shown when no recipient has been chosen. */
  const NoRecipientMessage := "수신자를 선택해주세요"

  /** The name shown when the stored user has no nickname. */
  const DefaultUserName := "사용자"

  /** `canSendMessage`: something other than whitespace and newlines has
      been typed. */
  function CanSendMessage(content: string): bool {
    Trim(content) != []
  }

  /** A message can be sent exactly when it holds a visible character. */
  lemma CanSendIffVisible(content: string)
    ensures CanSendMessage(content) <==> exists i :: 0 <= i < |content| && !IsWhitespaceOrNewline(content[i])
  {
    TrimNonEmptyIffVisible(content);
  }

  /** The editor's cap on the typed text: text over the limit is cut to
      its first `MaxCharacterCount` characters. */
  function ClampContent(content: string): (r: string)
    ensures |r| <= MaxCharacterCount && |r| <= |content| && r == content[..|r|]
    ensures |content| <= MaxCharacterCount ==> r == content
  {
    if |content| > MaxCharacterCount then Prefix(content, MaxCharacterCount) else content
  }

  /** Clamping twice is clamping once, and clamping keeps as much text as
      the limit allows. */
  lemma ClampIdempotent(content: string)
    ensures ClampContent(ClampContent(content)) == ClampContent(content)
    ensures |ClampContent(content)| == if |content| < MaxCharacterCount then |content| else MaxCharacterCount
  {
  }

  /** The request a send issues for a chosen recipient. */
  function Request(recipient: Member, authorId: int, content: string, isAnonymous: bool, visibility: Visibility): (d: CreateGratitudeDto)
    ensures d.recipientId == recipient.id && d.authorId == authorId && d.contents == content
    ensures d.isAnonymous == isAnonymous && d.visibility == visibility
  {
    CreateGratitudeDto(recipient.id, authorId, content, isAnonymous, visibility)
  }

  class CreateModel {
    var currentUserId: int
    var currentUserName: string
    var recipient: Option<Member>
    var messageContent: string
    var isAnonymous: bool
    var visibility: Visibility
    var sendState: SendStates.SendState

    /** `init(container:modelContext:recipient:)`, with the stored user the
        initializer fetches passed in (`null` when there is none). */
    constructor (recipient: Option<Member>, user: StoredUser?)
      ensures this.recipient == recipient && messageContent == "" && !isAnonymous
      ensures visibility == Private && sendState == SendStates.Idle
      ensures user != null ==> currentUserId == user.id && currentUserName == user.nickname.GetOr(DefaultUserName)
      ensures user == null ==> currentUserId == 0 && currentUserName == ""
    {
      this.recipient := recipient;
      messageContent, isAnonymous, visibility := "", false, Private;
      sendState := SendStates.Idle;
      if user != null {
        currentUserId := user.id;
        currentUserName := user.nickname.GetOr(DefaultUserName);
      } else {
        currentUserId := 0;
        currentUserName := "";
      }
    }

    /** `sendGratitudeMessage` up to the request. Blank text does nothing; a
        missing recipient is a failure without a request; otherwise the
        state is `sending` and the request carries the editor's fields. */
    method SendGratitudeMessage() returns (request: Option<CreateGratitudeDto>)
      modifies this`sendState
      ensures !CanSendMessage(messageContent) ==> request == None && sendState == old(sendState)
      ensures CanSendMessage(messageContent) && recipient.None? ==>
        request == None && sendState == SendStates.Failure(NoRecipientMessage)
      ensures CanSendMessage(messageContent) && recipient.Some? ==>
        sendState == SendStates.Sending
        && request == Some(Request(recipient.value, currentUserId, messageContent, isAnonymous, visibility))
    {
      var canSend := CanSendMessage(messageContent);
      if !canSend {
        request := None;
      } else if recipient.None? {
        sendState := SendStates.Failure(NoRecipientMessage);
        request := None;
      } else {
        sendState := SendStates.Sending;
        request := Some(Request(recipient.value, currentUserId, messageContent, isAnonymous, visibility));
      }
    }

    /** The sink: success on a received value, the error's description on a
        failed completion. */
    method CompleteSend(outcome: Outcome<string>)
      modifies this`sendState
      ensures sendState == SendStates.Completed(outcome)
    {
      match outcome {
        case Pass => sendState := SendStates.Success;
        case Fail(description) => sendState := SendStates.Failure(description);
      }
    }

    /** `reset`: a blank, private, non-anonymous draft, back to `idle`. The
        recipient stays, and the blank draft cannot be sent. */
    method Reset()
      modifies this`messageContent, this`isAnonymous, this`visibility, this`sendState
      ensures messageContent == "" && !isAnonymous && visibility == Private && sendState == SendStates.Idle
      ensures !CanSendMessage(messageContent)
    {
      messageContent, isAnonymous, visibility := "", false, Private;
      sendState := SendStates.Idle;
    }

    /** `setSelfAsRecipient`, with the fetched stored user passed in: the
        recipient becomes that user, as a `Member`; with no stored user
        nothing changes. */
    method SetSelfAsRecipient(user: StoredUser?)
      modifies this`recipient
      ensures user != null ==> recipient == Some(user.AsMember())
      ensures user == null ==> recipient == old(recipient)
    {
      if user != null {
        recipient := Some(user.AsMember());
      }
    }

    /** The editor's length cap applied to the typed text. */
    method ApplyCharacterLimit()
      modifies this`messageContent
      ensures messageContent == ClampContent(old(messageContent))
    {
      if |messageContent| > MaxCharacterCount {
        messageContent := Prefix(messageContent, MaxCharacterCount);
      }
    }
  }
}

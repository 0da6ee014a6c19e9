# Gratitude-Coo core, modelled in Dafny

Gratitude-Coo is an iOS app for sending short thank-you messages ("gratitude
messages") between members. This project models the core of the app's
client:

- **Home feed** (`HomeViewModel`). It holds three independent, cursor-paginated message
  streams: messages to oneself, messages sent and messages received. Each stream has a
  loading flag that admits one request at a time, a forced refresh that
  clears it, and a "load more" trigger on the last item.
- **Member search** (`SearchViewModel`). It is keyword-driven, cursor-paginated and tracks
  whether more data is expected.
- **Requests.** `GratitudeEndpoint`, `UserEndpoint` and `AuthEndpoint` are modelled
  as path with query, HTTP method, JSON body and headers. Authentication uses HTTP Basic
  credentials: the UTF-8 bytes of `email:password`, base64-encoded.
- **Message tabs** (`MessageType`), with their prefixes and titles.
- **Composing and editing a message** (`CreateGratitudeViewModel`,
  `UpdateGratitudeViewModel`). This covers the send guard on visible content, the
  1000-character cap, the send state machine and the request built.
- **Profile editing** (`UserProfileEditViewModel`).
- **Token store** (`TokenManager`, over the keychain wrapper `KeychainService`).
- **Validators** (`SignInValidator`, `UserProfileValidator`).
- **Error types** (`NetworkError`, `UserError`), with their equality, mapping and
  descriptions.

Pure code is modelled as datatypes and functions:

- endpoints
- message types
- validators
- errors
- the DTOs

The view-models and the token store change state step by step. They are
classes whose methods update fields:

- `HomeViewModel.MessageStream`, `HomeViewModel.HomeModel`
- `SearchViewModel.SearchModel`
- `CreateGratitude.CreateModel`, `UpdateGratitude.UpdateModel`
- `UserProfileEdit.ProfileEditModel`
- `TokenManager.Keychain`, `TokenManager.Tokens`

Each method is proved against a pure function of the old state, such as
`Start`/`Finish` and `Begin`/`Finish`. The properties of the app are lemmas
about those functions.

Each Combine pipeline is split in two methods:

- The **issue** method runs the guards and the state changes made before the request.
  It returns the request as `Some(dto)`, or `None` when a guard stops the call.
- The **completion** method takes the service's outcome (`Success(value)` or
  `Failure(description)`). It applies the sink's `receiveValue` and `receiveCompletion`
  callbacks.

Modules, one per core file, plus shared helpers:

- `Wrappers`: Option, Result and Outcome.
- `Text`: trimming, decimals and splitting.
- `Base64`: UTF-8 and RFC 4648 section 4 base64, with round trips.
- `Dto`: the transfer objects and enums.

## Model

| member | source | states |
|---|---|---|
| Text.TrimNonEmptyIffVisible | Gratitude-Coo/View/CreateGratitude/CreateGratitudeViewModel.swift:38-40 | trimming whitespace and newlines leaves something exactly when the text holds a visible character |
| Text.TrimEmptyIffAllWhitespace | Gratitude-Coo/View/CreateGratitude/CreateGratitudeViewModel.swift:38-40 | the trimmed text is empty exactly when every character is whitespace or a newline |
| Text.IntToDecimalRoundTrip | Gratitude-Coo/Service/Gratitude/GratitudeEndpoint.swift:21-35 | an id interpolated into a path reads back as the same integer |
| Text.IntToDecimalInjective | Gratitude-Coo/Service/Gratitude/GratitudeEndpoint.swift:15-20 | different ids give different decimal texts |
| Base64.Utf8RoundTrip | Gratitude-Coo/Extension/String+Extension.swift:11-13 | decoding the UTF-8 encoding of any string gives the string back |
| Base64.RoundTrip | Gratitude-Coo/Extension/String+Extension.swift:11-13 | decoding the base64 text of any byte sequence gives the bytes back |
| Base64.Encode | Gratitude-Coo/Extension/String+Extension.swift:11-13 | the output has 4 characters per started group of 3 bytes |
| Base64.StringToBase64 | Gratitude-Coo/Extension/String+Extension.swift:11-13 | the result decodes, as base64 and then as UTF-8, back to the string |
| Dto.VisibilityRawValue | Gratitude-Coo/Service/Gratitude/GratitudeDTO.swift:3-6 | the raw value is "isPrivate" exactly for a private message and "isPublic" exactly for a public one |
| Dto.CursorSegment | Gratitude-Coo/Service/Gratitude/GratitudeEndpoint.swift:31-33 | a cursor segment is present exactly when a non-empty cursor is given, and then it is `&cursor=` followed by that cursor |
| NetworkErrors.EqualIffSameCase | Gratitude-Coo/Service/Network/NetworkError.swift:19-39 | two errors are equal exactly when they are the same case and, for HTTP errors, have the same status code; payload data is ignored |
| NetworkErrors.EqualIsEquivalence | Gratitude-Coo/Service/Network/NetworkError.swift:19-39 | `==` is reflexive, symmetric and transitive |
| NetworkErrors.Description | Gratitude-Coo/Service/Network/NetworkError.swift:43-60 | every error has a non-empty description |
| NetworkErrors.HttpDescriptionEmbedsCode | Gratitude-Coo/Service/Network/NetworkError.swift:51-52 | an HTTP error's description is the fixed prefix followed by the status code in decimal, so the code can be read back |
| NetworkErrors.EqualValuesDescribedAlike | Gratitude-Coo/Service/Network/NetworkError.swift:19-60 | equal errors have the same description, except request failures, whose description shows the detail `==` ignores |
| UserErrors.EqualPayloadFreeCases | Gratitude-Coo/Service/User/UserError.swift:18-32 | for the cases without payload, `==` is structural equality |
| UserErrors.EqualDifferentCases | Gratitude-Coo/Service/User/UserError.swift:18-32 | errors of different cases (by their position in the declaration) are never equal |
| UserErrors.EqualIsEquivalence | Gratitude-Coo/Service/User/UserError.swift:18-32 | `==` is reflexive, symmetric and transitive, with wrapped network errors compared by their own `==` |
| UserErrors.MapFromNetworkError | Gratitude-Coo/Service/User/UserError.swift:53-60 | an unauthorized network error becomes `unauthorized`; every other one is wrapped unchanged |
| UserErrors.MapRespectsEqual | Gratitude-Coo/Service/User/UserError.swift:53-60 | equal network errors map to equal user errors |
| UserErrors.Description | Gratitude-Coo/Service/User/UserError.swift:36-51 | a wrapped network error is described as the network error; an unknown error by its message |
| UserErrors.MappedDescription | Gratitude-Coo/Service/User/UserError.swift:36-60 | every network error other than unauthorized keeps its description once mapped |
| UserErrors.UnauthorizedDescriptionReplaced | Gratitude-Coo/Service/User/UserError.swift:36-60 | a mapped unauthorized error is shown with the user service's own text, which differs from the transport's |
| MessageTypes.AllCasesComplete | Gratitude-Coo/General/Component/organism/Message/MessageType.swift:4-7 | `allCases` lists each of the three tabs, once each |
| MessageTypes.RawValueInjective | Gratitude-Coo/General/Component/organism/Message/MessageType.swift:4-7 | different tabs have different raw values |
| MessageTypes.Prefix | Gratitude-Coo/General/Component/organism/Message/MessageType.swift:9-18 | the prefix is empty exactly for the self-to-self tab |
| MessageTypes.LabelsInCaseOrder | Gratitude-Coo/General/Component/organism/Message/MessageType.swift:9-29 | the prefixes and titles of the three tabs, in case order |
| MessageTypes.TabBarTitleIsTitle | Gratitude-Coo/General/Component/organism/Message/MessageType.swift:20-40 | the tab bar shows each tab's title |
| GratitudeEndpoints.BuildListPath | Gratitude-Coo/Service/Gratitude/GratitudeEndpoint.swift:21-35 | the step-by-step built list path equals the list path |
| GratitudeEndpoints.ListPathMemberId | Gratitude-Coo/Service/Gratitude/GratitudeEndpoint.swift:21-35 | the member id can be read back from the list path |
| GratitudeEndpoints.ListPathCursor | Gratitude-Coo/Service/Gratitude/GratitudeEndpoint.swift:31-33 | the list path ends with a cursor segment exactly when a non-empty cursor is given |
| GratitudeEndpoints.ListPathPostType | Gratitude-Coo/Service/Gratitude/GratitudeEndpoint.swift:21-35 | a post type adds its raw value as a segment after the order and before any cursor |
| GratitudeEndpoints.Path | Gratitude-Coo/Service/Gratitude/GratitudeEndpoint.swift:13-41 | create goes to the collection, a list to the list path, and the item operations to the item's path |
| GratitudeEndpoints.ItemPathInjective | Gratitude-Coo/Service/Gratitude/GratitudeEndpoint.swift:15-20 | different messages have different item paths |
| GratitudeEndpoints.Method | Gratitude-Coo/Service/Gratitude/GratitudeEndpoint.swift:43-56 | which endpoints use POST, PUT, DELETE and GET, each as an if-and-only-if |
| GratitudeEndpoints.CreateBody | Gratitude-Coo/Service/Gratitude/GratitudeEndpoint.swift:60-67 | the create body has exactly its five keys, with the DTO's values and the visibility's raw value |
| GratitudeEndpoints.UpdateBody | Gratitude-Coo/Service/Gratitude/GratitudeEndpoint.swift:68-75 | an update body key is present exactly when its field is set, and then it carries that value |
| GratitudeEndpoints.BuildUpdateBody | Gratitude-Coo/Service/Gratitude/GratitudeEndpoint.swift:68-75 | the step-by-step built update body equals the update body |
| GratitudeEndpoints.EmptyUpdateBody | Gratitude-Coo/Service/Gratitude/GratitudeEndpoint.swift:68-75 | an update with no field set sends an empty object |
| GratitudeEndpoints.Body | Gratitude-Coo/Service/Gratitude/GratitudeEndpoint.swift:58-79 | only create and update carry a body |
| GratitudeEndpoints.QueryParametersAbsent | Gratitude-Coo/Service/Gratitude/GratitudeEndpoint.swift:81-83 | no endpoint has separate query parameters |
| GratitudeEndpoints.BuildHeaders | Gratitude-Coo/Service/Gratitude/GratitudeEndpoint.swift:85-99 | every endpoint sends exactly a Bearer authorization header with its token |
| UserEndpoints.BuildSearchPath | Gratitude-Coo/Service/User/UserEndpoint.swift:22-35 | the step-by-step built search path equals the search path |
| UserEndpoints.SearchSegment | Gratitude-Coo/Service/User/UserEndpoint.swift:28-30 | the search segment is present exactly when a search term is given |
| UserEndpoints.SearchPathSegments | Gratitude-Coo/Service/User/UserEndpoint.swift:22-35 | the search path is the take/order path followed by the search segment and then the cursor segment |
| UserEndpoints.Path | Gratitude-Coo/Service/User/UserEndpoint.swift:12-37 | all members, a single member and the search each get their path |
| UserEndpoints.AllMembersPathIsNoMemberPath | Gratitude-Coo/Service/User/UserEndpoint.swift:14-21 | the all-members path is never a member's path |
| UserEndpoints.Method | Gratitude-Coo/Service/User/UserEndpoint.swift:39-48 | which endpoints use GET, PUT and DELETE, each as an if-and-only-if |
| UserEndpoints.UpdateBody | Gratitude-Coo/Service/User/UserEndpoint.swift:50-63 | an update body key is present exactly when its field is set, and then it carries that value; no other key appears |
| UserEndpoints.BuildUpdateBody | Gratitude-Coo/Service/User/UserEndpoint.swift:50-63 | the step-by-step built update body equals the update body |
| UserEndpoints.Body | Gratitude-Coo/Service/User/UserEndpoint.swift:50-63 | only the member update carries a body |
| UserEndpoints.Headers | Gratitude-Coo/Service/User/UserEndpoint.swift:65-76 | only update and remove send headers, and those are exactly the Bearer authorization header |
| UserEndpoints.BuildHeaders | Gratitude-Coo/Service/User/UserEndpoint.swift:65-76 | the step-by-step built headers equal the headers |
| AuthEndpoints.Path | Gratitude-Coo/Service/Auth/AuthEndpoint.swift:14-21 | register goes to "/auth/register" and login to "/auth/login", each as an if-and-only-if |
| AuthEndpoints.Method | Gratitude-Coo/Service/Auth/AuthEndpoint.swift:23-28 | both endpoints use POST |
| AuthEndpoints.Headers | Gratitude-Coo/Service/Auth/AuthEndpoint.swift:30-39 | the only header is a Basic authorization header with the base64 credentials |
| AuthEndpoints.BodyAbsent | Gratitude-Coo/Service/Auth/AuthEndpoint.swift:41-43 | neither endpoint has a body |
| AuthEndpoints.RegisterAndLoginShareHeaders | Gratitude-Coo/Service/Auth/AuthEndpoint.swift:30-39 | register and login send the same credentials |
| AuthEndpoints.CredentialsDecode | Gratitude-Coo/Service/Auth/AuthEndpoint.swift:30-39 | the credentials decode back to the UTF-8 bytes of `email:password`, so a server splitting at the first colon recovers both when the email has none |
| UserProfileValidator.Validate | Gratitude-Coo/Util/UserProfileValidator.swift:11-29 | a profile is valid exactly when the name and the nickname both have at least two characters and no line terminator, which the regular expression's `.` does not match |
| UserProfileValidator.LineBreakRejected | Gratitude-Coo/Util/UserProfileValidator.swift:18-29 | two characters make a valid field, but not with a line break or line separator between them |
| SignInValidator.IndexOf | Gratitude-Coo/Util/SignInValidator.swift:18-22 | the first position of a character, or none exactly when it is absent |
| SignInValidator.LastIndexOf | Gratitude-Coo/Util/SignInValidator.swift:18-22 | the last position of a character, or none exactly when it is absent |
| SignInValidator.IsValidEmail | Gratitude-Coo/Util/SignInValidator.swift:18-22 | an accepted email contains '@' and '.', and the part after the last '.' has two or more ASCII letters |
| SignInValidator.IsValidEmailIffPattern | Gratitude-Coo/Util/SignInValidator.swift:18-22 | the scanning check accepts exactly the texts that match the email pattern |
| SignInValidator.PatternPositions | Gratitude-Coo/Util/SignInValidator.swift:18-22 | any local@domain.tld text with the pattern's parts is accepted |
| SignInValidator.Validate | Gratitude-Coo/Util/SignInValidator.swift:11-16 | an empty email or password is rejected |
| SignInValidator.ValidateIsFieldChecks | Gratitude-Coo/Util/SignInValidator.swift:11-29 | the form is valid exactly when the email matches the pattern and the password has at least six characters and no line terminator |
| SignInValidator.PasswordLineBreakRejected | Gratitude-Coo/Util/SignInValidator.swift:24-29 | a six-character password is accepted, but not one with a line break inside |
| SignInValidator.SignUpFormValid | Gratitude-Coo/View/SignUp/SignUpView.swift:20-23 | sign-up is enabled exactly when email and confirmation are non-empty and the confirmation matches the password |
| HomeViewModel.PostTypeFor | Gratitude-Coo/View/Home/HomeViewModel.swift:62-176 | each stream queries its own post type, as a one-to-one correspondence |
| HomeViewModel.Query | Gratitude-Coo/View/Home/HomeViewModel.swift:72-78 | a stream's request carries the member, its post type, the cursor, newest-first order and a page of 5 |
| HomeViewModel.QueriesOfStreamsDiffer | Gratitude-Coo/View/Home/HomeViewModel.swift:62-176 | requests of different streams always differ |
| HomeViewModel.Start | Gratitude-Coo/View/Home/HomeViewModel.swift:63-78 | a loading stream is untouched; otherwise it becomes loading, is cleared on a forced refresh and keeps its messages and cursor otherwise |
| HomeViewModel.Finish | Gratitude-Coo/View/Home/HomeViewModel.swift:83-95 | a page is appended after the old messages and its cursor taken; a failure keeps messages and cursor; loading ends either way |
| HomeViewModel.OneRequestInFlight | Gratitude-Coo/View/Home/HomeViewModel.swift:63 | a second load while the first is in flight changes nothing |
| HomeViewModel.FailedLoadRestores | Gratitude-Coo/View/Home/HomeViewModel.swift:63-90 | a failed load returns the stream to where it was, or to empty after a forced refresh |
| HomeViewModel.PaginateAppends | Gratitude-Coo/View/Home/HomeViewModel.swift:62-98 | after any number of completed loads the messages are the old ones followed by all pages in order, and the cursor is the last page's |
| HomeViewModel.ConcatAppend | Gratitude-Coo/View/Home/HomeViewModel.swift:91-95 | pages concatenated in two runs give the pages concatenated at once |
| HomeViewModel.RefreshThenPaginate | Gratitude-Coo/View/Home/HomeViewModel.swift:202-206 | after a refresh and further pages, the stream holds exactly those pages in order |
| HomeViewModel.IsLastItem | Gratitude-Coo/View/Home/HomeViewModel.swift:196-199 | an item is last exactly when it has the id of the last message |
| HomeViewModel.ShouldLoadMore | Gratitude-Coo/View/Home/HomeViewModel.swift:179-194 | more is loaded only for a stream with messages and a cursor |
| HomeViewModel.LastPageStopsLoadMore | Gratitude-Coo/View/Home/HomeViewModel.swift:179-194 | once a page without cursor arrives, no item triggers another load |
| HomeViewModel.MessageStream.constructor | Gratitude-Coo/View/Home/HomeViewModel.swift:16-31 | a stream starts empty, idle and without cursor |
| HomeViewModel.MessageStream.Load | Gratitude-Coo/View/Home/HomeViewModel.swift:62-81 | the new state is `Start` of the old one; a request is sent exactly when nothing was loading, and it is the stream's query with the current cursor |
| HomeViewModel.MessageStream.Complete | Gratitude-Coo/View/Home/HomeViewModel.swift:83-95 | the new state is `Finish` of the old one; a failure is reported exactly when the outcome failed |
| HomeViewModel.HomeModel.Stream | Gratitude-Coo/View/Home/HomeViewModel.swift:16-31 | each tab has its own stream |
| HomeViewModel.HomeModel.StreamKind | Gratitude-Coo/View/Home/HomeViewModel.swift:16-31 | each stream holds its own tab's messages, and the three streams are distinct objects |
| HomeViewModel.HomeModel.constructor | Gratitude-Coo/View/Home/HomeViewModel.swift:13-31 | all three streams start empty and idle |
| HomeViewModel.HomeModel.LoadMessages | Gratitude-Coo/View/Home/HomeViewModel.swift:62-176 | the tab's stream moves by `Start`, the other two are unchanged, and the request is the tab's query |
| HomeViewModel.HomeModel.CompleteLoad | Gratitude-Coo/View/Home/HomeViewModel.swift:83-95 | the tab's stream moves by `Finish`, the other two are unchanged, and a failure's description becomes the error message |
| HomeViewModel.HomeModel.LoadMoreIfNeeded | Gratitude-Coo/View/Home/HomeViewModel.swift:179-194 | a load is issued exactly when the item is last, a cursor exists and nothing loads; otherwise nothing changes |
| HomeViewModel.HomeModel.RefreshAll | Gratitude-Coo/View/Home/HomeViewModel.swift:202-206 | every stream is force-refreshed, and each idle stream requests its first page |
| HomeViewModel.HomeModel.IsLoading | Gratitude-Coo/View/Home/HomeViewModel.swift:209-218 | the tab's stream's loading flag |
| HomeViewModel.HomeModel.Messages | Gratitude-Coo/View/Home/HomeViewModel.swift:220-229 | the tab's stream's messages |
| SearchViewModel.SearchQuery | Gratitude-Coo/View/Search/SearchViewModel.swift:50-55 | the search term is absent exactly for an empty keyword, with newest-first order and a page of 10 |
| SearchViewModel.HasNext | Gratitude-Coo/View/Search/SearchViewModel.swift:23-25 | a next page exists exactly when more data is expected and a cursor is known |
| SearchViewModel.Proceeds | Gratitude-Coo/View/Search/SearchViewModel.swift:35-38 | the guards as written: never while loading, and never without more data unless forced |
| SearchViewModel.Begin | Gratitude-Coo/View/Search/SearchViewModel.swift:33-48 | the guards as written: a stopped call changes nothing; otherwise loading starts for the keyword, cleared when it is new or forced |
| SearchViewModel.Finish | Gratitude-Coo/View/Search/SearchViewModel.swift:60-86 | a page is appended and its cursor taken, and more data is expected exactly when a cursor came back with a full page; a failure keeps the rest |
| SearchViewModel.IsLastItem | Gratitude-Coo/View/Search/SearchViewModel.swift:106-109 | an item is last exactly when it has the id of the last member shown |
| SearchViewModel.NewKeywordIgnoredAfterShortPage | Gratitude-Coo/View/Search/SearchViewModel.swift:35-46 | with the guards as written, after a short page a new keyword starts no search and the old results stay |
| SearchViewModel.NewKeywordIgnoredExample | Gratitude-Coo/View/Search/SearchViewModel.swift:35-46 | a concrete run: an unfiltered listing of three members, then "kim" is ignored |
| SearchViewModel.ProceedsIntended | Gratitude-Coo/View/Search/SearchViewModel.swift:35-46 | the corrected guards also let a new keyword through whenever nothing loads |
| SearchViewModel.BeginIntended | Gratitude-Coo/View/Search/SearchViewModel.swift:33-48 | the corrected order resets for a new keyword first, and agrees with the original for a repeated keyword or a forced refresh |
| SearchViewModel.IntendedNewKeywordSearches | Gratitude-Coo/View/Search/SearchViewModel.swift:40-46 | in the corrected order a new keyword always starts a fresh search when nothing loads |
| SearchViewModel.IntendedDiffersOnlyOnNewKeyword | Gratitude-Coo/View/Search/SearchViewModel.swift:35-46 | the two orders differ exactly on an unforced new keyword after the last page |
| SearchViewModel.PaginateAppends | Gratitude-Coo/View/Search/SearchViewModel.swift:92-96 | while pages are full and carry cursors, repeated loads append every page in order |
| SearchViewModel.SearchModel.constructor | Gratitude-Coo/View/Search/SearchViewModel.swift:6-20 | the search starts empty, idle, expecting data, with an empty keyword |
| SearchViewModel.SearchModel.HasNextPage | Gratitude-Coo/View/Search/SearchViewModel.swift:23-25 | more data is expected and a cursor is known |
| SearchViewModel.SearchModel.SearchMember | Gratitude-Coo/View/Search/SearchViewModel.swift:33-57 | the new state is `BeginIntended` of the old; a request is sent exactly when the corrected guards pass, for the keyword and the current cursor |
| SearchViewModel.SearchModel.Complete | Gratitude-Coo/View/Search/SearchViewModel.swift:57-86 | the new state is `Finish` of the old; a failure's description becomes the error message |
| SearchViewModel.SearchModel.LoadMoreMembers | Gratitude-Coo/View/Search/SearchViewModel.swift:92-96 | a request for the next page is sent exactly when a next page exists and nothing loads; otherwise nothing changes |
| SearchViewModel.SearchModel.LoadMoreIfNeeded | Gratitude-Coo/View/Search/SearchViewModel.swift:99-103 | the next page is requested exactly when the item is last, a next page exists and nothing loads |
| SearchViewModel.SearchModel.RefreshCurrentSearch | Gratitude-Coo/View/Search/SearchViewModel.swift:112-114 | a forced search for the current keyword from no cursor, sent exactly when nothing loads |
| SendStates.Completed | Gratitude-Coo/View/CreateGratitude/CreateGratitudeViewModel.swift:84-95 | the send state is success exactly when the request succeeded, and failure with the error's description exactly when it failed |
| StoredUsers.StoredUser.AsMember | Gratitude-Coo/View/CreateGratitude/CreateGratitudeViewModel.swift:107-119 | the member made from the user carries its id, email and profile image, and its name and nickname or empty text when unset |
| CreateGratitude.CanSendIffVisible | Gratitude-Coo/View/CreateGratitude/CreateGratitudeViewModel.swift:38-40 | a message can be sent exactly when it contains a visible character |
| CreateGratitude.ClampContent | Gratitude-Coo/View/CreateGratitude/CreateGratitudeView.swift:175-178 | the capped text is a prefix of at most 1000 characters, and the text itself when it fits |
| CreateGratitude.ClampIdempotent | Gratitude-Coo/View/CreateGratitude/CreateGratitudeView.swift:175-178 | capping twice is capping once, and the capped length is the smaller of the length and 1000 |
| CreateGratitude.Request | Gratitude-Coo/View/CreateGratitude/CreateGratitudeViewModel.swift:73-79 | the request carries the recipient's id, the author, the text, the anonymity and the visibility |
| CreateGratitude.CreateModel.constructor | Gratitude-Coo/View/CreateGratitude/CreateGratitudeViewModel.swift:46-61 | an empty, named, private, idle composer for the recipient, with the current user's id and nickname or "사용자" |
| CreateGratitude.CreateModel.SendGratitudeMessage | Gratitude-Coo/View/CreateGratitude/CreateGratitudeViewModel.swift:64-82 | nothing is sent without visible content; without a recipient the state fails with the recipient message; otherwise the state is sending and the request is `Request` |
| CreateGratitude.CreateModel.CompleteSend | Gratitude-Coo/View/CreateGratitude/CreateGratitudeViewModel.swift:84-95 | the send state becomes `Completed` of the outcome |
| CreateGratitude.CreateModel.Reset | Gratitude-Coo/View/CreateGratitude/CreateGratitudeViewModel.swift:99-104 | the composer is empty, named, private and idle, and cannot send |
| CreateGratitude.CreateModel.SetSelfAsRecipient | Gratitude-Coo/View/CreateGratitude/CreateGratitudeViewModel.swift:107-119 | with a current user, the recipient becomes that user as a member; otherwise it is unchanged |
| CreateGratitude.CreateModel.ApplyCharacterLimit | Gratitude-Coo/View/CreateGratitude/CreateGratitudeView.swift:175-178 | the content becomes its capped form |
| UpdateGratitude.Request | Gratitude-Coo/View/UpdateGratitude/UpdateGratitudeViewModel.swift:77-83 | the update request is for the message's id and sets exactly the text, the anonymity and the visibility |
| UpdateGratitude.RequestBody | Gratitude-Coo/Service/Gratitude/GratitudeEndpoint.swift:68-75 | the update body for an edit has exactly the keys contents, isAnonymous and visibility, with the edited values |
| UpdateGratitude.UpdateModel.constructor | Gratitude-Coo/View/UpdateGratitude/UpdateGratitudeViewModel.swift:49-69 | the editor starts from the message's id, text, anonymity, visibility and recipient, idle, with the current user's id and nickname or "User" |
| UpdateGratitude.UpdateModel.UpdateGratitudeMessage | Gratitude-Coo/View/UpdateGratitude/UpdateGratitudeViewModel.swift:72-84 | nothing is sent without visible content; otherwise the state is sending and the request is `Request` for the message |
| UpdateGratitude.UpdateModel.CompleteUpdate | Gratitude-Coo/View/UpdateGratitude/UpdateGratitudeViewModel.swift:86-97 | the send state becomes `Completed` of the outcome |
| UpdateGratitude.UpdateModel.Reset | Gratitude-Coo/View/UpdateGratitude/UpdateGratitudeViewModel.swift:101-103 | the send state is idle again and nothing else changes |
| UserProfileEdit.ProfileDto | Gratitude-Coo/View/UserProfile/UserProfileEditViewModel.swift:41-52 | the DTO carries the name and nickname, with an empty profile when an image is chosen and the stored profile otherwise |
| UserProfileEdit.AsMemberUpdate | Gratitude-Coo/Service/User/UserService.swift:67-76 | the member update carries name, nickname and profile, and never an email or password |
| UserProfileEdit.ProfileBody | Gratitude-Coo/Service/User/UserEndpoint.swift:50-63 | a profile edit sends exactly name and nickname, plus profile when there is one |
| UserProfileEdit.ProfileEditModel.constructor | Gratitude-Coo/View/UserProfile/UserProfileEditViewModel.swift:12-14 | not loading, no error, not successful |
| UserProfileEdit.ProfileEditModel.Send | Gratitude-Coo/View/UserProfile/UserProfileEditViewModel.swift:25-30 | the update action behaves as `UpdateProfileRequest` |
| UserProfileEdit.ProfileEditModel.UpdateProfileRequest | Gratitude-Coo/View/UserProfile/UserProfileEditViewModel.swift:32-55 | without a user the error is member-not-found and nothing is sent; otherwise loading starts and the request is the user's `ProfileDto` |
| UserProfileEdit.ProfileEditModel.Complete | Gratitude-Coo/View/UserProfile/UserProfileEditViewModel.swift:56-71 | loading ends; a success copies name, nickname and profile into the user and marks success; a failure records the error and leaves the user as it was |
| TokenManager.SaveItem | Gratitude-Coo/Service/Auth/KeychainService.swift:32-48 | only the add decides the outcome; a successful add stores the data under the key; a failed add reports its status, and the old item is gone exactly when the ignored delete before it removed it |
| TokenManager.ReadItem | Gratitude-Coo/Service/Auth/KeychainService.swift:50-75 | the stored data exactly when the key is present, otherwise item-not-found |
| TokenManager.DeleteItem | Gratitude-Coo/Service/Auth/KeychainService.swift:77-89 | success and not-found both succeed and remove the key; any other status is reported and nothing changes |
| TokenManager.ReadToken | Gratitude-Coo/Service/Auth/TokenManager.swift:42-56 | a missing item is item-not-found; a stored item is read as its UTF-8 decoding, or as invalid-item-format when it is not UTF-8 |
| TokenManager.SaveBoth | Gratitude-Coo/Service/Auth/TokenManager.swift:32-40 | saving succeeds exactly when both adds do; a failed access-token write is the only write |
| TokenManager.ClearBoth | Gratitude-Coo/Service/Auth/TokenManager.swift:58-61 | a failed access-token delete leaves the store unchanged |
| TokenManager.SaveThenRead | Gratitude-Coo/Service/Auth/KeychainService.swift:32-75 | a token written successfully reads back unchanged, whatever the delete before the add reported |
| TokenManager.SaveTokensRoundTrip | Gratitude-Coo/Service/Auth/TokenManager.swift:32-56 | after a successful save both getters return the saved tokens and other items are kept |
| TokenManager.FailedAccessWriteSkipsRefresh | Gratitude-Coo/Service/Auth/TokenManager.swift:32-40 | a failed access-token write reports its status and leaves the refresh token as it was; the old access token is gone when the delete before the add removed it, and otherwise nothing changed |
| TokenManager.ClearTokensRemovesBoth | Gratitude-Coo/Service/Auth/TokenManager.swift:58-61 | after a successful clear neither token can be read |
| TokenManager.SaveTokensKeepsText | Gratitude-Coo/Service/Auth/TokenManager.swift:32-40 | saving keeps every keychain item well-formed UTF-8 |
| TokenManager.ReadableIffPresent | Gratitude-Coo/Service/Auth/TokenManager.swift:42-56 | on a store of well-formed items a token is readable exactly when its item exists |
| TokenManager.Keychain.Save | Gratitude-Coo/Service/Auth/KeychainService.swift:32-48 | the new items and the outcome are `SaveItem` of the old items |
| TokenManager.Keychain.Read | Gratitude-Coo/Service/Auth/KeychainService.swift:50-75 | the result is `ReadItem` of the items |
| TokenManager.Keychain.Delete | Gratitude-Coo/Service/Auth/KeychainService.swift:77-89 | the new items and the outcome are `DeleteItem` of the old items |
| TokenManager.Tokens.SaveTokens | Gratitude-Coo/Service/Auth/TokenManager.swift:32-40 | the new items and the outcome are `SaveBoth` of the old items |
| TokenManager.Tokens.GetAccessToken | Gratitude-Coo/Service/Auth/TokenManager.swift:42-48 | the access token as `ReadToken` reads it |
| TokenManager.Tokens.GetRefreshToken | Gratitude-Coo/Service/Auth/TokenManager.swift:50-56 | the refresh token as `ReadToken` reads it |
| TokenManager.Tokens.ClearTokens | Gratitude-Coo/Service/Auth/TokenManager.swift:58-61 | the new items and the outcome are `ClearBoth` of the old items |
| TokenManager.Tokens.IsAuthenticated | Gratitude-Coo/Service/Auth/TokenManager.swift:63-70 | authenticated exactly when the access token can be read, which on well-formed items is exactly when it is stored |

## Left out

- Networking, Combine scheduling, `[weak self]` captures and the asynchrony
  between a request and its completion. Each request becomes an issue method and a
  completion method that the caller runs in order. Interleavings are modelled only to
  the extent of the loading flags.
- SwiftData fetching and saving of the current user. The fetched user
  (`StoredUser`, or `null` when none) is a parameter. A failure to save is not modelled.
- The keychain's Security framework calls. The status of each add and each delete,
  including the delete that `save` makes before its add and whose status it ignores, is a
  parameter. Read failures other than "item not found" (another status, or data of the
  wrong type) are not modelled.
- JSON encoding and decoding of response bodies. Responses arrive as DTO values. The
  `localizedDescription` of a service error is a string parameter.
- Images: the profile image picker and its upload. Only the "an image was chosen"
  flag is modelled.
- `GratitudeError`, the authentication service, the app container and all SwiftUI
  views. Exceptions are the character cap of `CreateGratitudeView` and the sign-up
  button condition of `SignUpView`.
- Text.IsWhitespaceOrNewline: is a fixed set of Unicode whitespace and newline
  characters. Character counts are code-point counts, not grapheme clusters.
- Base64.Utf8Decode: accepts overlong encodings (such as C0 80), which Foundation rejects.
  Only well-formed encodings are ever stored.
- UpdateGratitude.Request: the source builds the update DTO with a three-argument
  initializer that `UpdateGratitudeDto` does not declare. The model leaves the
  recipient and author fields unset.
- SearchViewModel.SearchModel.SearchMember: follows the corrected guard order of
  `BeginIntended`, not the order as written. The as-written behaviour is `Begin`
  (see Findings).

## Findings

| source | as written | input that shows it | evidently intended | confidence | as-written member | corrected member |
|---|---|---|---|---|---|---|
| Gratitude-Coo/View/Search/SearchViewModel.swift:35-46 | the "no more data" guard runs before the new-keyword reset, so once a page shorter than 10 has arrived, every unforced search for a different keyword returns early; the debounced search field calls it unforced | list all members (empty keyword) and receive 3 members without a cursor, then type "kim": no request is made and the 3 unfiltered members stay on screen | a new keyword resets the list and searches; the "no more data" guard applies only to repeated searches for the same keyword | not executed | SearchViewModel.NewKeywordIgnoredExample | SearchViewModel.IntendedNewKeywordSearches |

/** `UserError` (Service/User/UserError.swift): the user service's errors,
    their `==`, their descriptions and the mapping from `NetworkError`. */
module UserErrors {
  import NE = NetworkErrors

  datatype UserError =
    | InvalidResponse
    | MemberNotFound
    | Unauthorized
    | NetworkError(cause: NE.NetworkError)
    | Unknown(message: string)
    | NotFound

  /** The hand-written `==`: `networkError` compares its causes with
      `NetworkError`'s `==`, `unknown` compares messages, and different cases
      are never equal. */
  predicate Equal(a: UserError, b: UserError) {
    match (a, b)
    case (InvalidResponse, InvalidResponse) => true
    case (MemberNotFound, MemberNotFound) => true
    case (Unauthorized, Unauthorized) => true
    case (NotFound, NotFound) => true
    case (NetworkError(e1), NetworkError(e2)) => NE.Equal(e1, e2)
    case (Unknown(m1), Unknown(m2)) => m1 == m2
    case _ => false
  }

  /** A payload-free case is equal only to itself. */
  lemma EqualPayloadFreeCases(a: UserError, b: UserError)
    requires a.InvalidResponse? || a.MemberNotFound? || a.Unauthorized? || a.NotFound?
    ensures Equal(a, b) <==> a == b
  {
  }

  /** The position of a value's case in the declaration. */
  function CaseIndex(e: UserError): (k: nat)
    ensures k < 6
  {
    match e
    case InvalidResponse => 0
    case MemberNotFound => 1
    case Unauthorized => 2
    case NetworkError(_) => 3
    case Unknown(_) => 4
    case NotFound => 5
  }

  /** Values of different cases are never equal. */
  lemma EqualDifferentCases(a: UserError, b: UserError)
    requires CaseIndex(a) != CaseIndex(b)
    ensures !Equal(a, b)
  {
  }

  /** `==` is an equivalence relation, because `NetworkError`'s is. */
  lemma EqualIsEquivalence(a: UserError, b: UserError, c: UserError)
    ensures Equal(a, a)
    ensures Equal(a, b) ==> Equal(b, a)
    ensures Equal(a, b) && Equal(b, c) ==> Equal(a, c)
  {
    if a.NetworkError? && b.NetworkError? && c.NetworkError? {
      NE.EqualIsEquivalence(a.cause, b.cause, c.cause);
    } else if a.NetworkError? {
      NE.EqualIsEquivalence(a.cause, a.cause, a.cause);
    }
  }

  /** `mapFromNetworkError`. */
  function MapFromNetworkError(e: NE.NetworkError): (r: UserError)
    ensures r.Unauthorized? <==> e.Unauthorized?
    ensures !e.Unauthorized? ==> r == NetworkError(e)
    ensures r.Unauthorized? || r.NetworkError?
  {
    match e
    case Unauthorized => Unauthorized
    case _ => NetworkError(e)
  }

  /** The mapping respects `==`: equal network errors give equal user errors. */
  lemma MapRespectsEqual(a: NE.NetworkError, b: NE.NetworkError)
    ensures NE.Equal(a, b) ==> Equal(MapFromNetworkError(a), MapFromNetworkError(b))
  {
  }

  /** `errorDescription`. `NSLocalizedString` is read as the identity: the
      repository ships no string table. */
  function Description(e: UserError): (r: string)
    ensures e.NetworkError? ==> r == NE.Description(e.cause)
    ensures e.Unknown? ==> r == e.message
  {
    match e
    case InvalidResponse => "서버로부터 잘못된 응답을 받았습니다"
    case MemberNotFound => "사용자를 찾을 수 없습니다"
    case Unauthorized => "인증되지 않은 접근입니다"
    case NetworkError(cause) => NE.Description(cause)
    case Unknown(message) => message
    case NotFound => "요청한 리소스를 찾을 수 없습니다"
  }

  /** A network error other than `unauthorized` reaches the user with the
      transport's own description. */
  lemma MappedDescription(e: NE.NetworkError)
    requires !e.Unauthorized?
    ensures Description(MapFromNetworkError(e)) == NE.Description(e)
  {
  }

  /** An `unauthorized` network error, once mapped, is shown with the user
      service's own text instead of the transport's. */
  lemma UnauthorizedDescriptionReplaced()
    ensures Description(MapFromNetworkError(NE.Unauthorized)) == "인증되지 않은 접근입니다"
    ensures Description(MapFromNetworkError(NE.Unauthorized)) != NE.Description(NE.Unauthorized)
  {
  }
}

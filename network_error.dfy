/** `NetworkError` (Service/Network/NetworkError.swift): the transport's error
    cases, its hand-written `==` and its user-facing descriptions. */
module NetworkErrors {
  import opened Wrappers
  import opened Text
  import Base64

  /** The payloads Swift cannot compare (`Error`, `DecodingError`) are kept as
      their descriptions; `Data` is kept as bytes. */
  datatype NetworkError =
    | InvalidRequest
    | InvalidResponse
    | RequestFailed(detail: string)
    | HttpError(statusCode: int, data: seq<Base64.Byte>)
    | DecodingFailed(detail: string)
    | Unauthorized
    | Unknown(detail: string)

  /** The hand-written `==`: payloads are ignored except the status code of
      `httpError`, and different cases are never equal. */
  predicate Equal(a: NetworkError, b: NetworkError) {
    match (a, b)
    case (InvalidRequest, InvalidRequest) => true
    case (InvalidResponse, InvalidResponse) => true
    case (Unauthorized, Unauthorized) => true
    case (RequestFailed(_), RequestFailed(_)) => true
    case (HttpError(c1, _), HttpError(c2, _)) => c1 == c2
    case (DecodingFailed(_), DecodingFailed(_)) => true
    case (Unknown(_), Unknown(_)) => true
    case _ => false
  }

  /** The position of a value's case in the declaration, an independent way
      to tell cases apart. */
  function CaseIndex(e: NetworkError): (k: nat)
    ensures k < 7
  {
    match e
    case InvalidRequest => 0
    case InvalidResponse => 1
    case RequestFailed(_) => 2
    case HttpError(_, _) => 3
    case DecodingFailed(_) => 4
    case Unauthorized => 5
    case Unknown(_) => 6
  }

  /** `==` holds exactly between values of the same case, with equal status
      codes when the case is `httpError`. */
  lemma EqualIffSameCase(a: NetworkError, b: NetworkError)
    ensures Equal(a, b) <==> CaseIndex(a) == CaseIndex(b) && (a.HttpError? ==> a.statusCode == b.statusCode)
  {
  }

  /** `==` is an equivalence relation. */
  lemma EqualIsEquivalence(a: NetworkError, b: NetworkError, c: NetworkError)
    ensures Equal(a, a)
    ensures Equal(a, b) ==> Equal(b, a)
    ensures Equal(a, b) && Equal(b, c) ==> Equal(a, c)
  {
  }

  const HttpErrorPrefix: string := "서버 오류 (코드: "

  /** `errorDescription`. */
  function Description(e: NetworkError): (r: string)
    ensures |r| > 0
  {
    match e
    case InvalidRequest => "잘못된 요청입니다. 다시 시도해주세요."
    case InvalidResponse => "서버로부터 유효하지 않은 응답을 받았습니다."
    case RequestFailed(detail) => "네트워크 요청 실패: " + detail
    case HttpError(code, _) => HttpErrorPrefix + IntToDecimal(code) + ")"
    case DecodingFailed(_) => "데이터 디코딩 실패: 서버 응답 형식이 예상과 다릅니다."
    case Unauthorized => "인증이 필요합니다. 다시 로그인해주세요."
    case Unknown(_) => "알 수 없는 오류가 발생했습니다. 다시 시도해주세요."
  }

  /** The description of `httpError` embeds its status code, which can be read
      back from between the fixed prefix and the closing parenthesis. */
  lemma HttpDescriptionEmbedsCode(code: int, data: seq<Base64.Byte>)
    ensures var d := Description(HttpError(code, data));
      && |d| > |HttpErrorPrefix|
      && d[..|HttpErrorPrefix|] == HttpErrorPrefix
      && d[|d| - 1] == ')'
      && ParseInt(d[|HttpErrorPrefix|..|d| - 1]) == Some(code)
  {
    var d := Description(HttpError(code, data));
    assert d[|HttpErrorPrefix|..|d| - 1] == IntToDecimal(code);
    IntToDecimalRoundTrip(code);
  }

  /** Values that `==` identifies are described alike, except `requestFailed`,
      whose description shows the payload that `==` ignores. */
  lemma EqualValuesDescribedAlike(a: NetworkError, b: NetworkError)
    requires Equal(a, b) && !a.RequestFailed?
    ensures Description(a) == Description(b)
  {
  }
}

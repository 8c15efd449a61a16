/** The decoded CAS validation responses (auth/cas/types.go) and the user
    record the provider hands back (auth/types.go). A Go pointer field that
    may be nil is an `Option`; a string field that is absent decodes to "". */
module CasTypes {
  import opened Wrappers

  // XML profile: <serviceResponse><authenticationSuccess>... or <authenticationFailure code="...">

  datatype Attributes = Attributes(email: string, displayName: string)

  datatype SuccessResponse = SuccessResponse(user: string, attributes: Option<Attributes>)

  datatype FailureResponse = FailureResponse(code: string, message: string)

  datatype ServiceResponse = ServiceResponse(success: Option<SuccessResponse>, failure: Option<FailureResponse>)

  // JSON profile: {"serviceResponse": {"authenticationSuccess": ..., "authenticationFailure": ...}}

  /** Both attributes are arrays; an absent array decodes as empty. */
  datatype JsonAttributes = JsonAttributes(oaid: seq<string>, employeeName: seq<string>)

  datatype JsonSuccessResponse = JsonSuccessResponse(user: string, attributes: JsonAttributes)

  datatype JsonFailureResponse = JsonFailureResponse(code: string, description: string)

  datatype JsonServiceResponseInner = JsonServiceResponseInner(
    authenticationSuccess: Option<JsonSuccessResponse>,
    authenticationFailure: Option<JsonFailureResponse>)

  datatype JsonServiceResponse = JsonServiceResponse(serviceResponse: JsonServiceResponseInner)

  /** `auth.UserInfo`; the `Extra` map is always created empty by the provider. */
  datatype UserInfo = UserInfo(oaid: string, employeeName: string, extra: map<string, string>)
}

/**
 * The QuarkLink return codes (`quarklink_return_t`): one signed enumeration
 * that carries errors (negative), success (zero) and informational outcomes
 * (positive), grouped in bands of ten.
 */
module Codes {
  import opened Wrappers

  datatype ReturnCode =
    | Error | InvalidParameter | CacertsError | CommunicationError
    | ValueNotAvailable | NvmError | NotInitialised | AzureProvisioningError
    | Success
    | StatusEnrolled | StatusFwUpdateRequired | StatusNotEnrolled
    | StatusCertificateExpired | StatusRevoked
    | FwUpdateWrongSignature | FwUpdateMissingSignature | FwUpdateError
    | FwUpdateNoUpdate | FwUpdateUpdated | FwUpdateWifiLost
    | DeviceDoesNotExist | DeviceRevoked
    | ContextNoCredentialsStored | ContextNoEnrolmentInfoStored | ContextNothingStored

  /** The integer the C enumeration gives each code. */
  function Value(c: ReturnCode): int {
    match c
    case Error => -1
    case InvalidParameter => -2
    case CacertsError => -3
    case CommunicationError => -4
    case ValueNotAvailable => -5
    case NvmError => -6
    case NotInitialised => -7
    case AzureProvisioningError => -8
    case Success => 0
    case StatusEnrolled => 10
    case StatusFwUpdateRequired => 11
    case StatusNotEnrolled => 12
    case StatusCertificateExpired => 13
    case StatusRevoked => 14
    case FwUpdateWrongSignature => 20
    case FwUpdateMissingSignature => 21
    case FwUpdateError => 22
    case FwUpdateNoUpdate => 23
    case FwUpdateUpdated => 24
    case FwUpdateWifiLost => 25
    case DeviceDoesNotExist => 30
    case DeviceRevoked => 31
    case ContextNoCredentialsStored => 40
    case ContextNoEnrolmentInfoStored => 41
    case ContextNothingStored => 42
  }

  /** The code an integer names, if any (the partial inverse of Value). */
  function FromValue(v: int): Option<ReturnCode> {
    if v == -1 then Some(Error)
    else if v == -2 then Some(InvalidParameter)
    else if v == -3 then Some(CacertsError)
    else if v == -4 then Some(CommunicationError)
    else if v == -5 then Some(ValueNotAvailable)
    else if v == -6 then Some(NvmError)
    else if v == -7 then Some(NotInitialised)
    else if v == -8 then Some(AzureProvisioningError)
    else if v == 0 then Some(Success)
    else if v == 10 then Some(StatusEnrolled)
    else if v == 11 then Some(StatusFwUpdateRequired)
    else if v == 12 then Some(StatusNotEnrolled)
    else if v == 13 then Some(StatusCertificateExpired)
    else if v == 14 then Some(StatusRevoked)
    else if v == 20 then Some(FwUpdateWrongSignature)
    else if v == 21 then Some(FwUpdateMissingSignature)
    else if v == 22 then Some(FwUpdateError)
    else if v == 23 then Some(FwUpdateNoUpdate)
    else if v == 24 then Some(FwUpdateUpdated)
    else if v == 25 then Some(FwUpdateWifiLost)
    else if v == 30 then Some(DeviceDoesNotExist)
    else if v == 31 then Some(DeviceRevoked)
    else if v == 40 then Some(ContextNoCredentialsStored)
    else if v == 41 then Some(ContextNoEnrolmentInfoStored)
    else if v == 42 then Some(ContextNothingStored)
    else None
  }

  /** The bands, named by their members rather than by their numbers. */
  predicate IsErrorCode(c: ReturnCode) {
    c in {Error, InvalidParameter, CacertsError, CommunicationError,
          ValueNotAvailable, NvmError, NotInitialised, AzureProvisioningError}
  }

  predicate IsStatusCode(c: ReturnCode) {
    c in {StatusEnrolled, StatusFwUpdateRequired, StatusNotEnrolled,
          StatusCertificateExpired, StatusRevoked}
  }

  predicate IsFirmwareCode(c: ReturnCode) {
    c in {FwUpdateWrongSignature, FwUpdateMissingSignature, FwUpdateError,
          FwUpdateNoUpdate, FwUpdateUpdated, FwUpdateWifiLost}
  }

  predicate IsDeviceCode(c: ReturnCode) {
    c in {DeviceDoesNotExist, DeviceRevoked}
  }

  predicate IsContextLoadCode(c: ReturnCode) {
    c in {ContextNoCredentialsStored, ContextNoEnrolmentInfoStored, ContextNothingStored}
  }

  /** Every integer that names a code names exactly that code back. */
  lemma ValueRoundTrip(c: ReturnCode)
    ensures FromValue(Value(c)) == Some(c)
  {
  }

  lemma FromValueRoundTrip(v: int)
    ensures FromValue(v).Some? ==> Value(FromValue(v).value) == v
  {
  }

  /** No two codes share an integer. */
  lemma {:induction false} ValueInjective(a: ReturnCode, b: ReturnCode)
    ensures Value(a) == Value(b) ==> a == b
  {
    ValueRoundTrip(a);
    ValueRoundTrip(b);
  }

  /** The sign splits the codes: below zero the errors, zero success, above
      zero the status, firmware, device and context-load outcomes. */
  lemma SignBands(c: ReturnCode)
    ensures Value(c) < 0 <==> IsErrorCode(c)
    ensures Value(c) == 0 <==> c == Success
    ensures Value(c) > 0 <==> IsStatusCode(c) || IsFirmwareCode(c) || IsDeviceCode(c) || IsContextLoadCode(c)
  {
  }

  /** Each positive band is a contiguous range of its own decade. */
  lemma DecadeBands(c: ReturnCode)
    ensures IsStatusCode(c) <==> 10 <= Value(c) <= 14
    ensures IsFirmwareCode(c) <==> 20 <= Value(c) <= 25
    ensures IsDeviceCode(c) <==> 30 <= Value(c) <= 31
    ensures IsContextLoadCode(c) <==> 40 <= Value(c) <= 42
  {
  }

  /** No code belongs to two bands. */
  lemma {:induction false} BandsDisjoint(c: ReturnCode)
    ensures !(IsStatusCode(c) && IsFirmwareCode(c))
    ensures !(IsStatusCode(c) && IsDeviceCode(c))
    ensures !(IsStatusCode(c) && IsContextLoadCode(c))
    ensures !(IsFirmwareCode(c) && IsDeviceCode(c))
    ensures !(IsFirmwareCode(c) && IsContextLoadCode(c))
    ensures !(IsDeviceCode(c) && IsContextLoadCode(c))
    ensures IsErrorCode(c) ==> !(IsStatusCode(c) || IsFirmwareCode(c) || IsDeviceCode(c) || IsContextLoadCode(c))
  {
    DecadeBands(c);
    SignBands(c);
  }
}

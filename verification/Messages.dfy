/** internal/protocol/messages.go: the controller's registration message, and the
    meaning of the execution code in an acknowledgement. */
module Messages {
  import opened Bytes
  import opened Results

  datatype Registration = Registration(imei: seq<byte>, protocolVersion: byte, hwVersion: byte)

  datatype RegistrationError = PayloadTooShort | UnexpectedCommand | EmptyImei | InvalidImei

  /** Length of the text once its zero padding is cut off. */
  function TrimmedLength(s: seq<byte>): (n: nat)
    ensures n <= |s|
    ensures forall i :: n <= i < |s| ==> s[i] == 0
    ensures n > 0 ==> s[n - 1] != 0
  {
    if s != [] && s[|s| - 1] == 0 then TrimmedLength(s[..|s| - 1]) else |s|
  }

  predicate DigitsOnly(s: seq<byte>) {
    forall i :: 0 <= i < |s| ==> '0' as int <= s[i] <= '9' as int
  }

  function Trim(s: seq<byte>): seq<byte> {
    s[..TrimmedLength(s)]
  }

  /** Layout: command id 1, fifteen bytes of zero-padded digits, two version bytes. */
  function ParseRegistration(payload: seq<byte>): Result<Registration, RegistrationError> {
    if |payload| < 18 then Failure(PayloadTooShort)
    else if payload[0] != 1 then Failure(UnexpectedCommand)
    else
      var imei := Trim(payload[1..16]);
      if imei == [] then Failure(EmptyImei)
      else if !DigitsOnly(imei) then Failure(InvalidImei)
      else Success(Registration(imei, payload[16], payload[17]))
  }

  predicate IsRegistration(payload: seq<byte>) {
    ParseRegistration(payload).Success?
  }

  /** ParseRegistrationPayload, with its trimming loop. */
  method ParseRegistrationPayload(payload: seq<byte>) returns (r: Result<Registration, RegistrationError>)
    ensures r == ParseRegistration(payload)
  {
    if |payload| < 18 { return Failure(PayloadTooShort); }
    if payload[0] != 1 { return Failure(UnexpectedCommand); }
    var imeiRaw := payload[1..16];
    var end := |imeiRaw|;
    while end > 0 && imeiRaw[end - 1] == 0
      invariant 0 <= end <= |imeiRaw|
      invariant TrimmedLength(imeiRaw) == TrimmedLength(imeiRaw[..end])
    {
      assert imeiRaw[..end][..end - 1] == imeiRaw[..end - 1];
      end := end - 1;
    }
    var imei := imeiRaw[..end];
    if imei == [] { return Failure(EmptyImei); }
    if !DigitsOnly(imei) { return Failure(InvalidImei); }
    return Success(Registration(imei, payload[16], payload[17]));
  }

  /** A registration names at least one digit, so its second byte is a digit. */
  lemma RegistrationSecondByte(payload: seq<byte>)
    requires IsRegistration(payload)
    ensures payload[0] == 1 && '0' as int <= payload[1] <= '9' as int
  {
    var imei := Trim(payload[1..16]);
    assert imei[0] == payload[1];
  }

  /** The first eighteen bytes of a registration: id 1, an IMEI of one to fifteen digits padded
      with zeros to fifteen bytes, and two version bytes. */
  predicate RegistrationBytes(b: seq<byte>, imei: seq<byte>, protocolVersion: byte, hwVersion: byte) {
    && 1 <= |imei| <= 15 && (forall i :: 0 <= i < |imei| ==> 48 <= imei[i] <= 57)
    && |b| >= 18 && b[0] == 1 && b[1..|imei| + 1] == imei && (forall i :: |imei| < i < 16 ==> b[i] == 0)
    && b[16] == protocolVersion && b[17] == hwVersion
  }

  /** The parser succeeds exactly on these, and reads those fields off them. */
  lemma RegistrationExactly(payload: seq<byte>, imei: seq<byte>, protocolVersion: byte, hwVersion: byte)
    ensures ParseRegistration(payload) == Success(Registration(imei, protocolVersion, hwVersion)) <==>
            RegistrationBytes(payload, imei, protocolVersion, hwVersion)
  {
    if RegistrationBytes(payload, imei, protocolVersion, hwVersion) {
      var field := payload[1..16];
      assert forall i :: |imei| <= i < 15 ==> field[i] == payload[i + 1] == 0;
      assert field[|imei| - 1] == payload[1..|imei| + 1][|imei| - 1] == imei[|imei| - 1];
      TrimmedAt(field, |imei|);
      assert Trim(field) == imei;
    } else if ParseRegistration(payload) == Success(Registration(imei, protocolVersion, hwVersion)) {
      var field := payload[1..16];
      assert payload[1..|imei| + 1] == field[..|imei|];
      assert forall i :: |imei| < i < 16 ==> payload[i] == field[i - 1];
    }
  }

  lemma TrimmedAt(s: seq<byte>, n: nat)
    requires 0 < n <= |s| && s[n - 1] != 0 && forall i :: n <= i < |s| ==> s[i] == 0
    ensures TrimmedLength(s) == n
  {
  }

  predicate IsKnownCommandId(cmd: byte) {
    1 <= cmd <= 25 || cmd == 27
  }

  datatype AckStatus = Accepted | InProgress | Delivered | Failed | Expired | Unsupported

  /** InterpretAck11ExecutionCode, without the free-text reason. */
  function AckStatusOf(code: byte): AckStatus {
    match code
    case 0 => Delivered
    case 5 => InProgress
    case 6 => Expired
    case 255 => Unsupported
    case _ => Failed
  }

  predicate IsTerminal(status: AckStatus) {
    status != Accepted && status != InProgress
  }
}

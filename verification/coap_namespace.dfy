/** The protocol enumerations of the QtCoap namespace: response codes, client
    errors, request methods, ports, security modes and multicast groups.

    Every enumeration but Port is a datatype together with its numeric value
    (what Q_ENUM_NS exposes) and a decoder that is proved to be the exact
    inverse of that value, so each encoding is injective and each decoder
    rejects every number that is not a member. Port has only two members,
    so it is two constants with no decoder. */
module CoapNamespace {
  import opened Basics

  // ---------------------------------------------------------------------
  // Code field layout (section 3 of RFC 7252): a 3-bit class and a 5-bit
  // detail, written c.dd.

  /** The class part of an 8-bit code. */
  function CodeClass(v: uint8): int { v / 32 }

  /** The detail part of an 8-bit code. */
  function CodeDetail(v: uint8): int { v % 32 }

  /** The code c.dd as one 8-bit value. */
  function ClassDetail(cls: int, detail: int): (v: uint8)
    requires 0 <= cls < 8 && 0 <= detail < 32
    ensures CodeClass(v) == cls && CodeDetail(v) == detail
  {
    cls * 32 + detail
  }

  // ---------------------------------------------------------------------
  // The FOR_EACH_COAP_ERROR table. Each entry has a name, a position in the
  // table and a code; both ResponseCode and Error are generated from it.

  datatype ErrorName =
    | BadRequest | Unauthorized | BadOption | Forbidden
    | NotFound | MethodNotAllowed | NotAcceptable
    | RequestEntityIncomplete | PreconditionFailed | RequestEntityTooLarge
    | UnsupportedContentFormat | InternalServerFault | NotImplemented
    | BadGateway | ServiceUnavailable | GatewayTimeout
    | ProxyingNotSupported

  /** Number of entries in the error table. */
  const ErrorCount: nat := 17

  /** Zero-based position of an entry in the error table. */
  function Position(n: ErrorName): (p: nat)
    ensures p < ErrorCount
  {
    match n
    case BadRequest => 0
    case Unauthorized => 1
    case BadOption => 2
    case Forbidden => 3
    case NotFound => 4
    case MethodNotAllowed => 5
    case NotAcceptable => 6
    case RequestEntityIncomplete => 7
    case PreconditionFailed => 8
    case RequestEntityTooLarge => 9
    case UnsupportedContentFormat => 10
    case InternalServerFault => 11
    case NotImplemented => 12
    case BadGateway => 13
    case ServiceUnavailable => 14
    case GatewayTimeout => 15
    case ProxyingNotSupported => 16
  }

  /** The entry at a table position, if there is one. */
  function NameAt(p: int): (r: Option<ErrorName>)
    ensures forall n :: r == Some(n) <==> Position(n) == p
    ensures r.Some? <==> 0 <= p < ErrorCount
  {
    match p
    case 0 => Some(BadRequest)
    case 1 => Some(Unauthorized)
    case 2 => Some(BadOption)
    case 3 => Some(Forbidden)
    case 4 => Some(NotFound)
    case 5 => Some(MethodNotAllowed)
    case 6 => Some(NotAcceptable)
    case 7 => Some(RequestEntityIncomplete)
    case 8 => Some(PreconditionFailed)
    case 9 => Some(RequestEntityTooLarge)
    case 10 => Some(UnsupportedContentFormat)
    case 11 => Some(InternalServerFault)
    case 12 => Some(NotImplemented)
    case 13 => Some(BadGateway)
    case 14 => Some(ServiceUnavailable)
    case 15 => Some(GatewayTimeout)
    case 16 => Some(ProxyingNotSupported)
    case _ => None
  }

  /** The response code of an error table entry: every one is a client error
      (class 4) or a server error (class 5). */
  function ErrorCode(n: ErrorName): (v: uint8)
    ensures 0x80 <= v <= 0xA5
    ensures CodeClass(v) == 4 || CodeClass(v) == 5
    ensures CodeClass(v) == 4 <==> Position(n) < 11
  {
    match n
    case BadRequest => 0x80
    case Unauthorized => 0x81
    case BadOption => 0x82
    case Forbidden => 0x83
    case NotFound => 0x84
    case MethodNotAllowed => 0x85
    case NotAcceptable => 0x86
    case RequestEntityIncomplete => 0x88
    case PreconditionFailed => 0x8C
    case RequestEntityTooLarge => 0x8D
    case UnsupportedContentFormat => 0x8E
    case InternalServerFault => 0xA0
    case NotImplemented => 0xA1
    case BadGateway => 0xA2
    case ServiceUnavailable => 0xA3
    case GatewayTimeout => 0xA4
    case ProxyingNotSupported => 0xA5
  }

  /** The table entry whose code is `v`, if there is one. */
  function NameWithCode(v: int): (r: Option<ErrorName>)
    ensures forall n :: r == Some(n) <==> ErrorCode(n) == v
  {
    match v
    case 0x80 => Some(BadRequest)
    case 0x81 => Some(Unauthorized)
    case 0x82 => Some(BadOption)
    case 0x83 => Some(Forbidden)
    case 0x84 => Some(NotFound)
    case 0x85 => Some(MethodNotAllowed)
    case 0x86 => Some(NotAcceptable)
    case 0x88 => Some(RequestEntityIncomplete)
    case 0x8C => Some(PreconditionFailed)
    case 0x8D => Some(RequestEntityTooLarge)
    case 0x8E => Some(UnsupportedContentFormat)
    case 0xA0 => Some(InternalServerFault)
    case 0xA1 => Some(NotImplemented)
    case 0xA2 => Some(BadGateway)
    case 0xA3 => Some(ServiceUnavailable)
    case 0xA4 => Some(GatewayTimeout)
    case 0xA5 => Some(ProxyingNotSupported)
    case _ => None
  }

  // ---------------------------------------------------------------------
  // ResponseCode

  datatype ResponseCode =
    | EmptyMessage
    | Created | Deleted | Valid | Changed | Content | Continue
    | ErrorResponse(name: ErrorName)
    | InvalidCode

  /** The success codes of the enumeration (class 2). */
  predicate IsSuccess(c: ResponseCode) {
    c in {Created, Deleted, Valid, Changed, Content, Continue}
  }

  /** The numeric value of a response code. */
  function CodeValue(c: ResponseCode): (v: uint8)
    ensures c == EmptyMessage <==> v == 0x00
    ensures c == InvalidCode <==> v == 0xFF
    ensures IsSuccess(c) <==> CodeClass(v) == 2
    ensures c.ErrorResponse? <==> CodeClass(v) == 4 || CodeClass(v) == 5
  {
    match c
    case EmptyMessage => 0x00
    case Created => 0x41
    case Deleted => 0x42
    case Valid => 0x43
    case Changed => 0x44
    case Content => 0x45
    case Continue => 0x5F
    case ErrorResponse(n) => ErrorCode(n)
    case InvalidCode => 0xFF
  }

  /** Decodes a numeric response code: the exact inverse of CodeValue. */
  function CodeFromValue(v: int): (r: Option<ResponseCode>)
    ensures forall c :: r == Some(c) <==> CodeValue(c) == v
  {
    match v
    case 0x00 => Some(EmptyMessage)
    case 0x41 => Some(Created)
    case 0x42 => Some(Deleted)
    case 0x43 => Some(Valid)
    case 0x44 => Some(Changed)
    case 0x45 => Some(Content)
    case 0x5F => Some(Continue)
    case 0xFF => Some(InvalidCode)
    case _ =>
      match NameWithCode(v)
      case Some(n) => Some(ErrorResponse(n))
      case None => None
  }

  /** The success codes are 2.01 to 2.05 and 2.31 (sections 3 and 12.1.2 of
      RFC 7252). */
  lemma SuccessCodesClassDetail()
    ensures CodeValue(Created) == ClassDetail(2, 1)
    ensures CodeValue(Deleted) == ClassDetail(2, 2)
    ensures CodeValue(Valid) == ClassDetail(2, 3)
    ensures CodeValue(Changed) == ClassDetail(2, 4)
    ensures CodeValue(Content) == ClassDetail(2, 5)
    ensures CodeValue(Continue) == ClassDetail(2, 31)
  {
  }

  /** No two response codes share a value. */
  lemma CodeValueInjective(a: ResponseCode, b: ResponseCode)
    ensures CodeValue(a) == CodeValue(b) ==> a == b
  {
    var r := CodeFromValue(CodeValue(a));
    assert r == Some(a);
  }

  // ---------------------------------------------------------------------
  // Error: NoError, three transport errors, one `<name>Error` per table entry
  // (here `TableError(name)`) in table order, then UnknownError.

  datatype Error =
    | NoError
    | HostNotFoundError
    | AddressInUseError
    | TimeOutError
    | TableError(name: ErrorName)
    | UnknownError

  /** The numeric value of an Error: the table entries follow TimeOutError
      in table order and UnknownError follows the last of them. */
  function ErrorValue(e: Error): (v: nat)
    ensures e == TimeOutError <==> v == 3
    ensures e == UnknownError <==> v == 3 + ErrorCount + 1
    ensures e.TableError? <==> 3 < v < 3 + ErrorCount + 1
    ensures e.TableError? ==> v == 3 + 1 + Position(e.name)
  {
    match e
    case NoError => 0
    case HostNotFoundError => 1
    case AddressInUseError => 2
    case TimeOutError => 3
    case TableError(n) => 4 + Position(n)
    case UnknownError => 4 + ErrorCount
  }

  /** Decodes a numeric Error value: the exact inverse of ErrorValue. */
  function ErrorFromValue(v: int): (r: Option<Error>)
    ensures forall e :: r == Some(e) <==> ErrorValue(e) == v
  {
    match v
    case 0 => Some(NoError)
    case 1 => Some(HostNotFoundError)
    case 2 => Some(AddressInUseError)
    case 3 => Some(TimeOutError)
    case 21 => Some(UnknownError)
    case _ =>
      match NameAt(v - 4)
      case Some(n) => Some(TableError(n))
      case None => None
  }

  /** Both enumerations generated from the error table list its entries the
      same way: two entries have equal Error values exactly when they have
      equal response codes (only when they are the same entry), and their
      Error values are ordered as their codes are. */
  lemma ErrorsMirrorErrorCodes(a: ErrorName, b: ErrorName)
    ensures ErrorValue(TableError(a)) == ErrorValue(TableError(b)) <==> a == b
    ensures CodeValue(ErrorResponse(a)) == CodeValue(ErrorResponse(b)) <==> a == b
    ensures ErrorValue(TableError(a)) < ErrorValue(TableError(b)) <==> CodeValue(ErrorResponse(a)) < CodeValue(ErrorResponse(b))
  {
  }

  // ---------------------------------------------------------------------
  // Method

  datatype Method = Invalid | Get | Post | Put | Delete | Other

  function MethodValue(m: Method): (v: nat)
    ensures m == Invalid <==> v == 0
    ensures v <= 5
  {
    match m
    case Invalid => 0
    case Get => 1
    case Post => 2
    case Put => 3
    case Delete => 4
    case Other => 5
  }

  /** Decodes a numeric Method value: the exact inverse of MethodValue. */
  function MethodFromValue(v: int): (r: Option<Method>)
    ensures forall m :: r == Some(m) <==> MethodValue(m) == v
  {
    match v
    case 0 => Some(Invalid)
    case 1 => Some(Get)
    case 2 => Some(Post)
    case 3 => Some(Put)
    case 4 => Some(Delete)
    case 5 => Some(Other)
    case _ => None
  }

  // ---------------------------------------------------------------------
  // Port

  const DefaultPort: uint16 := 5683
  const DefaultSecurePort: uint16 := 5684

  // ---------------------------------------------------------------------
  // SecurityMode

  datatype SecurityMode = NoSec | PreSharedKey | RawPublicKey | Certificate

  function ModeValue(m: SecurityMode): (v: nat)
    ensures m == NoSec <==> v == 0
    ensures v <= 3
  {
    match m
    case NoSec => 0
    case PreSharedKey => 1
    case RawPublicKey => 2
    case Certificate => 3
  }

  /** Decodes a numeric SecurityMode value: the exact inverse of ModeValue. */
  function ModeFromValue(v: int): (r: Option<SecurityMode>)
    ensures forall m :: r == Some(m) <==> ModeValue(m) == v
  {
    match v
    case 0 => Some(NoSec)
    case 1 => Some(PreSharedKey)
    case 2 => Some(RawPublicKey)
    case 3 => Some(Certificate)
    case _ => None
  }

  /** A mode is secure when it is not NoSec, that is, when its value is not 0;
      the three other modes are all secure. */
  predicate IsSecureMode(m: SecurityMode)
    ensures IsSecureMode(m) <==> ModeValue(m) != 0
    ensures IsSecureMode(m) <==> m in {PreSharedKey, RawPublicKey, Certificate}
  {
    m != NoSec
  }

  // ---------------------------------------------------------------------
  // MulticastGroup

  datatype MulticastGroup = AllCoapNodesIPv4 | AllCoapNodesIPv6LinkLocal | AllCoapNodesIPv6SiteLocal

  function GroupValue(g: MulticastGroup): (v: nat)
    ensures v < 3
  {
    match g
    case AllCoapNodesIPv4 => 0
    case AllCoapNodesIPv6LinkLocal => 1
    case AllCoapNodesIPv6SiteLocal => 2
  }

  /** Decodes a numeric MulticastGroup value: the exact inverse of GroupValue. */
  function GroupFromValue(v: int): (r: Option<MulticastGroup>)
    ensures forall g :: r == Some(g) <==> GroupValue(g) == v
  {
    match v
    case 0 => Some(AllCoapNodesIPv4)
    case 1 => Some(AllCoapNodesIPv6LinkLocal)
    case 2 => Some(AllCoapNodesIPv6SiteLocal)
    case _ => None
  }
}

/** Values shared by the request interception pipeline, the upstream
    passthrough client and the REST server engine: the enums of the
    persistence layer, the records a mock is made of, and the few pieces of
    java.lang / commons-lang string behaviour the pipeline depends on. */
module Common {

  datatype Option<+T> = None | Some(value: T)

  datatype Result<+T, +E> = Ok(value: T) | Err(error: E)

  /** RestMethodEnum. The engine binds routes for the five verbs below; any
      other constant of the enum is `OtherMethod`. */
  datatype Method = GET | POST | PUT | DELETE | PATCH | OtherMethod(name: string)
  {
    /** The enum constant's name, as string concatenation prints it. */
    function Name(): string
    {
      match this
      case GET => "GET"
      case POST => "POST"
      case PUT => "PUT"
      case DELETE => "DELETE"
      case PATCH => "PATCH"
      case OtherMethod(n) => n
    }

    predicate Routable()
    {
      !OtherMethod?
    }
  }

  /** RestMockTypeEnum. */
  datatype MockType = SEQ | RULE | PROXY_HTTP | PROXY_SSE | CUSTOM_JS | STATEFUL

  /** SmockinUserRoleEnum. */
  datatype Role = SYS_ADMIN | ADMIN | REGULAR

  /** The owner of a mock (the `createdBy` user): role, routing-context prefix and id. */
  datatype User = User(role: Role, ctxPath: string, id: int)

  datatype Header = Header(name: string, value: string)

  /** RestfulMockDefinitionOrder: one response variant of a mock. */
  datatype DefinitionOrder = DefinitionOrder(
    status: int,
    contentType: Option<string>,
    body: Option<string>,
    headers: seq<Header>,
    suspend: bool)

  /** RestfulMockDefinitionRule: one rule of a RULE mock. Its matching
      conditions belong to the rule engine and are not carried here. */
  datatype DefinitionRule = DefinitionRule(
    status: int,
    contentType: Option<string>,
    body: Option<string>,
    headers: seq<Header>,
    suspend: bool)

  /** RestfulResponseDTO / RestfulResponse: the outcome of a resolver. */
  datatype ResponseOutcome = ResponseOutcome(
    status: int,
    contentType: Option<string>,
    body: Option<string>,
    headers: seq<Header>)

  /** An exception that reaches the pipeline boundary. Only the kind that
      decides the reply matters: IllegalArgumentException shows its message
      to the caller, every other exception does not. */
  datatype Failure = IllegalArgument(message: Option<string>) | OtherFailure

  /** MockServerState: whether the mock server listens, and on which port. */
  datatype ServerState = ServerState(running: bool, port: int)

  /** Concatenation is associative (stated once, used where a proof
      regroups a concatenation). */
  lemma AppendAssoc<T>(x: seq<T>, y: seq<T>, z: seq<T>)
    ensures (x + y) + z == x + (y + z)
  {
  }

  /** String.equalsIgnoreCase, folded per character. Besides the ASCII
      letters, U+017F (long s) upper-cases to 'S'; no other character folds
      onto the letters of the header names this model compares against. */
  function FoldCase(c: char): char
  {
    if 'A' <= c <= 'Z' then (c as int + 32) as char
    else if c == '\U{017F}' then 's'
    else c
  }

  /** `key.equalsIgnoreCase(target)` for a target made of ASCII letters and '-'. */
  predicate EqualsIgnoreCase(key: string, target: string)
  {
    |key| == |target| && forall i :: 0 <= i < |key| ==> FoldCase(key[i]) == FoldCase(target[i])
  }

  /** Character.isWhitespace. */
  predicate IsWhitespace(c: char)
  {
    c == ' ' || ('\t' <= c <= '\r') || ('\U{001C}' <= c <= '\U{001F}')
    || c == '\U{1680}' || ('\U{2000}' <= c <= '\U{2006}') || ('\U{2008}' <= c <= '\U{200A}')
    || c == '\U{2028}' || c == '\U{2029}' || c == '\U{205F}' || c == '\U{3000}'
  }

  /** StringUtils.isBlank: null, empty, or whitespace only. */
  predicate IsBlank(s: Option<string>)
    ensures s.None? || s == Some("") ==> IsBlank(s)
    ensures s.Some? && |s.value| > 0 && !IsWhitespace(s.value[0]) ==> !IsBlank(s)
  {
    s.None? || forall i :: 0 <= i < |s.value| ==> IsWhitespace(s.value[i])
  }

  /** A string is blank exactly when both of its parts are. */
  lemma BlankJoin(a: string, b: string)
    ensures IsBlank(Some(a + b)) <==> IsBlank(Some(a)) && IsBlank(Some(b))
  {
    if IsBlank(Some(a)) && IsBlank(Some(b)) {
      forall i | 0 <= i < |a + b|
        ensures IsWhitespace((a + b)[i])
      {
        if i >= |a| {
          assert (a + b)[i] == b[i - |a|];
        }
      }
    }
    if IsBlank(Some(a + b)) {
      forall i | 0 <= i < |a|
        ensures IsWhitespace(a[i])
      {
        assert (a + b)[i] == a[i];
      }
      forall i | 0 <= i < |b|
        ensures IsWhitespace(b[i])
      {
        assert (a + b)[|a| + i] == b[i];
      }
    }
  }

  /** StringUtils.defaultIfBlank. */
  function DefaultIfBlank(s: Option<string>, default: string): (r: string)
    ensures IsBlank(s) ==> r == default
    ensures !IsBlank(s) ==> Some(r) == s
  {
    if IsBlank(s) then default else s.value
  }

  function DigitChar(d: nat): char
    requires d < 10
  {
    "0123456789"[d]
  }

  /** Decimal rendering of a non-negative number: digits only, and no
      leading zero unless the number is 0. */
  function NatToString(n: nat): (s: string)
    ensures |s| > 0
    ensures forall k :: 0 <= k < |s| ==> '0' <= s[k] <= '9'
    ensures s[0] == '0' ==> s == "0"
    decreases n
  {
    if n < 10 then [DigitChar(n)] else NatToString(n / 10) + [DigitChar(n % 10)]
  }

  /** The number a string of decimal digits denotes, most significant digit
      first. */
  function DecimalValue(s: string): int
  {
    if s == [] then 0 else 10 * DecimalValue(s[..|s| - 1]) + (s[|s| - 1] as int - '0' as int)
  }

  lemma DigitCharValue(d: nat)
    requires d < 10
    ensures DigitChar(d) as int - '0' as int == d
  {
  }

  /** The rendering denotes the number it renders. */
  lemma {:induction false} NatToStringValue(n: nat)
    ensures DecimalValue(NatToString(n)) == n
    decreases n
  {
    var s := NatToString(n);
    if n < 10 {
      DigitCharValue(n);
      assert s[..0] == [];
    } else {
      NatToStringValue(n / 10);
      DigitCharValue(n % 10);
      assert s[..|s| - 1] == NatToString(n / 10);
    }
  }

  /** Decimal rendering of an int, as `"" + i` produces it in Java. */
  function IntToString(i: int): (s: string)
    ensures |s| > 0
    ensures s[0] == '-' <==> i < 0
  {
    if i < 0 then "-" + NatToString(-i) else NatToString(i)
  }

  /** The rendering of an int is its magnitude's digits, after a '-' for a
      negative number; the digits denote the magnitude. */
  lemma IntToStringValue(i: int)
    ensures i >= 0 ==> DecimalValue(IntToString(i)) == i
    ensures i < 0 ==> IntToString(i) == "-" + NatToString(-i) && DecimalValue(NatToString(-i)) == -i
  {
    if i < 0 {
      NatToStringValue(-i);
    } else {
      NatToStringValue(i);
    }
  }
}

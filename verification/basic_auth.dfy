/** The `Authorization` header parser of the HTTP server
    (`getAuthFromRequest`): the header value is split on single spaces into
    a scheme and a payload, the scheme is matched case-insensitively against
    Basic, and the payload is base64-decoded and split on `:` into a user
    name and a password, roughly as section 2 of RFC 7617 describes. */
module BasicAuth {
  import opened Wrappers
  import opened Seqs
  import Base64

  type byte = Base64.byte

  /** The byte value of `:` separating user name from password. */
  const Colon: byte := 58

  /** The upper-cased scheme name the parser accepts. */
  const BasicScheme: string := "BASIC"

  datatype CredentialType = Basic

  /** A parsed credential. User name and password are the raw decoded bytes. */
  datatype Credential = Credential(credType: CredentialType, username: seq<byte>, password: seq<byte>)

  datatype AuthError =
    | InvalidHeaderStructure
    | InvalidCredentials
    | UnknownCredentialType(scheme: string)

  /** The error text the server reports. */
  function Message(e: AuthError): string
  {
    match e
    case InvalidHeaderStructure => "invalid header structure"
    case InvalidCredentials => "invalid credentials"
    case UnknownCredentialType(scheme) => "unknown credential type: " + scheme
  }

  function UpperChar(c: char): char
  {
    if 'a' <= c <= 'z' then (c as int - 'a' as int + 'A' as int) as char else c
  }

  /** `strings.ToUpper` restricted to ASCII letters. */
  function ToUpper(s: string): (r: string)
    ensures |r| == |s|
    ensures forall k :: 0 <= k < |s| ==> r[k] == UpperChar(s[k])
  {
    if |s| == 0 then [] else [UpperChar(s[0])] + ToUpper(s[1..])
  }

  /** Splits the decoded payload into user name and password. */
  function SplitCredentials(decoded: seq<byte>): (r: Result<Credential, AuthError>)
    ensures r.Success? <==> Count(decoded, Colon) == 1
    ensures r.Failure? ==> r.error == InvalidCredentials
    ensures r.Success? ==>
              && r.value.credType == Basic
              && Colon !in r.value.username && Colon !in r.value.password
              && decoded == r.value.username + [Colon] + r.value.password
  {
    var creds := Split(decoded, Colon);
    SplitCount(decoded, Colon);
    if |creds| != 2 then Failure(InvalidCredentials)
    else
      assert Join(creds, Colon) == creds[0] + [Colon] + creds[1];
      Success(Credential(Basic, creds[0], creds[1]))
  }

  /** Decodes the payload that follows a Basic scheme. */
  function ParsePayload(payload: string): (r: Result<Credential, AuthError>)
    ensures r.Failure? ==> r.error == InvalidCredentials
    ensures r.Success? <==>
              Base64.Decode(payload).Success? && Count(Base64.Decode(payload).value, Colon) == 1
    ensures r.Success? ==>
              && r.value.credType == Basic
              && Colon !in r.value.username && Colon !in r.value.password
              && Base64.Decode(payload) == Success(r.value.username + [Colon] + r.value.password)
  {
    match Base64.Decode(payload)
    case Failure(_) => Failure(InvalidCredentials)
    case Success(decoded) => SplitCredentials(decoded)
  }

  /** Parses an `Authorization` header value. */
  function ParseAuthorization(header: string): (r: Result<Credential, AuthError>)
    ensures r == Failure(InvalidHeaderStructure) <==> |Split(header, ' ')| != 2
    ensures r.Failure? && r.error.UnknownCredentialType? <==>
              |Split(header, ' ')| == 2 && ToUpper(Split(header, ' ')[0]) != BasicScheme
    ensures r.Failure? && r.error.UnknownCredentialType? ==>
              r.error.scheme == ToUpper(Split(header, ' ')[0])
    ensures |Split(header, ' ')| == 2 && ToUpper(Split(header, ' ')[0]) == BasicScheme ==>
              r == ParsePayload(Split(header, ' ')[1])
  {
    var authInfo := Split(header, ' ');
    if |authInfo| != 2 then Failure(InvalidHeaderStructure)
    else
      var scheme := ToUpper(authInfo[0]);
      if scheme != BasicScheme then Failure(UnknownCredentialType(scheme))
      else ParsePayload(authInfo[1])
  }

  /** The header is structurally valid exactly when it holds one space. */
  lemma StructureIffOneSpace(header: string)
    ensures ParseAuthorization(header) == Failure(InvalidHeaderStructure) <==> Count(header, ' ') != 1
  {
    SplitCount(header, ' ');
  }

  /** After a Basic scheme (in any letter case) the result depends only on
      the payload. */
  lemma BasicSchemeParse(scheme: string, payload: string)
    requires ' ' !in scheme && ' ' !in payload
    requires ToUpper(scheme) == BasicScheme
    ensures ParseAuthorization(scheme + " " + payload) == ParsePayload(payload)
  {
    SplitPair(scheme, payload, ' ');
  }

  /** A payload that is not valid base64 is reported as invalid credentials. */
  lemma BadBase64Rejected(scheme: string, payload: string)
    requires ' ' !in scheme && ' ' !in payload
    requires ToUpper(scheme) == BasicScheme
    requires Base64.Decode(payload).Failure?
    ensures ParseAuthorization(scheme + " " + payload) == Failure(InvalidCredentials)
  {
    BasicSchemeParse(scheme, payload);
  }

  /** The empty header has no space and is structurally invalid. */
  lemma EmptyHeaderRejected()
    ensures ParseAuthorization("") == Failure(InvalidHeaderStructure)
  {
    StructureIffOneSpace("");
  }

  /** The scheme is matched without regard to case: two schemes that
      upper-case alike give the same outcome for every payload. */
  lemma SchemeCaseInsensitive(scheme1: string, scheme2: string, payload: string)
    requires ' ' !in scheme1 && ' ' !in scheme2 && ' ' !in payload
    requires ToUpper(scheme1) == ToUpper(scheme2)
    ensures ParseAuthorization(scheme1 + " " + payload) == ParseAuthorization(scheme2 + " " + payload)
  {
    SplitPair(scheme1, payload, ' ');
    SplitPair(scheme2, payload, ' ');
  }

  /** Any other scheme is refused whatever the payload. */
  lemma OtherSchemeRejected(scheme: string, payload: string)
    requires ' ' !in scheme && ' ' !in payload
    requires ToUpper(scheme) != BasicScheme
    ensures ParseAuthorization(scheme + " " + payload) == Failure(UnknownCredentialType(ToUpper(scheme)))
  {
    SplitPair(scheme, payload, ' ');
  }

  /** A Basic scheme followed by the encoding of `user:password` parses back
      to exactly that user and password, provided neither contains `:`. */
  lemma RoundTrip(scheme: string, user: seq<byte>, password: seq<byte>)
    requires ' ' !in scheme && ToUpper(scheme) == BasicScheme
    requires Colon !in user && Colon !in password
    ensures ParseAuthorization(scheme + " " + Base64.Encode(user + [Colon] + password))
            == Success(Credential(Basic, user, password))
  {
    var plain := user + [Colon] + password;
    var payload := Base64.Encode(plain);
    assert ' ' !in payload by {
      forall k | 0 <= k < |payload| ensures payload[k] != ' ' {
        assert Base64.InAlphabet(payload[k]) || payload[k] == Base64.Pad;
        assert Base64.ValueOf(' ') == None;
      }
    }
    BasicSchemeParse(scheme, payload);
    Base64.DecodeEncode(plain);
    SplitPair(user, password, Colon);
  }

  /** A password containing `:` can never be transmitted: the decoded text
      then holds two or more colons and is refused. */
  lemma ColonInPasswordRejected(scheme: string, user: seq<byte>, password: seq<byte>)
    requires ' ' !in scheme && ToUpper(scheme) == BasicScheme
    requires Colon in password
    ensures ParseAuthorization(scheme + " " + Base64.Encode(user + [Colon] + password))
            == Failure(InvalidCredentials)
  {
    var plain := user + [Colon] + password;
    var payload := Base64.Encode(plain);
    assert ' ' !in payload by {
      forall k | 0 <= k < |payload| ensures payload[k] != ' ' {
        assert Base64.InAlphabet(payload[k]) || payload[k] == Base64.Pad;
        assert Base64.ValueOf(' ') == None;
      }
    }
    BasicSchemeParse(scheme, payload);
    Base64.DecodeEncode(plain);
    CountAppend(user + [Colon], password, Colon);
    CountAppend(user, [Colon], Colon);
    CountPositive(password, Colon);
  }

  lemma {:induction false} CountPositive<T>(s: seq<T>, x: T)
    requires x in s
    ensures Count(s, x) >= 1
  {
    if s[0] != x {
      CountPositive(s[1..], x);
    }
  }
}

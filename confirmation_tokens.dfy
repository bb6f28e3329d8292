/** EmailConfirmationTokenTools: the transport form of an email-confirmation
    link's two query parameters. Both the token that the identity store
    issues and the email address travel as base64url of their UTF-8 bytes,
    and are decoded the same way before use. */
module EmailConfirmationTokenTools {
  import opened Wrappers
  import Utf8
  import Base64Url

  /** GenerateEmailConfirmationTokenBase64Async: `issued` is the token the
      identity store generated for the user (that generation is library code
      and comes in as a value). */
  function GenerateEmailConfirmationTokenBase64(issued: string): (token: string)
    ensures forall i :: 0 <= i < |token| ==> Base64Url.IsUrlChar(token[i])
    ensures token == EncodeBase64(issued)
  {
    Base64Url.Encode(Utf8.Encode(issued))
  }

  /** EncodeBase64: the email as base64url of its UTF-8 bytes, unpadded. */
  function EncodeBase64(email: string): (encoded: string)
    ensures forall i :: 0 <= i < |encoded| ==> Base64Url.IsUrlChar(encoded[i])
    ensures var n := |Utf8.Encode(email)|; |encoded| == 4 * (n / 3) + Base64Url.TailLength(n % 3)
  {
    Base64Url.Encode(Utf8.Encode(email))
  }

  /** DecodeConfirmationToken: a malformed token raises FormatException. */
  function DecodeConfirmationToken(token: string): (r: Result<string, Base64Url.DecodeError>)
    ensures |token| % 4 == 1 ==> r.Failure?
  {
    match Base64Url.Decode(token)
    case Failure(e) => Failure(e)
    case Success(bytes) => Success(Utf8.Decode(bytes))
  }

  /** DecodeBase64: the email parameter's decoder. */
  function DecodeBase64(encoded: string): (r: Result<string, Base64Url.DecodeError>)
    ensures |encoded| % 4 == 1 ==> r.Failure?
  {
    match Base64Url.Decode(encoded)
    case Failure(e) => Failure(e)
    case Success(bytes) => Success(Utf8.Decode(bytes))
  }

  /** DecodeBase64 recovers every string EncodeBase64 was given. */
  lemma DecodeEncodeBase64(s: string)
    ensures DecodeBase64(EncodeBase64(s)) == Success(s)
  {
    Base64Url.DecodeEncode(Utf8.Encode(s));
    Utf8.DecodeEncode(s);
  }

  /** Decoding a generated token hands the store back exactly the token it
      issued. */
  lemma DecodeGeneratedToken(issued: string)
    ensures DecodeConfirmationToken(GenerateEmailConfirmationTokenBase64(issued)) == Success(issued)
  {
    Base64Url.DecodeEncode(Utf8.Encode(issued));
    Utf8.DecodeEncode(issued);
  }

  /** Distinct emails never share an encoding. */
  lemma EncodeBase64Injective(s: string, t: string)
    requires EncodeBase64(s) == EncodeBase64(t)
    ensures s == t
  {
    DecodeEncodeBase64(s);
    DecodeEncodeBase64(t);
  }

  /** The two decoders are the same function. */
  lemma DecodersAgree(s: string)
    ensures DecodeConfirmationToken(s) == DecodeBase64(s)
  {
  }

  /** A character outside both base64 alphabets, other than '=' and the
      skipped white space, makes decoding fail. */
  lemma DecodeBase64RejectsForeign(s: string, i: nat)
    requires i < |s| && Base64Url.IsForeign(s[i])
    ensures DecodeBase64(s).Failure? && DecodeConfirmationToken(s).Failure?
  {
    Base64Url.DecodeRejectsForeign(s, i);
  }
}

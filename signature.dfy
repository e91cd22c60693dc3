/**
 * `verify_signature` (app/fully_automated_jira_github.py:54-67): checks the
 * `X-Hub-Signature-256` header against the keyed hash of the raw body.
 * The HMAC-SHA256 hex digest is a parameter, and `hmac.compare_digest` is
 * equality, except that on `str` arguments it raises `TypeError` when either
 * holds a non-ASCII character.
 */
module Signature {
  import opened Wrappers
  import opened Errors
  import Text

  newtype byte = x: int | 0 <= x < 256

  /** `hmac.new(secret.encode('utf-8'), msg=body, digestmod=hashlib.sha256).hexdigest()`. */
  type HexHmac = (string, seq<byte>) -> string

  const Algorithm := "sha256"

  predicate IsAscii(s: string) {
    forall i :: 0 <= i < |s| ==> s[i] as int < 128
  }

  /** The characters of a lower-case hexadecimal digest. */
  predicate IsHexDigest(s: string) {
    forall i :: 0 <= i < |s| ==> s[i] in "0123456789abcdef"
  }

  /**
   * `verify_signature(payload_body, header_signature)` with the configured
   * secret; `None` is the secret that was never configured.
   */
  function VerifySignature(secret: Option<string>, body: seq<byte>, header: Option<string>, hmac: HexHmac)
    : Result<bool, Exception>
  {
    if header.None? || header.value == "" then Ok(false)
    else
      var parts := Text.Split(header.value, '=');
      if |parts| != 2 then Err(ValueError)
      else if parts[0] != Algorithm then Ok(false)
      else if secret.None? then Err(AttributeError)
      else if !IsAscii(parts[1]) then Err(TypeError)
      else Ok(hmac(secret.value, body) == parts[1])
  }

  /** An absent or empty header is rejected without raising. */
  lemma MissingHeaderRejected(secret: Option<string>, body: seq<byte>, header: Option<string>, hmac: HexHmac)
    requires header.None? || header.value == ""
    ensures VerifySignature(secret, body, header, hmac) == Ok(false)
  {
  }

  /** A non-empty header raises `ValueError` exactly when it does not have exactly one '='. */
  lemma MalformedHeaderRaises(secret: Option<string>, body: seq<byte>, header: string, hmac: HexHmac)
    requires header != ""
    ensures VerifySignature(secret, body, Some(header), hmac) == Err(ValueError) <==> Text.Count(header, '=') != 1
  {
    Text.SplitCount(header, '=');
  }

  /** A header `<name>=<digest>` whose name is not exactly `sha256` is rejected without raising. */
  lemma WrongAlgorithmRejected(secret: Option<string>, body: seq<byte>, name: string, digest: string, hmac: HexHmac)
    requires '=' !in name && '=' !in digest
    requires name != Algorithm
    ensures VerifySignature(secret, body, Some(name + "=" + digest), hmac) == Ok(false)
  {
    SplitHeader(name, digest);
  }

  /**
   * For a header `sha256=<digest>`: the unset secret raises, a non-ASCII
   * digest raises, and otherwise the verdict is whether the digest is the
   * keyed hash of the body.
   */
  lemma WellFormedHeaderVerdict(secret: Option<string>, body: seq<byte>, digest: string, hmac: HexHmac)
    requires '=' !in digest
    ensures VerifySignature(secret, body, Some("sha256=" + digest), hmac) ==
      if secret.None? then Err(AttributeError)
      else if !IsAscii(digest) then Err(TypeError)
      else Ok(hmac(secret.value, body) == digest)
  {
    assert "sha256=" + digest == Algorithm + "=" + digest;
    SplitHeader(Algorithm, digest);
  }

  /** The header a genuine sender computes from the body and the shared secret is accepted. */
  lemma GenuineSignatureAccepted(secret: string, body: seq<byte>, hmac: HexHmac)
    requires IsHexDigest(hmac(secret, body))
    ensures VerifySignature(Some(secret), body, Some("sha256=" + hmac(secret, body)), hmac) == Ok(true)
  {
    var digest := hmac(secret, body);
    assert '=' !in digest;
    WellFormedHeaderVerdict(Some(secret), body, digest, hmac);
  }

  /** Acceptance means the header is exactly `sha256=` followed by the keyed hash of this body. */
  lemma AcceptedHeaderIsExact(secret: Option<string>, body: seq<byte>, header: Option<string>, hmac: HexHmac)
    requires VerifySignature(secret, body, header, hmac) == Ok(true)
    ensures secret.Some? && header == Some("sha256=" + hmac(secret.value, body))
  {
    var parts := Text.Split(header.value, '=');
    Text.SplitJoin(header.value, '=');
    assert Text.Join(parts, '=') == parts[0] + ['='] + parts[1];
    assert parts[0] + ['='] + parts[1] == "sha256=" + parts[1];
  }

  lemma SplitHeader(name: string, digest: string)
    requires '=' !in name && '=' !in digest
    ensures Text.Split(name + "=" + digest, '=') == [name, digest]
  {
    Text.SplitConcat(name, digest, '=');
    Text.SplitNoSeparator(name, '=');
    Text.SplitNoSeparator(digest, '=');
  }
}

/** Webhook authentication (webhook-listener/src/webhook_handler.py):
    `verify_mlflow_signature` and `verify_timestamp_freshness`.

    HMAC-SHA256 followed by base64 is the parameter `mac(secret, content)`: its
    internals are not modelled, and `hmac.compare_digest` is string equality. */
module WebhookAuth {
  import opened Wrappers
  import opened Strings
  import opened Decimal

  /** b64encode(HMAC-SHA256(secret, content)), as text. */
  type Mac = (string, string) -> string

  const SignaturePrefix: string := "v1,"

  /** The replay window `verify_timestamp_freshness` uses by default, in seconds. */
  const DefaultMaxAge: int := 300

  /** The signed text: `delivery_id.timestamp.payload`. */
  function SignedContent(deliveryId: string, timestamp: string, payload: string): string {
    deliveryId + "." + timestamp + "." + payload
  }

  /** The `x-mlflow-signature` header a sender with `secret` attaches. */
  function Sign(mac: Mac, secret: string, deliveryId: string, timestamp: string, payload: string): (sig: string)
    ensures StartsWith(sig, SignaturePrefix)
  {
    SignaturePrefix + mac(secret, SignedContent(deliveryId, timestamp, payload))
  }

  /** `verify_mlflow_signature`. It is total: the error path of the source, which
      catches every exception and answers false, has nothing left to catch here. */
  function VerifySignature(mac: Mac, payload: string, signature: string, secret: string,
                           deliveryId: string, timestamp: string): (ok: bool)
    ensures ok ==> StartsWith(signature, SignaturePrefix) && |signature| >= |SignaturePrefix|
  {
    if !StartsWith(signature, SignaturePrefix) then false
    else signature[|SignaturePrefix|..] == mac(secret, SignedContent(deliveryId, timestamp, payload))
  }

  /** `verify_timestamp_freshness`, with `int(time.time())` passed in as `now`.
      `None` and text that `int` refuses both answer false. */
  function TimestampFresh(timestamp: Option<string>, now: int, maxAge: int): (isFresh: bool)
    ensures isFresh ==> timestamp.Some? && ParseInt(timestamp.value).Some?
    ensures isFresh ==> ParseInt(timestamp.value).value <= now <= ParseInt(timestamp.value).value + maxAge
  {
    match timestamp
    case None => false
    case Some(text) =>
      match ParseInt(text)
      case None => false
      case Some(sent) => 0 <= now - sent <= maxAge
  }

  // ---------------------------------------------------------------------------
  // Signature

  /** A signature is accepted exactly when it is the one the holder of the secret
      would send for this delivery, timestamp and payload. */
  lemma VerifyIffSigned(mac: Mac, payload: string, signature: string, secret: string,
                        deliveryId: string, timestamp: string)
    ensures VerifySignature(mac, payload, signature, secret, deliveryId, timestamp)
        <==> signature == Sign(mac, secret, deliveryId, timestamp, payload)
  {
    var expected := Sign(mac, secret, deliveryId, timestamp, payload);
    if StartsWith(signature, SignaturePrefix) {
      assert signature == SignaturePrefix + signature[|SignaturePrefix|..];
    }
    assert expected[|SignaturePrefix|..] == mac(secret, SignedContent(deliveryId, timestamp, payload));
  }

  /** Without the `v1,` prefix (an empty header, a bare digest, a `v2,` scheme) the
      signature is refused whatever the digest. */
  lemma VerifyRequiresPrefix(mac: Mac, payload: string, signature: string, secret: string,
                             deliveryId: string, timestamp: string)
    requires !StartsWith(signature, SignaturePrefix)
    ensures !VerifySignature(mac, payload, signature, secret, deliveryId, timestamp)
  {
  }

  lemma RejectedPrefixExamples(mac: Mac, payload: string, secret: string, deliveryId: string, timestamp: string)
    ensures !VerifySignature(mac, payload, "", secret, deliveryId, timestamp)
    ensures !VerifySignature(mac, payload, "v2," + mac(secret, SignedContent(deliveryId, timestamp, payload)),
                             secret, deliveryId, timestamp)
  {
    var v2 := "v2," + mac(secret, SignedContent(deliveryId, timestamp, payload));
    assert v2[1] != SignaturePrefix[1];
  }

  /** A header made with one secret fails under another whose digest differs. */
  lemma WrongSecretRejected(mac: Mac, payload: string, secret: string, other: string,
                            deliveryId: string, timestamp: string)
    requires mac(other, SignedContent(deliveryId, timestamp, payload))
          != mac(secret, SignedContent(deliveryId, timestamp, payload))
    ensures !VerifySignature(mac, payload, Sign(mac, secret, deliveryId, timestamp, payload),
                             other, deliveryId, timestamp)
  {
    VerifyIffSigned(mac, payload, Sign(mac, secret, deliveryId, timestamp, payload), other, deliveryId, timestamp);
  }

  /** A header made for one payload fails for a payload whose digest differs. */
  lemma TamperedPayloadRejected(mac: Mac, payload: string, tampered: string, secret: string,
                                deliveryId: string, timestamp: string)
    requires mac(secret, SignedContent(deliveryId, timestamp, tampered))
          != mac(secret, SignedContent(deliveryId, timestamp, payload))
    ensures !VerifySignature(mac, tampered, Sign(mac, secret, deliveryId, timestamp, payload),
                             secret, deliveryId, timestamp)
  {
    VerifyIffSigned(mac, tampered, Sign(mac, secret, deliveryId, timestamp, payload), secret, deliveryId, timestamp);
  }

  /** Splitting at the first `.`: the part before it is recovered when it holds none. */
  lemma {:induction false} DotSplitUnique(a1: string, r1: string, a2: string, r2: string)
    requires '.' !in a1 && '.' !in a2
    requires a1 + "." + r1 == a2 + "." + r2
    ensures a1 == a2 && r1 == r2
  {
    var s := a1 + "." + r1;
    assert s[|a1|] == '.' && s[|a2|] == '.';
    assert forall j :: 0 <= j < |a1| ==> s[j] == a1[j];
    assert forall j :: 0 <= j < |a2| ==> s[j] == a2[j];
    assert |a1| == |a2|;
    assert a1 == s[..|a1|] == a2;
    assert r1 == s[|a1| + 1..] == r2;
  }

  /** The signed text determines its three parts when the delivery id and the
      timestamp hold no `.` (a UUID and a decimal number do not): a digest for one
      timestamp does not also sign another. */
  lemma SignedContentInjective(d1: string, t1: string, p1: string, d2: string, t2: string, p2: string)
    requires '.' !in d1 && '.' !in d2 && '.' !in t1 && '.' !in t2
    requires SignedContent(d1, t1, p1) == SignedContent(d2, t2, p2)
    ensures d1 == d2 && t1 == t2 && p1 == p2
  {
    assert SignedContent(d1, t1, p1) == d1 + "." + (t1 + "." + p1);
    assert SignedContent(d2, t2, p2) == d2 + "." + (t2 + "." + p2);
    DotSplitUnique(d1, t1 + "." + p1, d2, t2 + "." + p2);
    DotSplitUnique(t1, p1, t2, p2);
  }

  // ---------------------------------------------------------------------------
  // Freshness

  /** Fresh exactly when the text is an integer no later than `now` and at most
      `maxAge` seconds before it. */
  lemma FreshIff(timestamp: Option<string>, now: int, maxAge: int)
    ensures TimestampFresh(timestamp, now, maxAge)
        <==> timestamp.Some? && ParseInt(timestamp.value).Some?
             && now - maxAge <= ParseInt(timestamp.value).value <= now
  {
  }

  /** A timestamp written as `str(now - age)` is fresh exactly for ages from 0 to `maxAge`. */
  lemma FreshnessByAge(now: int, age: int, maxAge: int)
    ensures TimestampFresh(Some(IntToString(now - age)), now, maxAge) <==> 0 <= age <= maxAge
  {
    ParseIntRoundTrip(now - age);
  }

  /** `None`, `""` and `"not-a-number"` are never fresh. */
  lemma UnparsableNeverFresh(now: int, maxAge: int)
    ensures !TimestampFresh(None, now, maxAge)
    ensures !TimestampFresh(Some(""), now, maxAge)
    ensures !TimestampFresh(Some("not-a-number"), now, maxAge)
  {
    ParseIntBlank("");
    ParseIntRejectsForeign("not-a-number", 0);
  }
}

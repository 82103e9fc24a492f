/** sameDigest: what the rail says it signed against what was sent, across two encodings. */
module Digests {
  import opened Utf8
  import opened Wrappers
  import opened Encodings
  import Hex
  import Text

  // ------------------------------------------------------------------ sameDigest

  predicate SameDigest(railAnswer: string, requestedHex: string) {
    match FromHex(Text.Trim(requestedHex))
    case None => false
    case Some(wanted) =>
      if wanted == [] then false
      else
        match FromBase64(Text.Trim(railAnswer))
        case Some(got) => got == wanted
        case None => FromHex(Text.Trim(railAnswer)) == Some(wanted)
  }

  // ------------------------------------------------------------------ what it accepts

  /** It never says yes to anything but the bytes that were sent, in one of the two encodings. */
  lemma {:induction false} SameMeansSame(answer: string, d: seq<byte>)
    requires SameDigest(answer, ToHex(d))
    ensures d != [] && (FromBase64(Text.Trim(answer)) == Some(d) || FromHex(Text.Trim(answer)) == Some(d))
  {
    HexRoundTrip(d);
    HexIsSolid(d);
    SolidStays(ToHex(d));
    hide FromHex, ToHex, FromBase64, Text.Trim;
  }

  /** A digest that is blank, or not hexadecimal, is matched by no answer. */
  lemma {:induction false} NoDigestMatchesNothing(answer: string, requested: string)
    requires var t := Text.Trim(requested);
             t == "" || |t| % 2 == 1 || exists i :: 0 <= i < |t| && Hex.ValueOf(t[i]).None?
    ensures !SameDigest(answer, requested)
  {
    var t := Text.Trim(requested);
    HexIsReadIff(t);
    if i :| 0 <= i < |t| && Hex.ValueOf(t[i]).None? {
      assert !('0' <= t[i] <= '9' || 'a' <= t[i] <= 'f' || 'A' <= t[i] <= 'F');
    }
    hide Text.Trim;
  }

  /** White space around the answer, or around the digest, decides nothing. */
  lemma {:induction false} SpaceDecidesNothing(answer: string, requested: string)
    ensures SameDigest(Text.Trim(answer), Text.Trim(requested)) == SameDigest(answer, requested)
  {
    Text.TrimIsTrimmed(answer);
    Text.TrimIsTrimmed(Text.Trim(answer));
    Text.TrimIsTrimmed(requested);
    Text.TrimIsTrimmed(Text.Trim(requested));
    hide FromHex, FromBase64, Text.Trim;
  }

  /** Standard base64 of the digest is accepted. */
  lemma {:induction false} Base64IsAccepted(d: seq<byte>)
    requires d != []
    ensures SameDigest(ToBase64(d), ToHex(d))
  {
    hide *;
    HexRoundTrip(d);
    HexIsSolid(d);
    SolidStays(ToHex(d));
    LettersRoundTrip(d);
    Base64IsSolid(d);
    SolidStays(ToBase64(d));
    DecodedFrom(ToBase64(d));
    Decides(ToBase64(d), ToHex(d), d);
  }

  lemma {:induction false} Decides(answer: string, requested: string, d: seq<byte>)
    requires FromHex(Text.Trim(requested)) == Some(d) && d != []
    ensures SameDigest(answer, requested)
            <==> var got := FromBase64(Text.Trim(answer));
                 if got.Some? then got.value == d else FromHex(Text.Trim(answer)) == Some(d)
  {
    hide FromHex, FromBase64, Text.Trim;
  }

  /** Hexadecimal is meant to be accepted too, but base64 is tried first: the right answer in hexadecimal, in
      either case, is accepted exactly when the digest has an odd number of bytes. */
  lemma {:induction false} HexIsAcceptedIff(answer: string, d: seq<byte>)
    requires d != [] && FromHex(Text.Trim(answer)) == Some(d)
    ensures SameDigest(answer, ToHex(d)) <==> |d| % 2 == 1
  {
    hide *;
    HexRoundTrip(d);
    HexIsSolid(d);
    SolidStays(ToHex(d));
    var t := Text.Trim(answer);
    HexIsMadeOfLetters(t);
    NoLineEnds(t);
    DecodedFrom(answer);
    WholeGroups(t);
    Decides(answer, ToHex(d), d);
  }

  lemma {:induction false} DecodedFrom(answer: string)
    requires WithoutLineEnds(Text.Trim(answer)) == Text.Trim(answer)
    ensures FromBase64(Text.Trim(answer)) == FromLetters(Text.Trim(answer))
  {}

  /** So a rail that answers a SHA-256 in hexadecimal is always refused. */
  lemma {:induction false} HexSha256IsRefused(answer: string, d: seq<byte>)
    requires |d| == 32 && FromHex(Text.Trim(answer)) == Some(d)
    ensures !SameDigest(answer, ToHex(d))
  {
    HexIsAcceptedIff(answer, d);
    hide SameDigest, ToHex, FromHex;
  }
}

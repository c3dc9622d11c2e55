/**
  The mailboxlayer email-check client (package `mailbox`).

  What is modelled: the response records, the null-tolerant `Bool` decode
  hook, the way the JSON decoder fills a fresh `CheckResponse` member by
  member through that hook, the status-driven choice between the success
  and the error shape in `Client.Check`, and the text of `Error.Error()`.
  Building the request, the HTTP round trip and the JSON scanner itself are
  foreign; what they produce enters as parameters.
 */
module Mailbox {
  import opened Wrappers
  import Decimal

  /** One octet of a raw JSON token, as Go's `[]byte` holds it. */
  newtype byte = x: int | 0 <= x < 256

  /** The ASCII bytes of a string whose characters are all below 128. */
  function Ascii(s: string): (b: seq<byte>)
    requires forall i :: 0 <= i < |s| ==> s[i] as int < 128
    ensures |b| == |s| && forall i :: 0 <= i < |s| ==> b[i] as int == s[i] as int
  {
    seq(|s|, i requires 0 <= i < |s| => s[i] as int as byte)
  }

  /** The JSON literal names (section 3 of RFC 8259), byte by byte. */
  const TrueLiteral: seq<byte> := [0x74, 0x72, 0x75, 0x65]
  const FalseLiteral: seq<byte> := [0x66, 0x61, 0x6C, 0x73, 0x65]
  const NullLiteral: seq<byte> := [0x6E, 0x75, 0x6C, 0x6C]

  lemma LiteralsAreAscii()
    ensures Ascii("true") == TrueLiteral
    ensures Ascii("false") == FalseLiteral
    ensures Ascii("null") == NullLiteral
  {
  }

  // ---------------------------------------------------------------------
  // The `Bool` decode hook
  // ---------------------------------------------------------------------

  /**
    The value a `Bool` holds after `UnmarshalJSON(data)` when it held `prior`:
    the hook only ever writes `true`, and only for the exact token `true`.
   */
  function AfterUnmarshal(prior: bool, data: seq<byte>): (r: bool)
    ensures data == TrueLiteral ==> r
    ensures prior ==> r
    ensures r ==> prior || data == TrueLiteral
  {
    prior || data == TrueLiteral
  }

  /** A Go `Bool`: a boolean cell that the JSON decoder writes through a pointer. */
  class Bool {
    var value: bool

    /** A fresh `Bool` holds Go's zero value. */
    constructor ()
      ensures value == false
    {
      value := false;
    }

    /** `(*Bool).UnmarshalJSON`: sets the cell on the token `true`, leaves it alone otherwise, never fails. */
    method UnmarshalJSON(data: seq<byte>) returns (err: Option<DecodeError>)
      modifies this
      ensures value == AfterUnmarshal(old(value), data)
      ensures err == None
    {
      if data == TrueLiteral {
        value := true;
      }
      err := None;
    }
  }

  /** Decoding one token into a freshly zeroed `Bool` yields true exactly for the token `true`. */
  method DecodeFresh(data: seq<byte>) returns (v: bool)
    ensures v <==> data == TrueLiteral
  {
    var b := new Bool();
    var _ := b.UnmarshalJSON(data);
    v := b.value;
  }

  /** Any token other than `true` (false, null, a quoted string, malformed bytes) leaves the cell as it was. */
  lemma UnmarshalKeepsPrior(prior: bool, data: seq<byte>)
    requires data != TrueLiteral
    ensures AfterUnmarshal(prior, data) == prior
  {
  }

  /** Feeding the same token twice is the same as feeding it once. */
  lemma UnmarshalIdempotent(prior: bool, data: seq<byte>)
    ensures AfterUnmarshal(AfterUnmarshal(prior, data), data) == AfterUnmarshal(prior, data)
  {
  }

  /** The order in which two tokens reach one cell does not matter. */
  lemma UnmarshalCommutes(prior: bool, a: seq<byte>, b: seq<byte>)
    ensures AfterUnmarshal(AfterUnmarshal(prior, a), b) == AfterUnmarshal(AfterUnmarshal(prior, b), a)
  {
  }

  /** From the zero value the three JSON literals true, false and null decode to true, false and false. */
  lemma TriStateFromZero()
    ensures AfterUnmarshal(false, TrueLiteral) == true
    ensures AfterUnmarshal(false, FalseLiteral) == false
    ensures AfterUnmarshal(false, NullLiteral) == false
  {
  }

  // ---------------------------------------------------------------------
  // Records
  // ---------------------------------------------------------------------

  /** A Go `float32` passed through verbatim; only its bit pattern is kept. */
  datatype Score = Float32(bits: bv32)

  /** `CheckResponse`; the seven boolean members are decoded through the `Bool` hook. */
  datatype CheckResponse = CheckResponse(
    email: string,
    didYouMean: string,
    user: string,
    domain: string,
    formatValid: bool,
    mxFound: bool,
    smtpCheck: bool,
    catchAll: bool,
    role: bool,
    disposable: bool,
    free: bool,
    score: Score)

  /** `&CheckResponse{}`: every member at its zero value. */
  const ZeroResponse := CheckResponse("", "", "", "", false, false, false, false, false, false, false, Float32(0))

  /** The error details the service sends: `Error`. */
  datatype Error = Error(code: int, errorType: string, info: string)

  /** `ErrorResponse`; a body without an "error" key leaves `error` as a nil pointer. */
  datatype ErrorResponse = ErrorResponse(success: bool, error: Option<Error>)

  /** What the foreign JSON decoder reports when a body does not decode; its content is not modelled. */
  datatype DecodeError = DecodeError(description: string)

  /** The `Bool` members of `CheckResponse`, one per JSON key (format_valid, mx_found, smtp_check, catch_all, role, disposable, free). */
  datatype Flag = FormatValid | MXFound | SMTPCheck | CatchAll | Role | Disposable | Free

  /** The string members of `CheckResponse` (email, did_you_mean, user, domain). */
  datatype TextField = Email | DidYouMean | User | Domain

  function FlagOf(r: CheckResponse, f: Flag): bool {
    match f
    case FormatValid => r.formatValid
    case MXFound => r.mxFound
    case SMTPCheck => r.smtpCheck
    case CatchAll => r.catchAll
    case Role => r.role
    case Disposable => r.disposable
    case Free => r.free
  }

  /** Writing one flag leaves the other six, the strings and the score as they were. */
  function WithFlag(r: CheckResponse, f: Flag, v: bool): (s: CheckResponse)
    ensures FlagOf(s, f) == v
    ensures forall g :: g != f ==> FlagOf(s, g) == FlagOf(r, g)
    ensures forall u :: TextOf(s, u) == TextOf(r, u)
    ensures s.score == r.score
  {
    match f
    case FormatValid => r.(formatValid := v)
    case MXFound => r.(mxFound := v)
    case SMTPCheck => r.(smtpCheck := v)
    case CatchAll => r.(catchAll := v)
    case Role => r.(role := v)
    case Disposable => r.(disposable := v)
    case Free => r.(free := v)
  }

  function TextOf(r: CheckResponse, t: TextField): string {
    match t
    case Email => r.email
    case DidYouMean => r.didYouMean
    case User => r.user
    case Domain => r.domain
  }

  /** Writing one string member leaves the other strings, every flag and the score as they were. */
  function WithText(r: CheckResponse, t: TextField, v: string): (s: CheckResponse)
    ensures TextOf(s, t) == v
    ensures forall u :: u != t ==> TextOf(s, u) == TextOf(r, u)
    ensures forall g :: FlagOf(s, g) == FlagOf(r, g)
    ensures s.score == r.score
  {
    match t
    case Email => r.(email := v)
    case DidYouMean => r.(didYouMean := v)
    case User => r.(user := v)
    case Domain => r.(domain := v)
  }

  /**
    One object member as the JSON decoder hands it to a `CheckResponse`
    field: a decoded string, the raw token of a `Bool` member (`null`
    included), or a score. A `null` for a string or the score changes
    nothing in Go, so such a member is simply absent from a body.
   */
  datatype Member =
    | TextMember(field: TextField, text: string)
    | FlagMember(flag: Flag, token: seq<byte>)
    | ScoreMember(score: Score)

  /** Stores one member: strings and the score are assigned, flags go through the `Bool` hook. */
  function ApplyMember(r: CheckResponse, m: Member): (s: CheckResponse)
    // a flag member's field becomes what the hook leaves in it; nothing else changes
    ensures m.FlagMember? ==> FlagOf(s, m.flag) == AfterUnmarshal(FlagOf(r, m.flag), m.token)
    ensures m.TextMember? ==> TextOf(s, m.field) == m.text
    ensures s.score == if m.ScoreMember? then m.score else r.score
    ensures forall g :: !(m.FlagMember? && m.flag == g) ==> FlagOf(s, g) == FlagOf(r, g)
    ensures forall u :: !(m.TextMember? && m.field == u) ==> TextOf(s, u) == TextOf(r, u)
  {
    match m
    case TextMember(t, v) => WithText(r, t, v)
    case FlagMember(f, data) => WithFlag(r, f, AfterUnmarshal(FlagOf(r, f), data))
    case ScoreMember(s) => r.(score := s)
  }

  /** Stores the members of one JSON object in document order, a repeated key hitting its field again. */
  function DecodeMembers(r: CheckResponse, ms: seq<Member>): (s: CheckResponse)
    // no member clears a flag that was already set
    ensures forall f :: FlagOf(r, f) ==> FlagOf(s, f)
    decreases |ms|
  {
    if ms == [] then r else DecodeMembers(ApplyMember(r, ms[0]), ms[1..])
  }

  /** Decoding one object split in two is decoding the first part, then the second into what it left. */
  lemma {:induction false} DecodeConcat(r: CheckResponse, a: seq<Member>, b: seq<Member>)
    ensures DecodeMembers(r, a + b) == DecodeMembers(DecodeMembers(r, a), b)
    decreases |a|
  {
    if a == [] {
      assert a + b == b;
    } else {
      assert (a + b)[0] == a[0];
      assert (a + b)[1..] == a[1..] + b;
      DecodeConcat(ApplyMember(r, a[0]), a[1..], b);
    }
  }

  /**
    Each flag is an independent cell: after a decode it is set exactly when
    it was set before or some member for it carried the token `true`;
    members for other fields, and later `false` or `null` tokens, never clear it.
   */
  lemma {:induction false} FlagAfterDecode(r: CheckResponse, ms: seq<Member>, f: Flag)
    ensures FlagOf(DecodeMembers(r, ms), f) <==> FlagOf(r, f) || FlagMember(f, TrueLiteral) in ms
    decreases |ms|
  {
    if ms != [] {
      assert ms == [ms[0]] + ms[1..];
      FlagAfterApply(r, ms[0], f);
      FlagAfterDecode(ApplyMember(r, ms[0]), ms[1..], f);
    }
  }

  /** One member sets flag `f` exactly when it is `f` with the token `true`, and never clears it. */
  lemma FlagAfterApply(r: CheckResponse, m: Member, f: Flag)
    ensures FlagOf(ApplyMember(r, m), f) <==> FlagOf(r, f) || m == FlagMember(f, TrueLiteral)
  {
  }

  /** Decoding into `&CheckResponse{}`: a flag is true iff some member for it is the token `true`; absent means false. */
  lemma FreshFlag(ms: seq<Member>, f: Flag)
    ensures FlagOf(DecodeMembers(ZeroResponse, ms), f) <==> FlagMember(f, TrueLiteral) in ms
  {
    FlagAfterDecode(ZeroResponse, ms, f);
  }

  /** Whether member `m` is one for string field `t`. */
  predicate IsTextFor(m: Member, t: TextField) {
    m.TextMember? && m.field == t
  }

  /**
    The value of the last member for string field `t`, if the body has one:
    a repeated key is stored again, so the last value is the one that stays.
   */
  function LastText(ms: seq<Member>, t: TextField): (v: Option<string>)
    ensures v.None? <==> forall i :: 0 <= i < |ms| ==> !IsTextFor(ms[i], t)
    ensures v.Some? ==> exists i :: 0 <= i < |ms| && ms[i] == TextMember(t, v.value) &&
                                    forall j :: i < j < |ms| ==> !IsTextFor(ms[j], t)
    decreases |ms|
  {
    if ms == [] then None
    else
      var later := LastText(ms[1..], t);
      if later.Some? then
        ghost var i :| 0 <= i < |ms[1..]| && ms[1..][i] == TextMember(t, later.value) &&
                       forall j :: i < j < |ms[1..]| ==> !IsTextFor(ms[1..][j], t);
        assert ms[i + 1] == TextMember(t, later.value);
        later
      else if IsTextFor(ms[0], t) then Some(ms[0].text)
      else None
  }

  /** A string member ends up holding the body's last value for it, or keeps its value when the body has none. */
  lemma {:induction false} TextAfterDecode(r: CheckResponse, ms: seq<Member>, t: TextField)
    ensures TextOf(DecodeMembers(r, ms), t) == if LastText(ms, t).Some? then LastText(ms, t).value else TextOf(r, t)
    decreases |ms|
  {
    if ms != [] {
      TextAfterDecode(ApplyMember(r, ms[0]), ms[1..], t);
    }
  }

  /** The value of the last score member, if the body has one. */
  function LastScore(ms: seq<Member>): (v: Option<Score>)
    ensures v.None? <==> forall i :: 0 <= i < |ms| ==> !ms[i].ScoreMember?
    ensures v.Some? ==> exists i :: 0 <= i < |ms| && ms[i] == ScoreMember(v.value) &&
                                    forall j :: i < j < |ms| ==> !ms[j].ScoreMember?
    decreases |ms|
  {
    if ms == [] then None
    else
      var later := LastScore(ms[1..]);
      if later.Some? then
        ghost var i :| 0 <= i < |ms[1..]| && ms[1..][i] == ScoreMember(later.value) &&
                       forall j :: i < j < |ms[1..]| ==> !ms[1..][j].ScoreMember?;
        assert ms[i + 1] == ScoreMember(later.value);
        later
      else if ms[0].ScoreMember? then Some(ms[0].score)
      else None
  }

  /** The score ends up as the body's last score, or keeps its value when the body has none. */
  lemma {:induction false} ScoreAfterDecode(r: CheckResponse, ms: seq<Member>)
    ensures DecodeMembers(r, ms).score == if LastScore(ms).Some? then LastScore(ms).value else r.score
    decreases |ms|
  {
    if ms != [] {
      assert ApplyMember(r, ms[0]).score == if ms[0].ScoreMember? then ms[0].score else r.score by {
        match ms[0]
        case TextMember(t, w) =>
        case FlagMember(f, data) =>
        case ScoreMember(w) =>
      }
      ScoreAfterDecode(ApplyMember(r, ms[0]), ms[1..]);
    }
  }

  // ---------------------------------------------------------------------
  // Client.Check: choosing the shape from the status code
  // ---------------------------------------------------------------------

  /**
    The outcome of `decoder.Decode(target)`: the target as the decoder left
    it, and the error it returned (None for nil). `Check` takes any target;
    `CheckBody` builds the success target from a zeroed record, as the code does.
   */
  datatype Decoding<T> = Decoding(target: T, err: Option<DecodeError>)

  /**
    The `error` that `Check` returns. `Remote(None)` is a non-nil interface
    holding a nil `*Error`: what a non-200 body without an "error" key gives.
   */
  datatype CheckError = Remote(detail: Option<Error>) | Undecodable(cause: DecodeError)

  /**
    The part of `Client.Check` after the response arrived. `asCheckResponse`
    and `asErrorResponse` are what the decoder makes of the body for each
    shape; only the shape the status selects is consulted.
   */
  method Check(status: int, asCheckResponse: Decoding<CheckResponse>, asErrorResponse: Decoding<ErrorResponse>)
    returns (response: Option<CheckResponse>, err: Option<CheckError>)
    // exactly one of a response and an error, never both, never neither
    ensures response.Some? <==> err.None?
    // a record comes back only from status 200 with a clean decode, and it is the decoded one
    ensures response.Some? <==> status == 200 && asCheckResponse.err.None?
    ensures response.Some? ==> response.value == asCheckResponse.target
    // a decode failure on either path is passed through as it is
    ensures status == 200 && asCheckResponse.err.Some? ==> err == Some(Undecodable(asCheckResponse.err.value))
    ensures status != 200 && asErrorResponse.err.Some? ==> err == Some(Undecodable(asErrorResponse.err.value))
    // any other status returns the body's "error" member, even a nil one
    ensures status != 200 && asErrorResponse.err.None? ==> err == Some(Remote(asErrorResponse.target.error))
  {
    if status == 200 {
      var checkResponse := asCheckResponse.target;
      if asCheckResponse.err.Some? {
        return None, Some(Undecodable(asCheckResponse.err.value));
      }
      return Some(checkResponse), None;
    } else {
      var errorResponse := asErrorResponse.target;
      if asErrorResponse.err.Some? {
        return None, Some(Undecodable(asErrorResponse.err.value));
      }
      return None, Some(Remote(errorResponse.error));
    }
  }

  /**
    `Client.Check` with the success body's members in hand: as the code does,
    the record is decoded into a freshly allocated `&CheckResponse{}` (line 49),
    so on status 200 every flag of the returned record is true exactly when
    the body sent `true` for it, and every string and the score hold the
    body's last value for them or stay at their zero values.
   */
  method CheckBody(status: int, ms: seq<Member>, asErrorResponse: Decoding<ErrorResponse>)
    returns (response: Option<CheckResponse>, err: Option<CheckError>)
    ensures status == 200 <==> response.Some?
    ensures response.Some? <==> err.None?
    ensures status == 200 ==> err.None? && response.value == DecodeMembers(ZeroResponse, ms)
    ensures status == 200 ==> forall f :: FlagOf(response.value, f) <==> FlagMember(f, TrueLiteral) in ms
    ensures status == 200 ==> forall t :: TextOf(response.value, t) == if LastText(ms, t).Some? then LastText(ms, t).value else ""
    ensures status == 200 ==> response.value.score == if LastScore(ms).Some? then LastScore(ms).value else Float32(0)
    ensures status != 200 && asErrorResponse.err.Some? ==> err == Some(Undecodable(asErrorResponse.err.value))
    ensures status != 200 && asErrorResponse.err.None? ==> err == Some(Remote(asErrorResponse.target.error))
  {
    var checkResponse := DecodeMembers(ZeroResponse, ms);
    response, err := Check(status, Decoding(checkResponse, None), asErrorResponse);
    forall f {
      FreshFlag(ms, f);
    }
    forall t {
      TextAfterDecode(ZeroResponse, ms, t);
    }
    ScoreAfterDecode(ZeroResponse, ms);
  }

  // ---------------------------------------------------------------------
  // Error.Error(): "apilayer/mailbox: <code> <type> <info>"
  // ---------------------------------------------------------------------

  const MessagePrefix: string := "apilayer/mailbox: "

  /** `(*Error).Error()` on a non-nil pointer. */
  function Message(e: Error): (m: string)
    ensures |m| == |MessagePrefix| + |Decimal.Render(e.code)| + 1 + |e.errorType| + 1 + |e.info|
    ensures m[..|MessagePrefix|] == MessagePrefix
    ensures m[|m| - |e.info|..] == e.info
    ensures m[|MessagePrefix|..|MessagePrefix| + |Decimal.Render(e.code)| + 1] == Decimal.Render(e.code) + " "
    ensures m[|MessagePrefix| + |Decimal.Render(e.code)| + 1..] == e.errorType + " " + e.info
  {
    MessagePrefix + Decimal.Render(e.code) + " " + e.errorType + " " + e.info
  }

  /** The index of the first space in `s`, or `|s|` when there is none. */
  function SpaceIndex(s: string): (k: nat)
    ensures k <= |s|
    ensures forall j :: 0 <= j < k ==> s[j] != ' '
    ensures k < |s| ==> s[k] == ' '
  {
    if s == [] || s[0] == ' ' then 0 else 1 + SpaceIndex(s[1..])
  }

  /** Reads the error code back out of a message: the text between the prefix and the first space. */
  function ParseCode(m: string): Option<int> {
    if |m| < |MessagePrefix| || m[..|MessagePrefix|] != MessagePrefix then None
    else
      var rest := m[|MessagePrefix|..];
      Decimal.Parse(rest[..SpaceIndex(rest)])
  }

  /** The code is always recoverable from the message. */
  lemma ParseCodeOfMessage(e: Error)
    ensures ParseCode(Message(e)) == Some(e.code)
  {
    var m := Message(e);
    var code := Decimal.Render(e.code);
    var rest := m[|MessagePrefix|..];
    assert rest == code + " " + e.errorType + " " + e.info;
    assert rest[|code|] == ' ';
    assert SpaceIndex(rest) == |code|;
    assert rest[..|code|] == code;
    Decimal.ParseRender(e.code);
  }

  /**
    Two errors give the same message exactly when their codes agree and their
    type and info joined by a space agree: the code is recoverable, the
    boundary between type and info is not.
   */
  lemma MessageEquality(a: Error, b: Error)
    ensures Message(a) == Message(b) <==>
            a.code == b.code && a.errorType + " " + a.info == b.errorType + " " + b.info
  {
    if Message(a) == Message(b) {
      ParseCodeOfMessage(a);
      ParseCodeOfMessage(b);
    }
  }

  /** The type and the info are not separable: a space inside either shifts the boundary unseen. */
  lemma MessageAmbiguous()
    ensures Message(Error(1, "a b", "c")) == Message(Error(1, "a", "b c"))
  {
    MessageEquality(Error(1, "a b", "c"), Error(1, "a", "b c"));
  }
}

/**
  The fixtures of the package's tests, restated over the model: the three
  success bodies of `TestCheckResponse`, whose members reach `CheckResponse`
  in document order. The error body of `TestErrorResponse` is decoded by the
  foreign JSON library, so it enters as the `Error` the test expects
  (`NoEmail`); the two lemmas about it go beyond that test and feed it to
  `Error()` and `Check`.

  Each success body is written as four groups of three members; every group
  is decoded on its own and `DecodeConcat` joins the groups, so that no
  single proof has to follow all twelve members.
 */
module MailboxTest {
  import opened Wrappers
  import Decimal
  import opened Mailbox

  /** 0.8, 0.32 and 0.64 as IEEE 754 single precision. */
  const Score08 := Float32(0x3F4C_CCCD)
  const Score032 := Float32(0x3EA3_D70A)
  const Score064 := Float32(0x3F23_D70A)

  /** Three members in a row are stored one after the other. */
  lemma DecodeThree(r: CheckResponse, m0: Member, m1: Member, m2: Member)
    ensures DecodeMembers(r, [m0, m1, m2]) == ApplyMember(ApplyMember(ApplyMember(r, m0), m1), m2)
  {
    var r1 := ApplyMember(r, m0);
    var r2 := ApplyMember(r1, m1);
    assert [m0, m1, m2][1..] == [m1, m2];
    assert DecodeMembers(r, [m0, m1, m2]) == DecodeMembers(r1, [m1, m2]);
    assert [m1, m2][1..] == [m2];
    assert DecodeMembers(r1, [m1, m2]) == DecodeMembers(r2, [m2]);
    assert [m2][1..] == [];
  }

  // ---------------------------------------------------------------------
  // A valid gmail address: catch_all is null
  // ---------------------------------------------------------------------

  const Gmail1 := [FlagMember(CatchAll, NullLiteral), TextMember(DidYouMean, ""), FlagMember(Disposable, FalseLiteral)]
  const Gmail2 := [TextMember(Domain, "gmail.com"), TextMember(Email, "alexander.ostrow@gmail.com"),
                   FlagMember(FormatValid, TrueLiteral)]
  const Gmail3 := [FlagMember(Free, TrueLiteral), FlagMember(MXFound, TrueLiteral), FlagMember(Role, FalseLiteral)]
  const Gmail4 := [ScoreMember(Score08), FlagMember(SMTPCheck, TrueLiteral), TextMember(User, "alexander.ostrow")]

  function GmailBody(): seq<Member> {
    Gmail1 + Gmail2 + Gmail3 + Gmail4
  }

  lemma GmailPart1()
    ensures DecodeMembers(ZeroResponse, Gmail1) == ZeroResponse
  {
    DecodeThree(ZeroResponse, Gmail1[0], Gmail1[1], Gmail1[2]);
  }

  lemma GmailPart2()
    ensures DecodeMembers(ZeroResponse, Gmail2) ==
      ZeroResponse.(domain := "gmail.com", email := "alexander.ostrow@gmail.com", formatValid := true)
  {
    DecodeThree(ZeroResponse, Gmail2[0], Gmail2[1], Gmail2[2]);
  }

  lemma GmailPart3(r: CheckResponse)
    requires r == ZeroResponse.(domain := "gmail.com", email := "alexander.ostrow@gmail.com", formatValid := true)
    ensures DecodeMembers(r, Gmail3) == r.(free := true, mxFound := true)
  {
    DecodeThree(r, Gmail3[0], Gmail3[1], Gmail3[2]);
  }

  lemma GmailPart4(r: CheckResponse)
    requires r == ZeroResponse.(domain := "gmail.com", email := "alexander.ostrow@gmail.com", formatValid := true,
                                free := true, mxFound := true)
    ensures DecodeMembers(r, Gmail4) == r.(score := Score08, smtpCheck := true, user := "alexander.ostrow")
  {
    DecodeThree(r, Gmail4[0], Gmail4[1], Gmail4[2]);
  }

  /** The first body of `TestCheckResponse` decodes into the record the test expects. */
  lemma GmailFixture()
    ensures DecodeMembers(ZeroResponse, GmailBody()) ==
      ZeroResponse.(domain := "gmail.com", email := "alexander.ostrow@gmail.com", formatValid := true,
                    free := true, mxFound := true, role := false, score := Score08, smtpCheck := true,
                    user := "alexander.ostrow")
  {
    DecodeConcat(ZeroResponse, Gmail1 + Gmail2 + Gmail3, Gmail4);
    DecodeConcat(ZeroResponse, Gmail1 + Gmail2, Gmail3);
    DecodeConcat(ZeroResponse, Gmail1, Gmail2);
    GmailPart1();
    GmailPart2();
    GmailPart3(DecodeMembers(ZeroResponse, Gmail1 + Gmail2));
    GmailPart4(DecodeMembers(ZeroResponse, Gmail1 + Gmail2 + Gmail3));
  }

  // ---------------------------------------------------------------------
  // A misspelt domain with a suggested correction
  // ---------------------------------------------------------------------

  const Typo1 := [FlagMember(CatchAll, NullLiteral), TextMember(DidYouMean, "alexander.ostrow@gmail.com"),
                  FlagMember(Disposable, FalseLiteral)]
  const Typo2 := [TextMember(Domain, "gail.com"), TextMember(Email, "alexander.ostrow@gail.com"),
                  FlagMember(FormatValid, TrueLiteral)]
  const Typo3 := [FlagMember(Free, FalseLiteral), FlagMember(MXFound, TrueLiteral), FlagMember(Role, FalseLiteral)]
  const Typo4 := [ScoreMember(Score032), FlagMember(SMTPCheck, FalseLiteral), TextMember(User, "alexander.ostrow")]

  function TypoBody(): seq<Member> {
    Typo1 + Typo2 + Typo3 + Typo4
  }

  lemma TypoPart1()
    ensures DecodeMembers(ZeroResponse, Typo1) == ZeroResponse.(didYouMean := "alexander.ostrow@gmail.com")
  {
    DecodeThree(ZeroResponse, Typo1[0], Typo1[1], Typo1[2]);
  }

  lemma TypoPart2(r: CheckResponse)
    requires r == ZeroResponse.(didYouMean := "alexander.ostrow@gmail.com")
    ensures DecodeMembers(r, Typo2) ==
      r.(domain := "gail.com", email := "alexander.ostrow@gail.com", formatValid := true)
  {
    DecodeThree(r, Typo2[0], Typo2[1], Typo2[2]);
  }

  lemma TypoPart3(r: CheckResponse)
    requires r == ZeroResponse.(didYouMean := "alexander.ostrow@gmail.com", domain := "gail.com",
                                email := "alexander.ostrow@gail.com", formatValid := true)
    ensures DecodeMembers(r, Typo3) == r.(mxFound := true)
  {
    DecodeThree(r, Typo3[0], Typo3[1], Typo3[2]);
  }

  lemma TypoPart4(r: CheckResponse)
    requires r == ZeroResponse.(didYouMean := "alexander.ostrow@gmail.com", domain := "gail.com",
                                email := "alexander.ostrow@gail.com", formatValid := true, mxFound := true)
    ensures DecodeMembers(r, Typo4) == r.(score := Score032, user := "alexander.ostrow")
  {
    DecodeThree(r, Typo4[0], Typo4[1], Typo4[2]);
  }

  /** The second body: free and smtp_check are false, did_you_mean carries the suggestion. */
  lemma TypoFixture()
    ensures DecodeMembers(ZeroResponse, TypoBody()) ==
      ZeroResponse.(didYouMean := "alexander.ostrow@gmail.com", domain := "gail.com",
                    email := "alexander.ostrow@gail.com", formatValid := true, mxFound := true,
                    score := Score032, smtpCheck := false, user := "alexander.ostrow")
  {
    DecodeConcat(ZeroResponse, Typo1 + Typo2 + Typo3, Typo4);
    DecodeConcat(ZeroResponse, Typo1 + Typo2, Typo3);
    DecodeConcat(ZeroResponse, Typo1, Typo2);
    TypoPart1();
    TypoPart2(DecodeMembers(ZeroResponse, Typo1));
    TypoPart3(DecodeMembers(ZeroResponse, Typo1 + Typo2));
    TypoPart4(DecodeMembers(ZeroResponse, Typo1 + Typo2 + Typo3));
  }

  // ---------------------------------------------------------------------
  // A domain without a dot: format_valid is false and mx_found is null
  // ---------------------------------------------------------------------

  const NoTld1 := Gmail1
  const NoTld2 := [TextMember(Domain, "gmail"), TextMember(Email, "alexander.ostrow@gmail"),
                   FlagMember(FormatValid, FalseLiteral)]
  const NoTld3 := [FlagMember(Free, FalseLiteral), FlagMember(MXFound, NullLiteral), FlagMember(Role, FalseLiteral)]
  const NoTld4 := [ScoreMember(Score064), FlagMember(SMTPCheck, FalseLiteral), TextMember(User, "alexander.ostrow")]

  function NoTldBody(): seq<Member> {
    NoTld1 + NoTld2 + NoTld3 + NoTld4
  }

  lemma NoTldPart2()
    ensures DecodeMembers(ZeroResponse, NoTld2) == ZeroResponse.(domain := "gmail", email := "alexander.ostrow@gmail")
  {
    DecodeThree(ZeroResponse, NoTld2[0], NoTld2[1], NoTld2[2]);
  }

  lemma NoTldPart3(r: CheckResponse)
    requires r == ZeroResponse.(domain := "gmail", email := "alexander.ostrow@gmail")
    ensures DecodeMembers(r, NoTld3) == r
  {
    DecodeThree(r, NoTld3[0], NoTld3[1], NoTld3[2]);
  }

  lemma NoTldPart4(r: CheckResponse)
    requires r == ZeroResponse.(domain := "gmail", email := "alexander.ostrow@gmail")
    ensures DecodeMembers(r, NoTld4) == r.(score := Score064, user := "alexander.ostrow")
  {
    DecodeThree(r, NoTld4[0], NoTld4[1], NoTld4[2]);
  }

  /** The third body: every flag stays false, the two nulls included. */
  lemma NoTldFixture()
    ensures DecodeMembers(ZeroResponse, NoTldBody()) ==
      ZeroResponse.(domain := "gmail", email := "alexander.ostrow@gmail", score := Score064,
                    user := "alexander.ostrow")
  {
    DecodeConcat(ZeroResponse, NoTld1 + NoTld2 + NoTld3, NoTld4);
    DecodeConcat(ZeroResponse, NoTld1 + NoTld2, NoTld3);
    DecodeConcat(ZeroResponse, NoTld1, NoTld2);
    GmailPart1();
    NoTldPart2();
    NoTldPart3(DecodeMembers(ZeroResponse, NoTld1 + NoTld2));
    NoTldPart4(DecodeMembers(ZeroResponse, NoTld1 + NoTld2 + NoTld3));
  }

  /** A repeated key: `false` after `true` does not clear the flag, as it would for a plain Go bool. */
  lemma RepeatedKeyFixture()
    ensures DecodeMembers(ZeroResponse, [FlagMember(Role, TrueLiteral), FlagMember(Role, FalseLiteral)]).role
  {
    var ms := [FlagMember(Role, TrueLiteral), FlagMember(Role, FalseLiteral)];
    assert ms[0] == FlagMember(Role, TrueLiteral);
    FreshFlag(ms, Role);
  }

  /** A repeated string key: the decoder stores it again, so the last value stays. */
  lemma RepeatedTextFixture()
    ensures DecodeMembers(ZeroResponse, [TextMember(Email, "a"), TextMember(Email, "b")]).email == "b"
  {
    var ms := [TextMember(Email, "a"), TextMember(Email, "b")];
    assert LastText(ms[1..], Email) == Some("b") by {
      assert ms[1..][1..] == [];
    }
    TextAfterDecode(ZeroResponse, ms, Email);
  }

  // ---------------------------------------------------------------------
  // The error body of `TestErrorResponse`, as the `Error` it decodes to
  // ---------------------------------------------------------------------

  const NoEmail := Error(210, "no_email_address_supplied",
                         "Please specify an email address. [Example: support@apilayer.com]")

  /** The text `Error()` gives for that error (the Go test does not call `Error()`). */
  lemma NoEmailMessage()
    ensures Message(NoEmail) ==
      "apilayer/mailbox: " + "210" + " " + "no_email_address_supplied" + " " +
      "Please specify an email address. [Example: support@apilayer.com]"
  {
    assert Decimal.Render(210) == "210" by {
      assert Decimal.DigitChar(2) == '2' && Decimal.DigitChar(1) == '1' && Decimal.DigitChar(0) == '0';
      assert Decimal.Digits(21) == Decimal.Digits(2) + ['1'] == "21";
      assert Decimal.Render(210) == Decimal.Digits(21) + ['0'] == "210";
    }
  }

  /** Any non-200 status with that error body decoded yields no record and the service's own error. */
  method NoEmailDispatch(status: int, asCheckResponse: Decoding<CheckResponse>)
    returns (response: Option<CheckResponse>, err: Option<CheckError>)
    requires status != 200
    ensures response == None && err == Some(Remote(Some(NoEmail)))
  {
    response, err := Check(status, asCheckResponse, Decoding(ErrorResponse(false, Some(NoEmail)), None));
  }
}

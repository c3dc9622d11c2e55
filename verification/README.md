# mailboxlayer client (package `mailbox`) in Dafny

The Go package `mailbox` is a small client for the mailboxlayer email-check
API. It sends one GET request per `Client.Check(email)`. On status 200 it
decodes the JSON body into a `CheckResponse`; on any other status it decodes
an `ErrorResponse` and returns its `*Error`. Its only hand-written decoding
logic is the `Bool` type. Its `UnmarshalJSON` hook sets the cell when the raw
token is exactly `true` and ignores every other token. That is how a JSON
`null` in a boolean member ends up as `false`.

The model has four files:

- `wrappers.dfy` (module `Wrappers`) has `Option`, which stands for Go's nil
  pointers and nil interface values.
- `decimal.dfy` (module `Decimal`) has `Render`, the `%d` rendering of an
  integer, and `Parse`, its inverse.
- `mailbox.dfy` (module `Mailbox`) holds the core:
  - the records `CheckResponse`, `ErrorResponse` and `Error`;
  - the `Bool` cell, as a class with an `UnmarshalJSON` method and the pure
    function `AfterUnmarshal` that specifies it;
  - how the decoder fills a fresh `CheckResponse` member by member, where
    each flag member goes through the hook (`ApplyMember`, `DecodeMembers`);
  - the status-driven dispatch of `Client.Check` after the response has
    arrived (method `Check`);
  - the text of `Error.Error()` (`Message`), with `ParseCode` as its partner.
- `mailbox_test.dfy` (module `MailboxTest`) restates the three success
  bodies of `TestCheckResponse` as lemmas. The error body of
  `TestErrorResponse` is decoded by the JSON library, which is not modelled,
  so it enters as the decoded `Error` the test expects. The two lemmas about
  it go beyond the Go test: they render its message and pass it through
  `Check`.

`Check` does not parse anything. The JSON decoder is a foreign library, so
what it made of the body for each shape enters `Check` as a `Decoding`: the
target as the decoder left it, and the error it returned. In the same way, a
success body enters `DecodeMembers` as the sequence of members the decoder
reads from it. A string or score member is stored as decoded. A flag member
carries its raw token bytes, which are handed to the `Bool` hook.
`CheckBody` joins the two: it decodes the members into a zeroed
`CheckResponse`, as line 49 allocates one, and then dispatches.

`DecodeMembers` assumes the following of `encoding/json`:
- members are stored in document order;
- a repeated key writes its field again;
- every member for a `Bool` field reaches the hook with its raw token, `null` included;
- a `null` for a string or the score leaves the field unchanged, so such a member does not appear in the sequence.

## Model

| member | source | states |
|---|---|---|
| Mailbox.AfterUnmarshal | mailbox/mailbox.go:87-92 | the hook only ever sets a cell: the result is true on the exact token `true`, a true prior survives every token, and a true result comes only from a true prior or the token `true` |
| Mailbox.Bool.constructor | mailbox/mailbox.go:84-85 | a fresh `Bool` holds Go's zero value, false |
| Mailbox.Bool.UnmarshalJSON | mailbox/mailbox.go:87-92 | the new cell value is `AfterUnmarshal(old value, token)` and the returned error is always nil, whatever the bytes |
| Mailbox.DecodeFresh | mailbox/mailbox.go:87-92 | decoding one token into a fresh `Bool` gives true if and only if the token is exactly the four bytes `true` |
| Mailbox.UnmarshalKeepsPrior | mailbox/mailbox.go:87-91 | any token other than `true` (false, null, a quoted string, malformed bytes) leaves the cell as it was, so the hook never writes false |
| Mailbox.UnmarshalIdempotent | mailbox/mailbox.go:87-92 | feeding the same token twice gives the same cell as feeding it once |
| Mailbox.UnmarshalCommutes | mailbox/mailbox.go:87-92 | the order in which two tokens reach one cell does not change the result |
| Mailbox.TriStateFromZero | mailbox/mailbox.go:84-92 | from the zero value, the JSON literals true, false and null give true, false and false |
| Mailbox.LiteralsAreAscii | mailbox/mailbox.go:88 | the constant the hook compares against is the ASCII of `true`; the `false` and `null` constants, used by the fixture bodies, are the ASCII of those JSON literal names (section 3 of RFC 8259) |
| Mailbox.WithFlag | mailbox/mailbox.go:24-30 | storing into one `Bool` member sets that member and leaves the other six flags, the four strings and the score unchanged |
| Mailbox.WithText | mailbox/mailbox.go:20-23 | storing into one string member sets it and leaves the other strings, every flag and the score unchanged |
| Mailbox.ApplyMember | mailbox/mailbox.go:19-32 | storing one member: a flag member's field becomes what the hook leaves in it, a string member's field and a score member's score take the member's value, and every other field is unchanged |
| Mailbox.DecodeMembers | mailbox/mailbox.go:49-50 | decoding a body into a record stores its members in document order; no member clears a flag that was already set |
| Mailbox.FlagAfterApply | mailbox/mailbox.go:24-30 | one member sets flag `f` exactly when it is `f` carrying the token `true`, and no member clears a flag |
| Mailbox.FlagAfterDecode | mailbox/mailbox.go:24-30 | after a whole body a flag is set if and only if it was set before or some member for it carried `true`; members for other fields, and later `false`/`null` tokens, never clear it |
| Mailbox.FreshFlag | mailbox/mailbox.go:24-30 | decoding into `&CheckResponse{}`, a flag is true if and only if some member for it is `true`; a missing or null member gives false |
| Mailbox.LastText | mailbox/mailbox.go:20-23 | the value of the last member for a string field: None exactly when the body has no member for it, otherwise the value of a member with no later member for that field |
| Mailbox.TextAfterDecode | mailbox/mailbox.go:20-23 | for every body, a string field ends up holding the body's last value for it, or keeps its previous value when the body has none; a repeated key keeps the last value |
| Mailbox.LastScore | mailbox/mailbox.go:31 | the value of the last score member, characterised the same way |
| Mailbox.ScoreAfterDecode | mailbox/mailbox.go:31 | for every body, the score ends up as the body's last score, or keeps its previous value; it is passed through as decoded |
| Mailbox.DecodeConcat | mailbox/mailbox.go:19-32 | decoding a body in two parts, the second into what the first left, is decoding it whole |
| Mailbox.Check | mailbox/mailbox.go:47-62 | exactly one of a record and an error comes back. A record comes back if and only if the status is exactly 200 and the success shape decoded cleanly, and it is the decoded record. A decode failure on either path is returned as it is. Any other status returns the body's `error` member, even a nil one |
| Mailbox.CheckBody | mailbox/mailbox.go:47-62 | with the success members decoded into a fresh `&CheckResponse{}`: status 200 returns a record and nothing else does. Its flags are true exactly for the members that sent `true`, so null or absent gives false. Its strings and score hold the body's last values or their zero values. Exactly one of a record and an error comes back: any other status returns the body's `error` member when the error body decodes, and the decoder's error when it does not |
| Mailbox.Message | mailbox/mailbox.go:78-80 | the message is the prefix `apilayer/mailbox: `, then `%d` of the code and a space, then the type, a space and the info, with exactly that length |
| Mailbox.ParseCodeOfMessage | mailbox/mailbox.go:78-80 | the code can always be read back from the message: the text between the prefix and the first space parses to `Some(code)` |
| Mailbox.MessageEquality | mailbox/mailbox.go:79 | two errors give the same message if and only if their codes agree and their type and info joined by a space agree |
| Mailbox.MessageAmbiguous | mailbox/mailbox.go:79 | type and info cannot be told apart: `(1, "a b", "c")` and `(1, "a", "b c")` give the same message |
| Decimal.Digits | mailbox/mailbox.go:79 | `%d` of a natural number is a non-empty digit string with no leading zero unless it is "0" |
| Decimal.ParseDigitsOfDigits | mailbox/mailbox.go:79 | reading the digits of `n` back gives `n` |
| Decimal.Render | mailbox/mailbox.go:79 | `%d` of an int is non-empty and made of digits and minus signs only |
| Decimal.ParseRender | mailbox/mailbox.go:79 | `Parse(Render(i)) == Some(i)` for every integer, negative ones included |
| Decimal.RenderInjective | mailbox/mailbox.go:79 | distinct codes render as distinct texts |
| MailboxTest.GmailFixture | mailbox/mailbox_test.go:23-47 | the first test body decodes into exactly the record the test expects; `catch_all: null` gives false |
| MailboxTest.TypoFixture | mailbox/mailbox_test.go:50-73 | the second test body decodes into exactly the record the test expects |
| MailboxTest.NoTldFixture | mailbox/mailbox_test.go:76-95 | the third test body decodes into the record with every flag false, including `mx_found: null` |
| MailboxTest.RepeatedKeyFixture | mailbox/mailbox.go:87-91 | `"role": true` followed by `"role": false` leaves the flag set |
| MailboxTest.RepeatedTextFixture | mailbox/mailbox.go:20 | `"email": "a"` followed by `"email": "b"` leaves "b" |
| MailboxTest.NoEmailMessage | mailbox/mailbox.go:78-80 | the `Error` the test's error body decodes to (code 210) renders as `apilayer/mailbox: 210 no_email_address_supplied Please specify …`; the Go test itself does not call `Error()` |
| MailboxTest.NoEmailDispatch | mailbox/mailbox.go:55-62 | with any non-200 status and the test's error body decoded, `Check` returns no record and that `Error`; this goes beyond the Go test, which only decodes the body |

## Left out

- Building the request and the transport are not modelled: the query string, `http.NewRequest`, `Client.Do`, the embedded `http.Client` and its timeout (mailbox/mailbox.go:13-16, 36-46). They are network I/O and foreign code. Every `Check` call therefore starts from the status code and the decoder's outcomes.
- The JSON scanner itself is foreign and not modelled: splitting a body into members, case-insensitive key matching, unknown keys, string unescaping, and number parsing. `DecodeMembers` takes the members the scanner reads. `ErrorResponse` has no custom hook, so its decoding is represented only by the `Decoding` passed to `Check`.
- The decoding of the error body in `TestErrorResponse` (mailbox/mailbox_test.go:110-143) is not restated. It is the JSON library's work on a struct without hooks, so the fixture enters as the decoded `Error` (`MailboxTest.NoEmail`).
- Mailbox.CheckBody: it covers a success body that decodes cleanly. A success body the decoder rejects is covered by `Check` with a `Decoding` that carries the error. An error body the decoder rejects is covered by `CheckBody` itself.
- `Score` is a `float32` that the code passes through untouched. It is kept as its 32-bit pattern, and turning `0.8` into those bits is left out.
- Mailbox.Message: it takes a non-nil `Error`. Calling `Error()` on the nil `*Error` that `Check` can return, `Remote(None)`, dereferences nil in Go, and that panic is not modelled.
- Mailbox.Check: an error code outside the range of Go's `int` (32 or 64 bits, depending on the platform) would be a decode error. That is the decoder's business, so `Error.code` is an unbounded `int`.
- Mailbox.Check: a status in 201-299 counts as success in the usual HTTP convention, but the code tests for exactly 200 (mailbox/mailbox.go:48). The model follows the code, so such a status selects the error shape.
- Mailbox.Check: `Check` returns nothing cached and holds no state between calls. Issuing one request per call is a property of the I/O and is not modelled.

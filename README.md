# iOS-MailClients, modelled in Dafny

iOS-MailClients lets an app start an e-mail by handing the user a picker of the
installed mail apps. Each app is reached through its own URL-scheme convention.
The library has three parts:

- **the client registry** (`EmailClient`). It is a closed, ordered set of seven apps: Mail,
  Gmail, Inbox, Outlook, Spark, Newton and Airmail. For each app it gives the scheme
  (`rawValue`), the picker title, the compose segment and the names of the
  recipient, subject and body parameters.
- **the URL composer** (`composeString`). It builds the deep-link tail that goes after
  a scheme from the stored recipient, subject and body.
- **the selection logic** (`openAction`, `fetchAlertController`, `completeAction`,
  `request`). It asks the OS which deep links it can open. Then it does one of three
  things:
  - with one openable app, it completes that app at once: another app's deep link is
    opened, while Mail gets the native composer (or the Mail app through `message://`
    when no recipient is stored);
  - with two or more, it shows an action sheet of them in registry order, then Cancel;
  - with none, it shows a "no apps" notice and copies the recipient to the clipboard
    if it is non-empty.

  The request itself lives in a shared singleton (`manager`). `completeAction` reads it later.

Files:

- `email_client.dfy` (module `EmailClients`): the registry as a datatype, with
  functions for each property. `FromRawValue` is Swift's derived
  `init?(rawValue:)`. The lemmas state the property tables and the order.
- `mail_compose.dfy` (module `MailCompose`): `ComposeString`, and a reader
  `QueryValue` that splits a tail at `&` and looks parameters up by key. It is the
  partner that the round-trip lemmas use.
- `mail_service.dfy` (module `MailService`): the availability test, the filter
  and the picker entries as functions. `Completion` and `Fetch` are the
  specifications of `completeAction` and `fetchAlertController`. The class
  `MailService` holds the singleton's fields and the clipboard. Its methods update
  them in place and are proved against those functions.
- `text.dfy` (module `Text`): prefix, suffix and substring tests, and split/join
  on a separator with their inverse lemmas.
- `wrappers.dfy` (module `Wrappers`): `Option`, Swift's `T?`.

The OS and Foundation calls become fields of a `Platform` value:

- `parses` stands for `URL(string:)` succeeding;
- `canOpen` for `canOpenURL`;
- `canSendMail` for `MFMailComposeViewController.canSendMail()`;
- `encode` for `addingPercentEncoding(withAllowedCharacters: .urlHostAllowed)`, which
  is partial.

Opening a URL or presenting a screen is not performed. It is returned as an `Effect`
value (`OpenUrl`, `Present(screen, target)` or `Idle`).

Two quirks of the code are kept exactly as written:

- The recipient is appended without percent-encoding
  (`iOS-MailClients/MailService.swift:298`).
- When a recipient is stored, Mail's probed URL is `mailto:` + `mailto:` + address +
  `&subject=...`. The scheme appears twice and there is no `?`. Without a recipient it
  is the bare `mailto:`. Completing Mail never opens this URL:
  it presents the composer or opens `message://`.

The subject and body are encoded with `.urlHostAllowed`, which leaves `&` and `=`
unescaped. A subject or body that contains `&` therefore changes the parameters the
deep link carries; the lemmas `EncodedSubjectAddsBody` and `EncodedAmpersandCutsSubject`
show how.

## Model

| member | source | states |
|---|---|---|
| `EmailClients.Ordinal` | iOS-MailClients/EmailClient.swift:42-50 | every case has a position in `allCases` and that position holds the case |
| `EmailClients.AllCasesEnumeratesEachOnce` | iOS-MailClients/EmailClient.swift:42-50 | `allCases` is mail, gmail, inbox, outlook, spark, newton, airmail: seven entries, every case present, none repeated, position equals declaration index |
| `EmailClients.FromRawValue` | iOS-MailClients/EmailClient.swift:42-50 | the derived `init?(rawValue:)` returns a case whose raw value is the input, and fails only when no case has that raw value |
| `EmailClients.RawValue` | iOS-MailClients/EmailClient.swift:44-50 | a client's raw scheme is `"mailto:"` exactly when the client is `.mail`, the test `completeAction` branches on |
| `EmailClients.Display` | iOS-MailClients/EmailClient.swift:53-63 | every client has a non-empty picker title |
| `EmailClients.Compose` | iOS-MailClients/EmailClient.swift:65-72 | the compose segment equals the mail scheme exactly for `.mail`; every other client's segment ends in `?`, which starts the query; no segment contains `&` |
| `EmailClients.RecipientKey` | iOS-MailClients/EmailClient.swift:74-82 | the recipient key is empty exactly for `.mail`; every other one ends in `=`; none contains `&` |
| `EmailClients.SubjectKey` | iOS-MailClients/EmailClient.swift:84-89 | the subject key ends in `=` and contains no `&` |
| `EmailClients.BodyKey` | iOS-MailClients/EmailClient.swift:91-98 | the body key ends in `=`, contains no `&`, and begins with a different character than the subject key, so the two parameters can be told apart |
| `EmailClients.RawValueRoundTrip` | iOS-MailClients/EmailClient.swift:44-50 | the seven raw schemes are pairwise distinct: decoding a case's raw value gives that case back |
| `EmailClients.DisplayNamesDistinct` | iOS-MailClients/EmailClient.swift:53-63 | each case has its own picker title |
| `EmailClients.ComposeSegments` | iOS-MailClients/EmailClient.swift:65-72 | compose is `mailto:` (the mail scheme itself, no `?`) for mail, `co?` for gmail and inbox, `compose?` for the other four |
| `EmailClients.ParameterKeys` | iOS-MailClients/EmailClient.swift:74-98 | recipient key is `recipient=` exactly for spark and `to=` for every client but mail and spark; subject key is `subject=` everywhere; body key is `plainBody=` for airmail, `body=` otherwise |
| `MailCompose.ComposeString` | iOS-MailClients/MailService.swift:292-310 | the tail is absent exactly when no recipient is stored; when present it starts with compose segment + recipient key + the recipient as given |
| `MailCompose.ComposePieces` | iOS-MailClients/MailService.swift:298-309 | when the recipient and the encoded subject and body contain no `&`, the tail splits at `&` into the head, then the subject parameter only if a subject is set and encodes, then the body parameter under the same condition, subject before body |
| `MailCompose.ComposeQueryRoundTrip` | iOS-MailClients/MailService.swift:300-308 | assuming the recipient contains no `&`, the encoded subject and body contain no `&`, and a decoder undoes the encoder on the subject and body: looking the subject and body keys up in the tail yields the encoded subject and body that were appended and nothing for ones absent or unencodable, and decoding them gives the originals back |
| `MailCompose.UnencodedRecipientAddsSubject` | iOS-MailClients/MailService.swift:298 | the recipient is not encoded, so a recipient `address&subject=v` makes the tail carry a subject parameter `v` although no subject was stored |
| `MailCompose.EncodedSubjectAddsBody` | iOS-MailClients/MailService.swift:301-308 | `.urlHostAllowed` lets `&` through, so a subject whose encoding is `x&` + body key + `v` makes the tail carry a body parameter `v` although no body was stored, and the subject reads back as `x` |
| `MailCompose.EncodedAmpersandCutsSubject` | iOS-MailClients/MailService.swift:301-303 | with no body stored, a subject whose encoding is `x&y` reads back as `x`, which differs from the encoded subject: the round trip fails for every encoding that keeps an `&` |
| `MailCompose.MailUrlDoublesScheme` | iOS-MailClients/MailService.swift:234-235 | the URL probed for mail starts with the mail scheme twice (`mailto:mailto:`) and then the address, and the character after the address is `&` when a subject is appended |
| `MailService.CopiedNotice` | iOS-MailClients/MailService.swift:207 | the clipboard notice names the copied address right after its leading `, ` |
| `MailService.Scheme` | iOS-MailClients/MailService.swift:292-310 | `composeString(client:)` on the stored fields: absent exactly when no recipient is stored, otherwise starting with compose segment + recipient key + the stored recipient |
| `MailService.ProbeUrl` | iOS-MailClients/MailService.swift:235 | the probed URL starts with the client's scheme; it is the bare scheme when no recipient is stored, and otherwise continues with compose segment + recipient key + recipient |
| `MailService.OpenAction` | iOS-MailClients/MailService.swift:229-254 | an entry titled with the display name that captures the raw value and tail is returned exactly when the URL parses, the OS can open it, and either the device can send mail or the URL does not contain `mailto:` |
| `MailService.AvailableAmong` | iOS-MailClients/MailService.swift:149-154 | the filter keeps exactly the available clients of its input, never more than the input, and keeps registry order |
| `MailService.ActionsAmong` | iOS-MailClients/MailService.swift:156-161 | the `actions` list has at most one entry per client and every entry is a client entry |
| `MailService.AvailableClients` | iOS-MailClients/MailService.swift:149-154 | `availableClients` holds every available client and no other, in strictly increasing registry order |
| `MailService.ActionsAreChoicesOfAvailable` | iOS-MailClients/MailService.swift:149-161 | `actions` is exactly one entry per client of `availableClients`, in the same order, so the two lists have the same length |
| `MailService.Completion` | iOS-MailClients/MailService.swift:256-290 | `completeAction` only opens a URL that parses; for mail it opens only `message://` and only when no recipient is stored; for any other client it opens `withURL + scheme` exactly when that parses and the OS can open it, and otherwise does nothing; it presents only the composer, only for mail with a recipient, addressed to that recipient with the stored subject and body, and through the presentation closure exactly when one is stored |
| `MailService.Tap` | iOS-MailClients/MailService.swift:185-193 | tapping Cancel or Ok does nothing; tapping a client entry runs `completeAction` with the URL and tail the entry captured (the handler at :246-252) |
| `MailService.Fetch` | iOS-MailClients/MailService.swift:136-227 | the request overwrites subject, body and mailto. With one available client, that client's completion runs and there is no alert. With two or more, the sheet holds their entries in registry order and then Cancel. With none, the alert is titled `noAccountTitle`, and a non-empty recipient is copied to the clipboard and named in the message; otherwise the clipboard is unchanged |
| `MailService.AvailableMailNeedsSendMail` | iOS-MailClients/MailService.swift:238-242 | mail's probed URL always contains `mailto:`, so mail is available only if the device can send mail |
| `MailService.OtherClientsIgnoreSendMail` | iOS-MailClients/MailService.swift:234-242 | for a client whose URL does not contain `mailto:`, availability is exactly "parses and the OS can open it" |
| `MailService.AvailableClientOpensProbedUrl` | iOS-MailClients/MailService.swift:283-289 | completing an available non-mail client opens exactly the URL that was probed for it |
| `MailService.MailCompletion` | iOS-MailClients/MailService.swift:260-282 | for mail: no stored recipient opens `message://` (if it parses). Otherwise a composer with recipients `[mailto]` and the stored subject and HTML body goes to the presentation closure if set, else to the view controller, else nowhere |
| `MailService.SingleClientOpensAtOnce` | iOS-MailClients/MailService.swift:163-171 | with exactly one available client other than mail, the request opens its probed URL straight away, with no alert and the clipboard untouched |
| `MailService.SheetEntriesOpenTheirClients` | iOS-MailClients/MailService.swift:173-193 | the sheet has one more entry than there are available clients. Entry k is titled with client k's name and tapping it completes client k. The last entry, Cancel, does nothing |
| `MailService.MailService.constructor` | iOS-MailClients/MailService.swift:36-46 | the new singleton stores no presenter and no request; the clipboard is unchanged |
| `MailService.MailService.CompleteAction` | iOS-MailClients/MailService.swift:256-290 | the method's effect, read from the stored fields, is the one `Completion` specifies |
| `MailService.MailService.HandleAction` | iOS-MailClients/MailService.swift:244-252 | a tapped client entry runs `completeAction` with the URL and tail it captured; a dismiss entry has no effect |
| `MailService.MailService.FetchAlertController` | iOS-MailClients/MailService.swift:136-227 | the new fields, clipboard, returned alert and immediate effect are those of `Fetch` applied to the old fields and clipboard |
| `MailService.MailService.RequestFrom` | iOS-MailClients/MailService.swift:66-91 | stores the view controller (leaves an earlier presentation closure in place), runs the fetch, and presents its alert on the view controller if there is one and it exists; subject, body and recipient default to none and the two "no apps" strings to the library's defaults |
| `MailService.MailService.RequestWith` | iOS-MailClients/MailService.swift:109-130 | stores the presentation closure, runs the fetch, and hands its alert to the closure if there is one; the same defaults apply |

## Left out

- Popover anchoring of the sheet to `sender` (iOS-MailClients/MailService.swift:195-200) is not modelled. It is UI placement only, so `sender` is not a parameter.
- The `MFMailComposeViewControllerDelegate` (iOS-MailClients/MailService.swift:318-328) is not modelled. It only logs an error and dismisses the composer.
- Alert construction, styles, animation and dismissal are not modelled. Alerts are values: an action sheet, or a notice with a title, a message and an Ok entry.
- `URL(string:)` is modelled only as whether it succeeds. `absoluteString` is taken to be the input string, so Foundation's URL normalisation is not modelled.
- Percent-encoding with `.urlHostAllowed` is Foundation code and is not visible. `encode` is an arbitrary partial function.
- ComposeQueryRoundTrip: is proved only for inputs whose recipient and whose encoded subject and body contain no `&`. `.urlHostAllowed` leaves `&` and `=` unescaped, so a subject or body containing `&` breaks the round trip; `EncodedSubjectAddsBody` and `EncodedAmpersandCutsSubject` show the failure in that case.
- The OS answers `canOpenURL` and `canSendMail` through deterministic oracles. The source asks these questions several times per client (iOS-MailClients/MailService.swift:149-161, 284-286), and the model assumes the answer never changes between the asks.
- The string constants of iOS-MailClients/Extension+String.swift are written inline: "Cancel", "Ok", "&" and the clipboard notice. `emailQuestion` and `noEmailAccountsMessage` are unused by the library; `request` spells the same two strings out as its defaults, which the model keeps as `DefaultNoAccountTitle` and `DefaultNoAccountMessage`.
- `UIPasteboard.general` is process-wide. It is modelled as the field `pasteboard` of the singleton.
- Re-entrancy and the singleton's lack of a lock are not modelled. The model is one sequential request followed by a later `completeAction`.
- Source/iOS-MailClients/iOS_MailClients.h is not part of this model. It exports only version symbols.

/** The closed registry of mail apps the library knows how to address, each
    with the pieces of its URL-scheme convention. */
module EmailClients {
  import opened Wrappers
  import opened Text

  datatype EmailClient = Mail | Gmail | Inbox | Outlook | Spark | Newton | Airmail

  /** `allCases`: declaration order, which is also picker order. */
  const AllCases: seq<EmailClient> := [Mail, Gmail, Inbox, Outlook, Spark, Newton, Airmail]

  /** Position of a client in the registry. */
  function Ordinal(c: EmailClient): (i: nat)
    ensures i < |AllCases| && AllCases[i] == c
  {
    match c
    case Mail => 0
    case Gmail => 1
    case Inbox => 2
    case Outlook => 3
    case Spark => 4
    case Newton => 5
    case Airmail => 6
  }

  /** `rawValue`: the URL scheme prefix probed and opened for the client. */
  function RawValue(c: EmailClient): (r: string)
    ensures r == "mailto:" <==> c == Mail
  {
    match c
    case Mail => "mailto:"
    case Gmail => "googlegmail:///"
    case Inbox => "inbox-gmail://"
    case Outlook => "ms-outlook://"
    case Spark => "readdle-spark://"
    case Newton => "cloudmagic://"
    case Airmail => "airmail://"
  }

  /** `display`: the title of the client's entry in the picker. */
  function Display(c: EmailClient): (r: string)
    ensures |r| > 0
  {
    match c
    case Mail => "Mail"
    case Gmail => "Gmail"
    case Inbox => "Inbox"
    case Outlook => "Outlook"
    case Spark => "Spark"
    case Newton => "Newton"
    case Airmail => "Airmail"
  }

  /** `compose`: the segment after the scheme that starts a new message. */
  function Compose(c: EmailClient): (r: string)
    ensures c == Mail <==> r == RawValue(Mail)
    ensures c != Mail ==> EndsWith(r, "?")
    ensures '&' !in r
  {
    match c
    case Mail => "mailto:"
    case Gmail | Inbox => "co?"
    case Outlook | Spark | Newton | Airmail => "compose?"
  }

  /** `mailto`: the name of the recipient parameter. */
  function RecipientKey(c: EmailClient): (r: string)
    ensures r == "" <==> c == Mail
    ensures c != Mail ==> EndsWith(r, "=")
    ensures '&' !in r
  {
    match c
    case Mail => ""
    case Outlook | Gmail | Inbox | Newton | Airmail => "to="
    case Spark => "recipient="
  }

  /** `subject`: the name of the subject parameter. */
  function SubjectKey(c: EmailClient): (r: string)
    ensures EndsWith(r, "=") && '&' !in r
  {
    "subject="
  }

  /** `body`: the name of the body parameter. */
  function BodyKey(c: EmailClient): (r: string)
    ensures EndsWith(r, "=") && '&' !in r
    ensures r[0] != SubjectKey(c)[0]
  {
    match c
    case Mail | Outlook | Gmail | Inbox | Spark | Newton => "body="
    case Airmail => "plainBody="
  }

  /** `EmailClient(rawValue:)`, the initializer Swift derives for a
      string-backed enum: the first case in the registry with that raw value. */
  function FromRawValue(raw: string): (r: Option<EmailClient>)
    ensures r.Some? ==> RawValue(r.value) == raw
    ensures r.None? ==> forall c: EmailClient :: RawValue(c) != raw
  {
    AllCasesEnumeratesEachOnce();
    FirstWithRawValue(AllCases, raw)
  }

  function FirstWithRawValue(cs: seq<EmailClient>, raw: string): (r: Option<EmailClient>)
    ensures r.Some? ==> r.value in cs && RawValue(r.value) == raw
    ensures r.None? ==> forall c | c in cs :: RawValue(c) != raw
  {
    if cs == [] then None
    else if RawValue(cs[0]) == raw then Some(cs[0])
    else FirstWithRawValue(cs[1..], raw)
  }

  /** The registry lists every client exactly once, in declaration order. */
  lemma AllCasesEnumeratesEachOnce()
    ensures |AllCases| == 7
    ensures forall c: EmailClient :: c in AllCases
    ensures forall i, j | 0 <= i < j < |AllCases| :: AllCases[i] != AllCases[j]
    ensures forall i | 0 <= i < |AllCases| :: Ordinal(AllCases[i]) == i
  {
    forall c: EmailClient ensures c in AllCases {
      assert AllCases[Ordinal(c)] == c;
    }
  }

  /** The raw schemes are pairwise distinct, so the raw value names the client:
      decoding a client's own raw value gives that client back. */
  lemma RawValueRoundTrip(c: EmailClient)
    ensures FromRawValue(RawValue(c)) == Some(c)
  {
  }

  /** Every client has its own picker title. */
  lemma DisplayNamesDistinct(a: EmailClient, b: EmailClient)
    ensures Display(a) == Display(b) <==> a == b
  {
  }

  /** Mail reuses its scheme as its compose segment, which carries no `?`;
      Gmail and Inbox use `co?`; every other client uses `compose?`. */
  lemma ComposeSegments(c: EmailClient)
    ensures c == Mail ==> Compose(c) == RawValue(Mail) && '?' !in Compose(c)
    ensures c in {Gmail, Inbox} ==> Compose(c) == "co?"
    ensures c in {Outlook, Spark, Newton, Airmail} ==> Compose(c) == "compose?"
  {
  }

  /** The parameter keys: Spark names the recipient
      `recipient=`, the others `to=`; the subject key is `subject=`
      everywhere; the body key is `plainBody=` for Airmail and `body=`
      elsewhere. */
  lemma ParameterKeys(c: EmailClient)
    ensures RecipientKey(c) == "recipient=" <==> c == Spark
    ensures c != Mail && c != Spark ==> RecipientKey(c) == "to="
    ensures SubjectKey(c) == "subject="
    ensures BodyKey(c) == (if c == Airmail then "plainBody=" else "body=")
  {
  }
}

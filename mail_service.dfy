/** `MailService`: which clients are available, what the picker shows, what
    choosing a client does, and the singleton that carries one request from
    the picker to the chosen client. */
module MailService {
  import opened Wrappers
  import opened Text
  import opened EmailClients
  import opened MailCompose

  /** What the library asks of the operating system and of Foundation. */
  datatype Platform = Platform(
    parses: string -> bool,            // `URL(string:)` yields a URL
    canOpen: string -> bool,           // `UIApplication.shared.canOpenURL`
    canSendMail: bool,                 // `MFMailComposeViewController.canSendMail()`
    encode: string -> Option<string>)  // `addingPercentEncoding(withAllowedCharacters: .urlHostAllowed)`

  /** Identities of the caller's view controller and presentation closure. */
  datatype ViewController = ViewController(id: nat)
  datatype Presentation = Presentation(id: nat)

  /** The fields of the shared `manager`. */
  datatype Manager = Manager(
    presentation: Option<Presentation>,
    presentFrom: Option<ViewController>,
    subject: Option<string>,
    body: Option<string>,
    mailto: Option<string>)

  /** An entry of an alert: a client entry runs `completeAction(withURL:scheme:)`
      with the arguments it captured; a dismiss entry only closes the alert. */
  datatype AlertAction =
    | Choice(title: string, withURL: string, scheme: Option<string>)
    | Dismiss(title: string)

  datatype Alert =
    | ActionSheet(actions: seq<AlertAction>)
    | Notice(title: string, message: string, actions: seq<AlertAction>)

  /** The native composer as filled in: recipients, subject, HTML body. */
  datatype Composer = Composer(toRecipients: seq<string>, subject: Option<string>, htmlBody: Option<string>)

  datatype Screen = AlertScreen(alert: Alert) | ComposerScreen(composer: Composer)

  datatype Target = ByPresentation(presentation: Presentation) | OnViewController(vc: ViewController)

  /** What one step does to the outside world. */
  datatype Effect =
    | Idle
    | OpenUrl(url: string)
    | Present(screen: Screen, target: Target)

  /** The outcome of `fetchAlertController`: the new singleton fields, the
      clipboard, the alert to present (if any), and what ran immediately. */
  datatype FetchResult = FetchResult(manager: Manager, pasteboard: Option<string>, alert: Option<Alert>, effect: Effect)

  const CancelTitle: string := "Cancel"
  const OkTitle: string := "Ok"
  const MessageUrl: string := "message://"
  const DefaultNoAccountTitle: string := "How do you check your mail?"
  const DefaultNoAccountMessage: string := "No email apps were found on your device."

  /** `String(format: ", %@ has been copied to your clipboard.", mailto)`. */
  function CopiedNotice(mailto: string): (r: string)
    ensures OccursAt(r, mailto, 2)
  {
    var r := ", " + mailto + " has been copied to your clipboard.";
    assert r[2..2 + |mailto|] == mailto;
    r
  }

  /** `composeString(client:)` over the singleton's stored fields. */
  function Scheme(p: Platform, m: Manager, c: EmailClient): (r: Option<string>)
    ensures r.None? <==> m.mailto.None?
    ensures r.Some? ==> StartsWith(r.value, Compose(c) + RecipientKey(c) + m.mailto.value)
  {
    ComposeString(c, m.mailto, m.subject, m.body, p.encode)
  }

  /** The URL probed for a client: its scheme, then its tail if there is one. */
  function ProbeUrl(p: Platform, m: Manager, c: EmailClient): (r: string)
    ensures StartsWith(r, RawValue(c))
    ensures m.mailto.None? ==> r == RawValue(c)
    ensures m.mailto.Some? ==> StartsWith(r, RawValue(c) + (Compose(c) + RecipientKey(c) + m.mailto.value))
  {
    var tail := Scheme(p, m, c).GetOr("");
    var h := if m.mailto.Some? then Compose(c) + RecipientKey(c) + m.mailto.value else [];
    assert StartsWith(tail, h);
    StartsWithAppend(RawValue(c), tail, h);
    RawValue(c) + tail
  }

  /** `openAction`: an entry for the picker when the URL parses, the OS has a
      handler for it, and, if the URL mentions `mailto:`, the device can send mail. */
  function OpenAction(p: Platform, withURL: string, title: string, scheme: Option<string>): (r: Option<AlertAction>)
    ensures r.Some? ==> r.value == Choice(title, withURL, scheme)
    ensures var url := withURL + scheme.GetOr("");
      r.Some? <==> p.parses(url) && p.canOpen(url) && (p.canSendMail || !Contains(url, RawValue(Mail)))
  {
    var url := withURL + scheme.GetOr("");
    if !(p.parses(url) && p.canOpen(url)) then None
    else if Contains(url, RawValue(Mail)) && !p.canSendMail then None
    else Some(Choice(title, withURL, scheme))
  }

  /** The picker entry for a client, built as `fetchAlertController` builds it. */
  function ClientAction(p: Platform, m: Manager, c: EmailClient): Option<AlertAction> {
    OpenAction(p, RawValue(c), Display(c), Scheme(p, m, c))
  }

  predicate Available(p: Platform, m: Manager, c: EmailClient) {
    ClientAction(p, m, c).Some?
  }

  /** The entry a client gets when it is available. */
  function ChoiceFor(p: Platform, m: Manager, c: EmailClient): AlertAction {
    Choice(Display(c), RawValue(c), Scheme(p, m, c))
  }

  function Choices(p: Platform, m: Manager, cs: seq<EmailClient>): (r: seq<AlertAction>)
    ensures |r| == |cs|
  {
    if cs == [] then [] else [ChoiceFor(p, m, cs[0])] + Choices(p, m, cs[1..])
  }

  /** Clients listed in strictly increasing registry order. */
  predicate InRegistryOrder(cs: seq<EmailClient>) {
    forall i, j | 0 <= i < j < |cs| :: Ordinal(cs[i]) < Ordinal(cs[j])
  }

  /** `availableClients`: the available clients among `cs`, in the order of `cs`. */
  function AvailableAmong(p: Platform, m: Manager, cs: seq<EmailClient>): (r: seq<EmailClient>)
    ensures |r| <= |cs|
    ensures forall c :: c in r <==> c in cs && Available(p, m, c)
    ensures InRegistryOrder(cs) ==> InRegistryOrder(r)
  {
    if cs == [] then []
    else
      var rest := AvailableAmong(p, m, cs[1..]);
      assert cs == [cs[0]] + cs[1..];
      if Available(p, m, cs[0]) then
        if InRegistryOrder(cs) then
          OrderedCons(cs, rest);
          [cs[0]] + rest
        else [cs[0]] + rest
      else rest
  }

  /** The head of an ordered list, put before an ordered selection from its
      tail, keeps the order. */
  lemma OrderedCons(cs: seq<EmailClient>, rest: seq<EmailClient>)
    requires cs != [] && InRegistryOrder(cs) && InRegistryOrder(rest)
    requires forall c | c in rest :: c in cs[1..]
    ensures InRegistryOrder([cs[0]] + rest)
  {
    forall c | c in rest ensures Ordinal(cs[0]) < Ordinal(c) {
      var k :| 0 <= k < |cs[1..]| && cs[1..][k] == c;
      assert cs[k + 1] == c;
    }
  }

  /** `actions`: the picker entries of the available clients among `cs`. */
  function ActionsAmong(p: Platform, m: Manager, cs: seq<EmailClient>): (r: seq<AlertAction>)
    ensures |r| <= |cs|
    ensures forall k | 0 <= k < |r| :: r[k].Choice?
  {
    if cs == [] then []
    else
      match ClientAction(p, m, cs[0])
      case Some(a) => [a] + ActionsAmong(p, m, cs[1..])
      case None => ActionsAmong(p, m, cs[1..])
  }

  /** Every available client and no other, in registry order. */
  function AvailableClients(p: Platform, m: Manager): (r: seq<EmailClient>)
    ensures forall c :: c in r <==> Available(p, m, c)
    ensures InRegistryOrder(r)
  {
    AllCasesEnumeratesEachOnce();
    AvailableAmong(p, m, AllCases)
  }

  /** The two lists `fetchAlertController` builds agree: the entries are
      those of the available clients, one each, in the same order. */
  lemma {:induction false} ActionsAreChoicesOfAvailable(p: Platform, m: Manager, cs: seq<EmailClient>)
    ensures ActionsAmong(p, m, cs) == Choices(p, m, AvailableAmong(p, m, cs))
  {
    if cs != [] {
      ActionsAreChoicesOfAvailable(p, m, cs[1..]);
      if Available(p, m, cs[0]) {
        assert ([cs[0]] + AvailableAmong(p, m, cs[1..]))[1..] == AvailableAmong(p, m, cs[1..]);
      }
    }
  }

  /** `completeAction(withURL:scheme:)` against the stored fields. */
  function Completion(p: Platform, m: Manager, withURL: string, scheme: Option<string>): (r: Effect)
    ensures r.OpenUrl? ==> p.parses(r.url)
    ensures r.OpenUrl? && withURL == RawValue(Mail) ==> m.mailto.None? && r.url == MessageUrl
    ensures withURL != RawValue(Mail) ==>
      r == (if p.parses(withURL + scheme.GetOr("")) && p.canOpen(withURL + scheme.GetOr(""))
            then OpenUrl(withURL + scheme.GetOr("")) else Idle)
    ensures r.Present? ==>
      && withURL == RawValue(Mail) && m.mailto.Some?
      && r.screen == ComposerScreen(Composer([m.mailto.value], m.subject, m.body))
      && (m.presentation.Some? <==> r.target.ByPresentation?)
  {
    if withURL == RawValue(Mail) then
      match m.mailto
      case None => if p.parses(MessageUrl) then OpenUrl(MessageUrl) else Idle
      case Some(to) =>
        var composer := Composer([to], m.subject, m.body);
        if m.presentation.Some? then Present(ComposerScreen(composer), ByPresentation(m.presentation.value))
        else if m.presentFrom.Some? then Present(ComposerScreen(composer), OnViewController(m.presentFrom.value))
        else Idle
    else
      var url := withURL + scheme.GetOr("");
      if p.parses(url) && p.canOpen(url) then OpenUrl(url) else Idle
  }

  /** What tapping an alert entry does. */
  function Tap(p: Platform, m: Manager, a: AlertAction): (r: Effect)
    ensures a.Dismiss? ==> r == Idle
    ensures a.Choice? ==> r == Completion(p, m, a.withURL, a.scheme)
  {
    match a
    case Choice(_, withURL, scheme) => Completion(p, m, withURL, scheme)
    case Dismiss(_) => Idle
  }

  /** `fetchAlertController`: store the request, then open the only available
      client at once, or offer the available ones, or explain that there are none. */
  function Fetch(p: Platform, m: Manager, pasteboard: Option<string>, subject: Option<string>,
                 body: Option<string>, mailto: Option<string>, noAccountTitle: string,
                 noAccountMessage: string): (r: FetchResult)
    ensures r.manager == m.(subject := subject, body := body, mailto := mailto)
    ensures var available := AvailableClients(p, r.manager);
      && (|available| == 1 ==>
            && r.alert.None?
            && r.pasteboard == pasteboard
            && r.effect == Completion(p, r.manager, RawValue(available[0]), Scheme(p, r.manager, available[0])))
      && (|available| >= 2 ==>
            && r.alert == Some(ActionSheet(Choices(p, r.manager, available) + [Dismiss(CancelTitle)]))
            && r.pasteboard == pasteboard
            && r.effect == Idle)
      && (|available| == 0 ==>
            var copied := mailto.Some? && mailto.value != "";
            && r.alert == Some(Notice(noAccountTitle,
                                      if copied then noAccountMessage + CopiedNotice(mailto.value) else noAccountMessage,
                                      [Dismiss(OkTitle)]))
            && r.pasteboard == (if copied then mailto else pasteboard)
            && r.effect == Idle)
  {
    var stored := m.(subject := subject, body := body, mailto := mailto);
    var available := AvailableClients(p, stored);
    var actions := ActionsAmong(p, stored, AllCases);
    ActionsAreChoicesOfAvailable(p, stored, AllCases);
    if |available| == 1 then
      FetchResult(stored, pasteboard, None,
                  Completion(p, stored, RawValue(available[0]), Scheme(p, stored, available[0])))
    else if |actions| > 0 then
      FetchResult(stored, pasteboard, Some(ActionSheet(actions + [Dismiss(CancelTitle)])), Idle)
    else if mailto.Some? && |mailto.value| > 0 then
      FetchResult(stored, mailto, Some(Notice(noAccountTitle, noAccountMessage + CopiedNotice(mailto.value), [Dismiss(OkTitle)])), Idle)
    else
      FetchResult(stored, pasteboard, Some(Notice(noAccountTitle, noAccountMessage, [Dismiss(OkTitle)])), Idle)
  }

  /** The URL probed for mail always starts with `mailto:`, so mail is only
      ever available on a device that can send mail. */
  lemma AvailableMailNeedsSendMail(p: Platform, m: Manager)
    ensures Available(p, m, Mail) ==> p.canSendMail
  {
    StartsWithContains(ProbeUrl(p, m, Mail), RawValue(Mail));
  }

  /** For any other client the mail-account guard bites only when its URL
      mentions `mailto:`; otherwise availability is the OS's answer alone. */
  lemma OtherClientsIgnoreSendMail(p: Platform, m: Manager, c: EmailClient)
    requires !Contains(ProbeUrl(p, m, c), RawValue(Mail))
    ensures Available(p, m, c) <==> p.parses(ProbeUrl(p, m, c)) && p.canOpen(ProbeUrl(p, m, c))
  {
  }

  /** Choosing an available client other than mail opens exactly the URL that
      was probed for it. */
  lemma AvailableClientOpensProbedUrl(p: Platform, m: Manager, c: EmailClient)
    requires Available(p, m, c) && c != Mail
    ensures Completion(p, m, RawValue(c), Scheme(p, m, c)) == OpenUrl(ProbeUrl(p, m, c))
  {
  }

  /** Choosing mail opens the native composer addressed to the stored
      recipient, shown through the presentation closure when one was given,
      else on the view controller; without a recipient it opens the Mail app. */
  lemma MailCompletion(p: Platform, m: Manager, scheme: Option<string>)
    ensures var e := Completion(p, m, RawValue(Mail), scheme);
      && (m.mailto.None? ==> e == (if p.parses(MessageUrl) then OpenUrl(MessageUrl) else Idle))
      && (m.mailto.Some? && m.presentation.Some? ==>
            e == Present(ComposerScreen(Composer([m.mailto.value], m.subject, m.body)), ByPresentation(m.presentation.value)))
      && (m.mailto.Some? && m.presentation.None? && m.presentFrom.Some? ==>
            e == Present(ComposerScreen(Composer([m.mailto.value], m.subject, m.body)), OnViewController(m.presentFrom.value)))
      && (m.mailto.Some? && m.presentation.None? && m.presentFrom.None? ==> e == Idle)
  {
  }

  /** With exactly one available client other than mail, the request opens
      that client's URL straight away, with no alert and the clipboard untouched. */
  lemma SingleClientOpensAtOnce(p: Platform, m: Manager, pasteboard: Option<string>, subject: Option<string>,
                                body: Option<string>, mailto: Option<string>, title: string, message: string)
    requires var stored := m.(subject := subject, body := body, mailto := mailto);
      |AvailableClients(p, stored)| == 1 && AvailableClients(p, stored)[0] != Mail
    ensures var r := Fetch(p, m, pasteboard, subject, body, mailto, title, message);
      && r.alert.None? && r.pasteboard == pasteboard
      && r.effect == OpenUrl(ProbeUrl(p, r.manager, AvailableClients(p, r.manager)[0]))
  {
    var stored := m.(subject := subject, body := body, mailto := mailto);
    var r := Fetch(p, m, pasteboard, subject, body, mailto, title, message);
    assert r.manager == stored;
    var c := AvailableClients(p, stored)[0];
    assert c in AvailableClients(p, stored);
    AvailableClientOpensProbedUrl(p, stored, c);
    assert r.effect == Completion(p, stored, RawValue(c), Scheme(p, stored, c));
  }

  /** With two or more available clients, tapping the sheet's k-th entry does
      what choosing the k-th available client does, and its last entry,
      Cancel, does nothing. */
  lemma SheetEntriesOpenTheirClients(p: Platform, m: Manager, pasteboard: Option<string>, subject: Option<string>,
                                     body: Option<string>, mailto: Option<string>, title: string, message: string,
                                     k: nat)
    requires |AvailableClients(p, m.(subject := subject, body := body, mailto := mailto))| >= 2
    ensures var r := Fetch(p, m, pasteboard, subject, body, mailto, title, message);
      var available := AvailableClients(p, r.manager);
      var sheet := r.alert.value.actions;
      && |sheet| == |available| + 1
      && Tap(p, r.manager, sheet[|available|]) == Idle
      && (k < |available| ==>
            && sheet[k].title == Display(available[k])
            && Tap(p, r.manager, sheet[k]) == Completion(p, r.manager, RawValue(available[k]), Scheme(p, r.manager, available[k])))
  {
    var r := Fetch(p, m, pasteboard, subject, body, mailto, title, message);
    var available := AvailableClients(p, r.manager);
    if k < |available| {
      ChoicesAt(p, r.manager, available, k);
    }
  }

  lemma {:induction false} ChoicesAt(p: Platform, m: Manager, cs: seq<EmailClient>, k: nat)
    requires k < |cs|
    ensures Choices(p, m, cs)[k] == ChoiceFor(p, m, cs[k])
  {
    if k > 0 {
      ChoicesAt(p, m, cs[1..], k - 1);
    }
  }

  /** The shared `manager` and the system clipboard. */
  class MailService {
    var presentation: Option<Presentation>
    var presentFrom: Option<ViewController>
    var subject: Option<string>
    var body: Option<string>
    var mailto: Option<string>
    /** `UIPasteboard.general.string`. */
    var pasteboard: Option<string>

    function State(): Manager
      reads this
    {
      Manager(presentation, presentFrom, subject, body, mailto)
    }

    /** `MailService()`: nothing stored yet; the clipboard holds what it holds. */
    constructor (clipboard: Option<string>)
      ensures State() == Manager(None, None, None, None, None)
      ensures pasteboard == clipboard
    {
      presentation, presentFrom := None, None;
      subject, body, mailto := None, None, None;
      pasteboard := clipboard;
    }

    /** `completeAction(withURL:scheme:)`: reads the stored fields and opens a
        URL or presents the native composer. */
    method CompleteAction(p: Platform, withURL: string, scheme: Option<string>) returns (effect: Effect)
      ensures effect == Completion(p, State(), withURL, scheme)
    {
      if withURL == RawValue(Mail) {
        if mailto.None? {
          effect := if p.parses(MessageUrl) then OpenUrl(MessageUrl) else Idle;
          return;
        }
        var controller := Composer([mailto.value], None, None);
        if subject.Some? { controller := controller.(subject := subject); }
        if body.Some? { controller := controller.(htmlBody := body); }
        if presentation.Some? {
          effect := Present(ComposerScreen(controller), ByPresentation(presentation.value));
        } else if presentFrom.Some? {
          effect := Present(ComposerScreen(controller), OnViewController(presentFrom.value));
        } else {
          effect := Idle;
        }
      } else {
        var url := withURL + scheme.GetOr("");
        if !(p.parses(url) && p.canOpen(url)) {
          return Idle;
        }
        effect := OpenUrl(url);
      }
    }

    /** The handler of a tapped alert entry. */
    method HandleAction(p: Platform, a: AlertAction) returns (effect: Effect)
      ensures effect == Tap(p, State(), a)
    {
      match a
      case Choice(_, withURL, scheme) =>
        effect := CompleteAction(p, withURL, scheme);
      case Dismiss(_) =>
        effect := Idle;
    }

    /** `fetchAlertController`: overwrites the stored request, then decides. */
    method FetchAlertController(p: Platform, subject: Option<string>, body: Option<string>, mailto: Option<string>,
                                noAccountTitle: string, noAccountMessage: string)
      returns (alert: Option<Alert>, effect: Effect)
      modifies this
      ensures var r := Fetch(p, old(State()), old(pasteboard), subject, body, mailto, noAccountTitle, noAccountMessage);
        State() == r.manager && pasteboard == r.pasteboard && alert == r.alert && effect == r.effect
    {
      this.body := body;
      this.subject := subject;
      this.mailto := mailto;
      var stored := State();
      assert stored == old(State()).(subject := subject, body := body, mailto := mailto);
      var availableClients := AvailableClients(p, stored);
      var actions := ActionsAmong(p, stored, AllCases);
      if |availableClients| == 1 {
        effect := CompleteAction(p, RawValue(availableClients[0]), Scheme(p, stored, availableClients[0]));
        alert := None;
        return;
      }
      effect := Idle;
      if |actions| > 0 {
        alert := Some(ActionSheet(actions + [Dismiss(CancelTitle)]));
      } else {
        var message := noAccountMessage;
        if mailto.Some? && |mailto.value| > 0 {
          pasteboard := mailto;
          message := message + CopiedNotice(mailto.value);
        }
        alert := Some(Notice(noAccountTitle, message, [Dismiss(OkTitle)]));
      }
    }

    /** `request(fromVC:...)`: remember the view controller, then present the
        alert on it when there is one to present. */
    method RequestFrom(p: Platform, viewController: Option<ViewController>, subject: Option<string> := None,
                       body: Option<string> := None, mailto: Option<string> := None,
                       noAccountTitle: string := DefaultNoAccountTitle,
                       noAccountMessage: string := DefaultNoAccountMessage) returns (effect: Effect)
      modifies this
      ensures var r := Fetch(p, old(State()).(presentFrom := viewController), old(pasteboard),
                             subject, body, mailto, noAccountTitle, noAccountMessage);
        && State() == r.manager && pasteboard == r.pasteboard
        && effect == (if r.alert.None? then r.effect
                      else if viewController.None? then Idle
                      else Present(AlertScreen(r.alert.value), OnViewController(viewController.value)))
    {
      presentFrom := viewController;
      var alert, e := FetchAlertController(p, subject, body, mailto, noAccountTitle, noAccountMessage);
      if alert.Some? {
        effect := if viewController.Some? then Present(AlertScreen(alert.value), OnViewController(viewController.value)) else Idle;
      } else {
        effect := e;
      }
    }

    /** `request(...presentation:)`: remember the closure, then hand it the
        alert when there is one to present. */
    method RequestWith(p: Platform, subject: Option<string> := None, body: Option<string> := None,
                       mailto: Option<string> := None, noAccountTitle: string := DefaultNoAccountTitle,
                       noAccountMessage: string := DefaultNoAccountMessage, nameonly presentation: Presentation)
      returns (effect: Effect)
      modifies this
      ensures var r := Fetch(p, old(State()).(presentation := Some(presentation)), old(pasteboard),
                             subject, body, mailto, noAccountTitle, noAccountMessage);
        && State() == r.manager && pasteboard == r.pasteboard
        && effect == (if r.alert.None? then r.effect else Present(AlertScreen(r.alert.value), ByPresentation(presentation)))
    {
      this.presentation := Some(presentation);
      var alert, e := FetchAlertController(p, subject, body, mailto, noAccountTitle, noAccountMessage);
      effect := if alert.Some? then Present(AlertScreen(alert.value), ByPresentation(presentation)) else e;
    }
  }
}

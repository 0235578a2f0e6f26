/**
 * Sending the digest: one message per recipient over an authenticated SMTP
 * session.  The environment is a map from variable names to values; the
 * SMTP session is represented by two functions: one that opens, secures and
 * logs in to the server (or fails), and one that hands over one message
 * (or fails).
 */
module EmailSender {
  import opened Wrappers
  import opened Text

  type Env = map<string, string>

  const ToVar: string := "NEWS_TO_EMAIL"
  const FromVar: string := "NEWS_FROM_EMAIL"
  const HostVar: string := "NEWS_SMTP_HOST"
  const PortVar: string := "NEWS_SMTP_PORT"
  const UserVar: string := "NEWS_SMTP_USER"
  const PassVar: string := "NEWS_SMTP_PASS"

  const DefaultHost: string := "smtp.gmail.com"
  const DefaultPort: string := "587"

  /** `os.getenv(name, "")`: the value when the variable is set, even if it is empty. */
  function GetEnv(env: Env, name: string): string
  {
    if name in env then env[name] else ""
  }

  /** `os.getenv(name) or default`: the default when the variable is unset or empty, else its value. */
  function GetEnvOr(env: Env, name: string, default: string): (v: string)
    ensures v == default <==> (name !in env || env[name] == "" || env[name] == default)
    ensures name in env && env[name] != "" ==> v == env[name]
  {
    if name in env && env[name] != "" then env[name] else default
  }

  // ---------------------------------------------------------------------------
  // recipients
  // ---------------------------------------------------------------------------

  /** `list(dict.fromkeys(xs))`: the first occurrence of each value, in order. */
  function Dedup(xs: seq<string>): seq<string>
  {
    if xs == [] then []
    else
      var d := Dedup(xs[..|xs| - 1]);
      if xs[|xs| - 1] in d then d else d + [xs[|xs| - 1]]
  }

  /** Deduplication keeps exactly the values of its input. */
  lemma {:induction false} DedupElements(xs: seq<string>)
    ensures forall x :: x in Dedup(xs) <==> x in xs
  {
    if xs != [] {
      var init := xs[..|xs| - 1];
      DedupElements(init);
      assert xs == init + [xs[|xs| - 1]];
    }
  }

  /** No value occurs twice after deduplication. */
  lemma {:induction false} DedupDistinct(xs: seq<string>)
    ensures forall i, j :: 0 <= i < j < |Dedup(xs)| ==> Dedup(xs)[i] != Dedup(xs)[j]
  {
    if xs != [] {
      DedupDistinct(xs[..|xs| - 1]);
    }
  }

  /** The index of the first occurrence of `x` in `xs`. */
  function FirstIndex(xs: seq<string>, x: string): (i: nat)
    requires x in xs
    ensures i < |xs| && xs[i] == x
    ensures forall k :: 0 <= k < i ==> xs[k] != x
  {
    if xs[0] == x then 0 else 1 + FirstIndex(xs[1..], x)
  }

  lemma {:induction false} FirstIndexOfPrefix(xs: seq<string>, n: nat, x: string)
    requires n <= |xs| && x in xs[..n]
    ensures FirstIndex(xs, x) == FirstIndex(xs[..n], x)
  {
    var i := FirstIndex(xs[..n], x);
    assert xs[i] == x;
    assert forall k :: 0 <= k < i ==> xs[k] == xs[..n][k];
  }

  /** The values come out in the order of their first occurrence. */
  lemma {:induction false} DedupFirstOccurrenceOrder(xs: seq<string>, i: nat, j: nat)
    requires i < j < |Dedup(xs)|
    ensures Dedup(xs)[i] in xs && Dedup(xs)[j] in xs
    ensures FirstIndex(xs, Dedup(xs)[i]) < FirstIndex(xs, Dedup(xs)[j])
  {
    var n := |xs| - 1;
    var init := xs[..n];
    var d := Dedup(init);
    DedupElements(xs);
    DedupElements(init);
    assert Dedup(xs)[i] in Dedup(xs) && Dedup(xs)[j] in Dedup(xs);
    if j < |d| {
      DedupFirstOccurrenceOrder(init, i, j);
      FirstIndexOfPrefix(xs, n, d[i]);
      FirstIndexOfPrefix(xs, n, d[j]);
    } else {
      var last := xs[n];
      assert Dedup(xs)[j] == last && last !in init;
      assert d[i] in d;
      FirstIndexOfPrefix(xs, n, d[i]);
      forall k | 0 <= k < n ensures xs[k] != last {
        assert xs[k] == init[k];
      }
    }
  }

  /** Deduplicating a list without repeats leaves it unchanged. */
  lemma {:induction false} DedupOfDistinct(xs: seq<string>)
    requires forall i, j :: 0 <= i < j < |xs| ==> xs[i] != xs[j]
    ensures Dedup(xs) == xs
  {
    if xs != [] {
      var init := xs[..|xs| - 1];
      DedupOfDistinct(init);
      DedupElements(init);
      assert xs == init + [xs[|xs| - 1]];
    }
  }

  /** The recipient list: comma-separated, stripped, blanks dropped, duplicates dropped. */
  function ParseRecipients(raw: string): seq<string>
  {
    Dedup(NonBlankStripped(SplitOn(raw, ',')))
  }

  /**
   * Every recipient is a non-blank, stripped address without a comma; no
   * address appears twice; and an address is a recipient exactly when some
   * comma-separated field of the raw value strips to it.
   */
  lemma ParseRecipientsSpec(raw: string)
    ensures var r := ParseRecipients(raw);
      && (forall k :: 0 <= k < |r| ==> r[k] != [] && IsStripped(r[k]) && ',' !in r[k])
      && (forall i, j :: 0 <= i < j < |r| ==> r[i] != r[j])
      && (forall x :: x in r <==> x != [] && exists p :: p in SplitOn(raw, ',') && Strip(p) == x)
  {
    var parts := SplitOn(raw, ',');
    var kept := NonBlankStripped(parts);
    var r := ParseRecipients(raw);
    DedupElements(kept);
    DedupDistinct(kept);
    forall x ensures x in r <==> x != [] && exists p :: p in parts && Strip(p) == x {
      NonBlankStrippedElements(parts, x);
    }
    forall k | 0 <= k < |r| ensures r[k] != [] && IsStripped(r[k]) && ',' !in r[k] {
      assert r[k] in r;
      NonBlankStrippedElements(parts, r[k]);
      var p :| p in parts && Strip(p) == r[k];
      StripHasNo(p, ',');
    }
  }

  /** Stripping does not introduce a character. */
  lemma StripHasNo(p: string, c: char)
    requires c !in p
    ensures c !in Strip(p)
  {
    StripAvoids(p, {c});
  }

  // ---------------------------------------------------------------------------
  // configuration
  // ---------------------------------------------------------------------------

  /** The characters removed from an application password: spaces and no-break spaces. */
  const PasswordNoise: set<char> := {' ', '\U{00A0}'}

  /** `password.strip().replace(" ", "").replace("\U{00A0}", "")`. */
  function CleanPassword(raw: string): (p: string)
    ensures forall k :: 0 <= k < |p| ==> p[k] !in PasswordNoise
  {
    RemoveChars(Strip(raw), PasswordNoise)
  }

  lemma {:induction false} RemoveCharsNone(s: string, cs: set<char>)
    requires forall k :: 0 <= k < |s| ==> s[k] !in cs
    ensures RemoveChars(s, cs) == s
  {
    if s != [] {
      RemoveCharsNone(s[1..], cs);
    }
  }

  lemma {:induction false} RemoveCharsIdempotent(s: string, cs: set<char>)
    ensures RemoveChars(RemoveChars(s, cs), cs) == RemoveChars(s, cs)
  {
    RemoveCharsNone(RemoveChars(s, cs), cs);
  }

  lemma {:induction false} RemoveCharsAppend(a: string, b: string, cs: set<char>)
    ensures RemoveChars(a + b, cs) == RemoveChars(a, cs) + RemoveChars(b, cs)
  {
    if a != [] {
      assert (a + b)[0] == a[0] && (a + b)[1..] == a[1..] + b;
      RemoveCharsAppend(a[1..], b, cs);
    } else {
      assert a + b == b;
    }
  }

  /** Removing characters that the stripped ends do not hold keeps the text stripped. */
  lemma RemoveCharsKeepsStripped(s: string, cs: set<char>)
    requires IsStripped(s) && cs <= Whitespace
    ensures IsStripped(RemoveChars(s, cs))
  {
    if |s| >= 2 {
      var mid := s[1..|s| - 1];
      assert s == [s[0]] + mid + [s[|s| - 1]];
      RemoveCharsAppend([s[0]] + mid, [s[|s| - 1]], cs);
      RemoveCharsAppend([s[0]], mid, cs);
    }
  }

  /** A password without spaces or other blanks is kept as it is. */
  lemma CleanPasswordOfPlain(raw: string)
    requires forall k :: 0 <= k < |raw| ==> raw[k] !in Whitespace
    ensures CleanPassword(raw) == raw
  {
    assert Strip(raw) == raw;
    assert PasswordNoise <= Whitespace;
    RemoveCharsNone(raw, PasswordNoise);
  }

  /** Cleaning a cleaned password changes nothing. */
  lemma CleanPasswordIdempotent(raw: string)
    ensures CleanPassword(CleanPassword(raw)) == CleanPassword(raw)
  {
    var c := CleanPassword(raw);
    assert PasswordNoise <= Whitespace;
    RemoveCharsKeepsStripped(Strip(raw), PasswordNoise);
    assert Strip(c) == c;
    RemoveCharsNone(c, PasswordNoise);
  }

  /** `int(s)` in base 10 for an already stripped text: an optional sign and ASCII digits. */
  function ParseInt(s: string): (r: Option<int>)
    ensures r.Some? ==> s != []
  {
    if s != [] && (s[0] == '+' || s[0] == '-') then
      var body := s[1..];
      if body != [] && forall k :: 0 <= k < |body| ==> IsDigit(body[k]) then
        Some(if s[0] == '-' then -(DigitsValue(body) as int) else DigitsValue(body))
      else None
    else if s != [] && forall k :: 0 <= k < |s| ==> IsDigit(s[k]) then Some(DigitsValue(s))
    else None
  }

  /** Parsing gives back every number written in decimal without a sign. */
  lemma ParseIntOfNatToString(n: nat)
    ensures ParseInt(NatToString(n)) == Some(n)
  {
    var s := NatToString(n);
    assert IsDigit(s[0]);
    DigitsValueOfNatToString(n);
  }

  /** Why the configuration is refused, in the order the checks are made. */
  datatype ConfigError =
    | BadPort(text: string)        // `int()` raises ValueError
    | NoRecipients                 // NEWS_TO_EMAIL is empty
    | MissingCredentials           // NEWS_FROM_EMAIL / NEWS_SMTP_USER / NEWS_SMTP_PASS missing
    | SenderMismatch               // NEWS_FROM_EMAIL differs from NEWS_SMTP_USER

  /** The settings of one sending run. */
  datatype Config = Config(
    recipients: seq<string>,
    fromEmail: string,
    host: string,
    port: int,
    user: string,
    password: string)

  /** The settings, or the first check they fail. */
  datatype Checked = Invalid(reason: ConfigError) | Valid(config: Config)

  /** The cleaned environment values, before any check. */
  datatype Settings = Settings(
    recipients: seq<string>,
    fromEmail: string,
    host: string,
    portText: string,
    user: string,
    password: string)

  /** Reads the settings from the environment, with the defaults for host and port. */
  function ReadSettings(env: Env): Settings
  {
    Settings(ParseRecipients(GetEnv(env, ToVar)),
             Strip(GetEnvOr(env, FromVar, "")),
             Strip(GetEnvOr(env, HostVar, DefaultHost)),
             Strip(GetEnvOr(env, PortVar, DefaultPort)),
             Strip(GetEnvOr(env, UserVar, "")),
             CleanPassword(GetEnvOr(env, PassVar, "")))
  }

  /** The checks on the settings, in the order they are made. */
  function CheckSettings(s: Settings): Checked
  {
    match ParseInt(s.portText)
    case None => Invalid(BadPort(s.portText))
    case Some(port) =>
      if s.recipients == [] then Invalid(NoRecipients)
      else if s.fromEmail == [] || s.user == [] || s.password == [] then Invalid(MissingCredentials)
      else if s.fromEmail != s.user then Invalid(SenderMismatch)
      else Valid(Config(s.recipients, s.fromEmail, s.host, port, s.user, s.password))
  }

  /** Reads and checks the settings, failing at the first check that does not hold. */
  function LoadConfig(env: Env): Checked
  {
    CheckSettings(ReadSettings(env))
  }

  /**
   * Settings are accepted exactly when the port parses, there is a
   * recipient, sender, user and password are all non-empty and the sender is
   * the user; the accepted configuration holds the settings unchanged.
   */
  lemma CheckSettingsAccepts(s: Settings)
    ensures CheckSettings(s).Valid? <==>
      (ParseInt(s.portText).Some? && s.recipients != [] && s.fromEmail != [] && s.user != [] && s.password != []
       && s.fromEmail == s.user)
    ensures CheckSettings(s).Valid? ==>
      var c := CheckSettings(s).config;
      && c.recipients == s.recipients && c.fromEmail == c.user == s.user && c.host == s.host
      && Some(c.port) == ParseInt(s.portText) && c.password == s.password
  {
  }

  /**
   * The settings are accepted exactly when the port parses, there is a
   * recipient, sender, user and password are all given and the sender is the
   * user; the accepted settings are the cleaned environment values.
   */
  lemma LoadConfigAccepts(env: Env)
    ensures var fromEmail := Strip(GetEnvOr(env, FromVar, ""));
      var user := Strip(GetEnvOr(env, UserVar, ""));
      var password := CleanPassword(GetEnvOr(env, PassVar, ""));
      var port := ParseInt(Strip(GetEnvOr(env, PortVar, DefaultPort)));
      LoadConfig(env).Valid? <==>
        (port.Some? && ParseRecipients(GetEnv(env, ToVar)) != []
         && fromEmail != [] && user != [] && password != [] && fromEmail == user)
    ensures match LoadConfig(env)
      case Invalid(_) => true
      case Valid(c) =>
      && c.recipients == ParseRecipients(GetEnv(env, ToVar))
      && c.fromEmail == c.user == Strip(GetEnvOr(env, UserVar, ""))
      && c.host == Strip(GetEnvOr(env, HostVar, DefaultHost))
      && Some(c.port) == ParseInt(Strip(GetEnvOr(env, PortVar, DefaultPort)))
      && c.password == CleanPassword(GetEnvOr(env, PassVar, ""))
  {
    CheckSettingsAccepts(ReadSettings(env));
  }

  /** A bad port is reported before everything else, even before an empty recipient list. */
  lemma LoadConfigErrorOrder(env: Env)
    ensures ParseInt(Strip(GetEnvOr(env, PortVar, DefaultPort))).None? ==>
      LoadConfig(env) == Invalid(BadPort(Strip(GetEnvOr(env, PortVar, DefaultPort))))
    ensures ParseInt(Strip(GetEnvOr(env, PortVar, DefaultPort))).Some? && ParseRecipients(GetEnv(env, ToVar)) == [] ==>
      LoadConfig(env) == Invalid(NoRecipients)
  {
  }

  /** With the host and port variables unset or empty the Gmail server on port 587 is used. */
  lemma LoadConfigDefaults(env: Env)
    requires HostVar !in env || env[HostVar] == ""
    requires PortVar !in env || env[PortVar] == ""
    requires LoadConfig(env).Valid?
    ensures LoadConfig(env).config.host == DefaultHost && LoadConfig(env).config.port == 587
  {
    LoadConfigAccepts(env);
    assert GetEnvOr(env, HostVar, DefaultHost) == DefaultHost;
    assert GetEnvOr(env, PortVar, DefaultPort) == DefaultPort;
    StrippedConstant(DefaultHost);
    StrippedConstant(DefaultPort);
    DefaultPortValue();
  }

  lemma StrippedConstant(s: string)
    requires s == DefaultHost || s == DefaultPort
    ensures Strip(s) == s
  {
    assert s[0] !in Whitespace && s[|s| - 1] !in Whitespace;
    StripOfStripped(s, Whitespace);
  }

  lemma DefaultPortValue()
    ensures ParseInt(DefaultPort) == Some(587)
  {
    var s := DefaultPort;
    assert s[..2] == "58" && s[..2][..1] == "5" && s[..2][..1][..0] == "";
    assert DigitsValue("5") == 5;
    assert DigitsValue("58") == 58;
  }

  // ---------------------------------------------------------------------------
  // sending
  // ---------------------------------------------------------------------------

  /** The plain-text alternative of every message. */
  const PlainNotice: string := "Peržiūrėkite šį laišką HTML režimu."

  /** One `multipart/alternative` message with its envelope. */
  datatype Message = Message(
    subject: string,
    fromEmail: string,
    to: string,
    envelopeTo: seq<string>,
    plain: string,
    html: string)

  /** The message for one recipient. */
  function MessageFor(c: Config, subject: string, html: string, recipient: string): (m: Message)
    ensures m.to == recipient && m.envelopeTo == [recipient] && m.fromEmail == c.fromEmail
    ensures m.subject == subject && m.html == html && m.plain == PlainNotice
  {
    Message(subject, c.fromEmail, recipient, [recipient], PlainNotice, html)
  }

  /** Opens the session (connect, EHLO, STARTTLS, EHLO, login): `None` on success, else the error. */
  type Connector = (string, int, string, string) -> Option<string>
  /** `sendmail` of one message on the open session: `None` on success, else the error. */
  type Mailer = Message -> Option<string>

  /** How a sending run ends. */
  datatype Outcome =
    | Refused(reason: ConfigError)            // the settings were refused; nothing was sent
    | ConnectFailed(error: string)            // the session could not be opened or logged in
    | Delivered(sent: seq<Message>)           // a message went to every recipient
    | Aborted(sent: seq<Message>, error: string)  // `sendmail` failed for the next recipient

  /** The messages for the recipients from `k` on, stopping at the first failure. */
  function Deliver(c: Config, subject: string, html: string, mail: Mailer, sent: seq<Message>, k: nat): Outcome
    requires k <= |c.recipients|
    decreases |c.recipients| - k
  {
    if k == |c.recipients| then Delivered(sent)
    else
      var m := MessageFor(c, subject, html, c.recipients[k]);
      match mail(m)
      case Some(e) => Aborted(sent, e)
      case None => Deliver(c, subject, html, mail, sent + [m], k + 1)
  }

  /** One message per recipient, in order, stopping at the first failure. */
  function DeliverAll(c: Config, subject: string, html: string, mail: Mailer): Outcome
  {
    Deliver(c, subject, html, mail, [], 0)
  }

  /** What happens once the settings are checked: refusal, or the session and the messages. */
  function SendChecked(loaded: Checked, subject: string, html: string, connect: Connector, mail: Mailer): Outcome
  {
    match loaded
    case Invalid(e) => Refused(e)
    case Valid(c) =>
      match connect(c.host, c.port, c.user, c.password)
      case Some(e) => ConnectFailed(e)
      case None => DeliverAll(c, subject, html, mail)
  }

  /** The whole sending run: settings, session, then one message per recipient. */
  function SendOutcome(env: Env, subject: string, html: string, connect: Connector, mail: Mailer): Outcome
  {
    SendChecked(LoadConfig(env), subject, html, connect, mail)
  }

  /**
   * Delivery from recipient `k` on, given messages for the recipients before
   * `k`, ends with messages for a prefix of the recipients (one each, in
   * order, each accepted by the mailer); all of them when it is `Delivered`,
   * and when it is `Aborted` the next recipient's message is the one refused.
   */
  lemma {:induction false} DeliverSpec(c: Config, subject: string, html: string, mail: Mailer,
                                       sent: seq<Message>, k: nat)
    requires k <= |c.recipients| && |sent| == k
    requires forall i :: 0 <= i < k ==> sent[i] == MessageFor(c, subject, html, c.recipients[i]) && mail(sent[i]).None?
    ensures var o := Deliver(c, subject, html, mail, sent, k);
      && (o.Delivered? || o.Aborted?)
      && k <= |o.sent| <= |c.recipients| && o.sent[..k] == sent
      && (forall i :: 0 <= i < |o.sent| ==>
            o.sent[i] == MessageFor(c, subject, html, c.recipients[i]) && mail(o.sent[i]).None?)
      && (o.Delivered? <==> |o.sent| == |c.recipients|)
      && (o.Aborted? ==> mail(MessageFor(c, subject, html, c.recipients[|o.sent|])) == Some(o.error))
    decreases |c.recipients| - k
  {
    if k < |c.recipients| {
      var m := MessageFor(c, subject, html, c.recipients[k]);
      if mail(m).None? {
        var s' := sent + [m];
        assert forall i :: 0 <= i < k + 1 ==> s'[i] == MessageFor(c, subject, html, c.recipients[i]) && mail(s'[i]).None?;
        DeliverSpec(c, subject, html, mail, s', k + 1);
        var o := Deliver(c, subject, html, mail, s', k + 1);
        assert o.sent[..k] == o.sent[..k + 1][..k];
      }
    }
  }

  /**
   * A run either refuses the settings (sending nothing), fails to open the
   * session (sending nothing), or sends to the recipients in order: to every
   * one of them, or up to the first whose message the server would not take.
   */
  lemma SendOutcomeSpec(env: Env, subject: string, html: string, connect: Connector, mail: Mailer)
    ensures var o := SendOutcome(env, subject, html, connect, mail);
      && (o.Refused? <==> LoadConfig(env).Invalid?)
      && (o.Refused? ==> o.reason == LoadConfig(env).reason)
      && (o.Delivered? || o.Aborted? ==>
            var c := LoadConfig(env).config;
            && LoadConfig(env).Valid?
            && connect(c.host, c.port, c.user, c.password).None?
            && |o.sent| <= |c.recipients|
            && (forall i :: 0 <= i < |o.sent| ==> o.sent[i] == MessageFor(c, subject, html, c.recipients[i]))
            && (o.Delivered? <==> |o.sent| == |c.recipients|))
  {
    if LoadConfig(env).Valid? {
      var c := LoadConfig(env).config;
      if connect(c.host, c.port, c.user, c.password).None? {
        DeliverSpec(c, subject, html, mail, [], 0);
      }
    }
  }

  /**
   * `send_html_email_individual`: loads and checks the settings, opens the
   * session, then sends one message per recipient in order; an error from the
   * server ends the run.  `sent` lists the messages the server accepted.
   */
  method SendHtmlEmailIndividual(env: Env, subject: string, html: string, connect: Connector, mail: Mailer)
    returns (outcome: Outcome)
    ensures outcome == SendOutcome(env, subject, html, connect, mail)
  {
    var settings := ReadSettings(env);
    var loaded := CheckSettings(settings);
    outcome := SendWith(loaded, subject, html, connect, mail);
  }

  /** The checks' verdict acted on: refuse, or open the session and send. */
  method SendWith(loaded: Checked, subject: string, html: string, connect: Connector, mail: Mailer)
    returns (outcome: Outcome)
    ensures outcome == SendChecked(loaded, subject, html, connect, mail)
  {
    if loaded.Invalid? {
      return Refused(loaded.reason);
    }
    var c := loaded.config;
    var err := connect(c.host, c.port, c.user, c.password);
    if err.Some? {
      return ConnectFailed(err.value);
    }
    outcome := SendAll(c, subject, html, mail);
  }

  /** The loop over the recipients on an open session. */
  method SendAll(c: Config, subject: string, html: string, mail: Mailer) returns (outcome: Outcome)
    ensures outcome == DeliverAll(c, subject, html, mail)
  {
    var sent: seq<Message> := [];
    var k := 0;
    while k < |c.recipients|
      invariant 0 <= k <= |c.recipients|
      invariant Deliver(c, subject, html, mail, sent, k) == Deliver(c, subject, html, mail, [], 0)
    {
      var m := Message(subject, c.fromEmail, c.recipients[k], [c.recipients[k]], PlainNotice, html);
      assert m == MessageFor(c, subject, html, c.recipients[k]);
      var failure := mail(m);
      if failure.Some? {
        return Aborted(sent, failure.value);
      }
      sent := sent + [m];
      k := k + 1;
    }
    outcome := Delivered(sent);
  }
}

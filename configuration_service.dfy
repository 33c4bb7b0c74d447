/** The server-location parser and the connection check of the Octane Jenkins plugin's
    configuration service: a UI address is cut at its application context and searched
    for the shared-space parameter, and every outcome becomes coloured HTML markup. */
module ConfigurationService {
  import opened Java

  const PARAM_DOMAIN_PROJECT: string := "p"
  const QCBIN_CONTEXT: string := "/qcbin/ui"
  const MQM_CONTEXT: string := "/mqm/ui"

  const RED: string := "red"
  const GREEN: string := "green"

  // ---------------------------------------------------------------------
  // Markup
  // ---------------------------------------------------------------------

  const FONT_OPEN: string := "<font color=\""
  const FONT_MIDDLE: string := "\"><b>"
  const FONT_CLOSE: string := "</b></font>"

  /** A message in bold in the given colour. */
  function Markup(color: string, message: string): string {
    FONT_OPEN + color + FONT_MIDDLE + message + FONT_CLOSE
  }

  predicate NoQuote(s: string) {
    forall k :: 0 <= k < |s| ==> s[k] != '"'
  }

  /** Reads the colour and the message back out of a markup; the colour ends at the first quote. */
  function ParseMarkup(html: string): Option<(string, string)> {
    if |html| < |FONT_OPEN| + |FONT_CLOSE| then None
    else if html[..|FONT_OPEN|] != FONT_OPEN || html[|html| - |FONT_CLOSE|..] != FONT_CLOSE then None
    else
      var body := html[|FONT_OPEN|..|html| - |FONT_CLOSE|];
      match IndexOf(body, FONT_MIDDLE)
      case None => None
      case Some(i) => Some((body[..i], body[i + |FONT_MIDDLE|..]))
  }

  /** The body of a markup, between the opening tag and the closing tags. */
  lemma MarkupBody(color: string, message: string)
    ensures var html := Markup(color, message);
            && |html| >= |FONT_OPEN| + |FONT_CLOSE|
            && html[..|FONT_OPEN|] == FONT_OPEN
            && html[|html| - |FONT_CLOSE|..] == FONT_CLOSE
            && html[|FONT_OPEN|..|html| - |FONT_CLOSE|] == color + FONT_MIDDLE + message
  {
    var html := Markup(color, message);
    assert html == FONT_OPEN + (color + FONT_MIDDLE + message) + FONT_CLOSE;
  }

  /** In a colour without quotes, the middle tags first occur right after the colour. */
  lemma MiddleAfterColor(color: string, message: string)
    requires NoQuote(color)
    ensures IndexOf(color + FONT_MIDDLE + message, FONT_MIDDLE) == Some(|color|)
  {
    var body := color + FONT_MIDDLE + message;
    assert body[|color|..|color| + |FONT_MIDDLE|] == FONT_MIDDLE;
    forall j | 0 <= j < |color| ensures !OccursAt(body, FONT_MIDDLE, j) {
      assert body[j] == color[j];
    }
    IndexOfIsFirst(body, FONT_MIDDLE, |color|);
  }

  /** A markup gives back its colour and its message, as long as the colour has no quote. */
  lemma {:induction false} ParseMarkupOfMarkup(color: string, message: string)
    requires NoQuote(color)
    ensures ParseMarkup(Markup(color, message)) == Some((color, message))
  {
    var body := color + FONT_MIDDLE + message;
    MarkupBody(color, message);
    MiddleAfterColor(color, message);
    assert body[..|color|] == color;
    assert body[|color| + |FONT_MIDDLE|..] == message;
  }

  /** Distinct (colour, message) pairs give distinct markups. */
  lemma MarkupInjective(c1: string, m1: string, c2: string, m2: string)
    requires NoQuote(c1) && NoQuote(c2)
    requires Markup(c1, m1) == Markup(c2, m2)
    ensures c1 == c2 && m1 == m2
  {
    ParseMarkupOfMarkup(c1, m1);
    ParseMarkupOfMarkup(c2, m2);
  }

  // ---------------------------------------------------------------------
  // Messages and form validations
  // ---------------------------------------------------------------------

  /** The keys of the plugin's message bundle that the service uses. */
  datatype Message =
    | ApplicationContextNotFound
    | UnexpectedSharedSpace
    | MissingDomainProject
    | ConfigurationUrInvalid
    | AuthenticationFailure
    | SessionCreationFailure
    | ConnectionSharedSpaceInvalid
    | ConnectionFailure
    | ConnectionSuccess

  /** A hudson FormValidation built from markup. */
  datatype FormValidation = ErrorWithMarkup(html: string) | OkWithMarkup(html: string)

  function RedError(m: Message, text: Message -> string): FormValidation {
    ErrorWithMarkup(Markup(RED, text(m)))
  }

  /** The bundle's texts tell messages apart. */
  predicate DistinctTexts(text: Message -> string) {
    forall m1: Message, m2: Message {:trigger text(m1), text(m2)} :: m1 != m2 ==> text(m1) != text(m2)
  }

  /** Red errors with different messages differ. */
  lemma RedErrorInjective(m1: Message, m2: Message, text: Message -> string)
    requires DistinctTexts(text)
    requires RedError(m1, text) == RedError(m2, text)
    ensures m1 == m2
  {
    MarkupInjective(RED, text(m1), RED, text(m2));
  }

  // ---------------------------------------------------------------------
  // parseUiLocation
  // ---------------------------------------------------------------------

  /** One decoded query parameter; a parameter without "=" has a null value. */
  datatype NameValuePair = NameValuePair(name: string, value: Value)

  /** What java.net.URL and toURI make of the text: a malformed URL, an URL that is not a
      valid URI, or a valid URI with its query already split and decoded. */
  datatype UrlCheck = MalformedUrl | UriSyntaxError | WellFormed(query: seq<NameValuePair>)

  datatype MqmProject = MqmProject(location: string, sharedSpace: string)

  /** parseUiLocation either returns a project or throws a form validation. */
  datatype Parsed = Project(project: MqmProject) | Rejected(validation: FormValidation)

  /** The server location: cut after "/qcbin" at the first "/qcbin/ui", or else after
      "/mqm" at the first "/mqm/ui". */
  function ContextLocation(uiLocation: string): (r: Option<string>)
    ensures r.Some? ==> |r.value| <= |uiLocation| && r.value == uiLocation[..|r.value|]
    ensures r.None? <==> IndexOf(uiLocation, QCBIN_CONTEXT).None? && IndexOf(uiLocation, MQM_CONTEXT).None?
  {
    match IndexOf(uiLocation, QCBIN_CONTEXT)
    case Some(i) => Some(uiLocation[..i + 6])
    case None =>
      match IndexOf(uiLocation, MQM_CONTEXT)
      case Some(i) => Some(uiLocation[..i + 4])
      case None => None
  }

  /** The location ends in "/qcbin" right before the first "/qcbin/ui", or, when there is
      none, in "/mqm" right before the first "/mqm/ui". */
  lemma ContextLocationShape(uiLocation: string)
    requires ContextLocation(uiLocation).Some?
    ensures var loc := ContextLocation(uiLocation).value;
            || (&& |loc| >= 6 && loc[|loc| - 6..] == "/qcbin"
                && IndexOf(uiLocation, QCBIN_CONTEXT) == Some(|loc| - 6))
            || (&& |loc| >= 4 && loc[|loc| - 4..] == "/mqm"
                && IndexOf(uiLocation, QCBIN_CONTEXT).None?
                && IndexOf(uiLocation, MQM_CONTEXT) == Some(|loc| - 4))
  {
    var loc := ContextLocation(uiLocation).value;
    match IndexOf(uiLocation, QCBIN_CONTEXT)
    case Some(i) =>
      assert uiLocation[i..i + 9] == QCBIN_CONTEXT;
      assert loc[|loc| - 6..] == uiLocation[i..i + 9][..6];
    case None =>
      var j := IndexOf(uiLocation, MQM_CONTEXT).value;
      assert uiLocation[j..j + 7] == MQM_CONTEXT;
      assert loc[|loc| - 4..] == uiLocation[j..j + 7][..4];
  }

  /** "/qcbin/ui" wins over "/mqm/ui" wherever each occurs. */
  lemma QcbinWins(uiLocation: string, i: nat)
    requires OccursAt(uiLocation, QCBIN_CONTEXT, i)
    requires forall j :: 0 <= j < i ==> !OccursAt(uiLocation, QCBIN_CONTEXT, j)
    ensures ContextLocation(uiLocation) == Some(uiLocation[..i + 6])
  {
    IndexOfIsFirst(uiLocation, QCBIN_CONTEXT, i);
  }

  /** Without "/qcbin/ui", the first "/mqm/ui" decides. */
  lemma MqmFallback(uiLocation: string, i: nat)
    requires forall j :: 0 <= j <= |uiLocation| ==> !OccursAt(uiLocation, QCBIN_CONTEXT, j)
    requires OccursAt(uiLocation, MQM_CONTEXT, i)
    requires forall j :: 0 <= j < i ==> !OccursAt(uiLocation, MQM_CONTEXT, j)
    ensures ContextLocation(uiLocation) == Some(uiLocation[..i + 4])
  {
    IndexOfIsFirst(uiLocation, MQM_CONTEXT, i);
  }

  /** The first parameter at or after `from` with the given name. */
  function FindParam(params: seq<NameValuePair>, name: string, from: nat): (r: Option<nat>)
    requires from <= |params|
    decreases |params| - from
    ensures r.Some? ==> from <= r.value < |params| && params[r.value].name == name
    ensures r.Some? ==> forall j :: from <= j < r.value ==> params[j].name != name
    ensures r.None? ==> forall j :: from <= j < |params| ==> params[j].name != name
  {
    if from == |params| then None
    else if params[from].name == name then Some(from)
    else FindParam(params, name, from + 1)
  }

  /** parseUiLocation; `url` is what the URL and URI classes make of `uiLocation`, and
      `text` the message bundle. The context is looked for before the URI is checked. */
  function ParseUiLocation(uiLocation: string, url: UrlCheck, text: Message -> string): (r: Parsed)
    ensures r.Project? ==> && url.WellFormed?
                           && ContextLocation(uiLocation) == Some(r.project.location)
                           && IsNotEmpty(Some(r.project.sharedSpace))
  {
    if url.MalformedUrl? then Rejected(RedError(ConfigurationUrInvalid, text))
    else
      match ContextLocation(uiLocation)
      case None => Rejected(RedError(ApplicationContextNotFound, text))
      case Some(location) =>
        if url.UriSyntaxError? then Rejected(RedError(ConfigurationUrInvalid, text))
        else
          match FindParam(url.query, PARAM_DOMAIN_PROJECT, 0)
          case None => Rejected(RedError(MissingDomainProject, text))
          case Some(i) =>
            var sharedSpace := url.query[i].value;
            if IsEmpty(sharedSpace) then Rejected(RedError(UnexpectedSharedSpace, text))
            else Project(MqmProject(location, sharedSpace.value))
  }

  /** A text that is not an URL is rejected as an invalid location. */
  lemma ParseMalformedUrl(uiLocation: string, text: Message -> string)
    ensures ParseUiLocation(uiLocation, MalformedUrl, text) == Rejected(RedError(ConfigurationUrInvalid, text))
  {
  }

  /** An URL without either context is rejected, even when it is not a valid URI. */
  lemma ParseNoContext(uiLocation: string, url: UrlCheck, text: Message -> string)
    requires !url.MalformedUrl?
    requires forall j :: 0 <= j <= |uiLocation| ==> !OccursAt(uiLocation, QCBIN_CONTEXT, j)
    requires forall j :: 0 <= j <= |uiLocation| ==> !OccursAt(uiLocation, MQM_CONTEXT, j)
    ensures ParseUiLocation(uiLocation, url, text) == Rejected(RedError(ApplicationContextNotFound, text))
  {
    assert IndexOf(uiLocation, QCBIN_CONTEXT).None?;
    assert IndexOf(uiLocation, MQM_CONTEXT).None?;
  }

  lemma ParseUriSyntaxError(uiLocation: string, text: Message -> string)
    requires ContextLocation(uiLocation).Some?
    ensures ParseUiLocation(uiLocation, UriSyntaxError, text) == Rejected(RedError(ConfigurationUrInvalid, text))
  {
  }

  /** Without a "p" parameter the shared space is missing. */
  lemma ParseMissingProject(uiLocation: string, query: seq<NameValuePair>, text: Message -> string)
    requires ContextLocation(uiLocation).Some?
    requires forall j :: 0 <= j < |query| ==> query[j].name != PARAM_DOMAIN_PROJECT
    ensures ParseUiLocation(uiLocation, WellFormed(query), text) == Rejected(RedError(MissingDomainProject, text))
  {
  }

  /** The first "p" parameter decides: an empty or valueless one is an unexpected shared
      space, whatever later "p" parameters hold; a non-empty one is the shared space. */
  lemma ParseFirstProjectParam(uiLocation: string, query: seq<NameValuePair>, i: nat, text: Message -> string)
    requires ContextLocation(uiLocation).Some?
    requires i < |query| && query[i].name == PARAM_DOMAIN_PROJECT
    requires forall j :: 0 <= j < i ==> query[j].name != PARAM_DOMAIN_PROJECT
    ensures var r := ParseUiLocation(uiLocation, WellFormed(query), text);
            && (IsEmpty(query[i].value) ==> r == Rejected(RedError(UnexpectedSharedSpace, text)))
            && (IsNotEmpty(query[i].value) ==>
                  r == Project(MqmProject(ContextLocation(uiLocation).value, query[i].value.value)))
  {
    var f := FindParam(query, PARAM_DOMAIN_PROJECT, 0);
    assert f == Some(i);
  }

  /** Different reasons for a rejection give different validations. */
  lemma ParseRejectionsDistinct(u1: string, url1: UrlCheck, u2: string, url2: UrlCheck,
                                m1: Message, m2: Message, text: Message -> string)
    requires DistinctTexts(text)
    requires ParseUiLocation(u1, url1, text) == Rejected(RedError(m1, text))
    requires ParseUiLocation(u2, url2, text) == Rejected(RedError(m2, text))
    requires m1 != m2
    ensures ParseUiLocation(u1, url1, text) != ParseUiLocation(u2, url2, text)
  {
    if ParseUiLocation(u1, url1, text) == ParseUiLocation(u2, url2, text) {
      RedErrorInjective(m1, m2, text);
    }
  }

  // ---------------------------------------------------------------------
  // checkConfiguration
  // ---------------------------------------------------------------------

  /** How tryToConnectProject ends: normally, or with one of the client's checked exceptions. */
  datatype ProbeOutcome =
    | Connected
    | AuthenticationFailed
    | SessionCreationFailed
    | SharedSpaceNotExist
    | RequestError

  /** checkConfiguration, once the client has tried to connect. */
  function CheckConfiguration(probe: ProbeOutcome, text: Message -> string): (r: FormValidation)
    ensures r.OkWithMarkup? <==> probe == Connected
  {
    match probe
    case Connected => OkWithMarkup(Markup(GREEN, text(ConnectionSuccess)))
    case AuthenticationFailed => RedError(AuthenticationFailure, text)
    case SessionCreationFailed => RedError(SessionCreationFailure, text)
    case SharedSpaceNotExist => RedError(ConnectionSharedSpaceInvalid, text)
    case RequestError => RedError(ConnectionFailure, text)
  }

  /** The message each outcome reports. */
  function ProbeMessage(probe: ProbeOutcome): Message {
    match probe
    case Connected => ConnectionSuccess
    case AuthenticationFailed => AuthenticationFailure
    case SessionCreationFailed => SessionCreationFailure
    case SharedSpaceNotExist => ConnectionSharedSpaceInvalid
    case RequestError => ConnectionFailure
  }

  /** A success reads back as a green markup of ConnectionSuccess, a failure as a red
      markup of the failure's own message. */
  lemma CheckConfigurationMarkup(probe: ProbeOutcome, text: Message -> string)
    ensures ParseMarkup(CheckConfiguration(probe, text).html)
            == Some((if probe == Connected then GREEN else RED, text(ProbeMessage(probe))))
  {
    if probe == Connected {
      ParseMarkupOfMarkup(GREEN, text(ConnectionSuccess));
    } else {
      ParseMarkupOfMarkup(RED, text(ProbeMessage(probe)));
    }
  }

  /** Different outcomes never give the same validation. */
  lemma CheckConfigurationDistinct(p1: ProbeOutcome, p2: ProbeOutcome, text: Message -> string)
    requires DistinctTexts(text)
    requires CheckConfiguration(p1, text) == CheckConfiguration(p2, text)
    ensures p1 == p2
  {
    CheckConfigurationMarkup(p1, text);
    CheckConfigurationMarkup(p2, text);
    assert text(ProbeMessage(p1)) == text(ProbeMessage(p2));
  }
}

/**
 The builder page: URL validation against a host allowlist, the per-field
 validation feedback, and the check that gates generating the embed code.
 The page's DOM is modelled as values: a field's class list and the feedback
 elements in its parent, and the error banners on the page.
 */
module Builder {
  import opened Wrappers
  import opened Web

  /** The outcome of validating one URL. */
  datatype Validation = Valid | Invalid(message: string)

  /** The message for a URL whose host is not on the allowlist. */
  function NotAllowedMessage(kind: string): string {
    kind + " URL not allowed. Please use a URL from the whitelist."
  }

  /** The message for a URL that does not parse. */
  function BadFormatMessage(kind: string): string {
    "Invalid " + kind + " URL format"
  }

  /** A host passes the allowlist: the list is empty, or names the host exactly. */
  predicate HostAllowed(host: string, allowlist: seq<string>) {
    |allowlist| == 0 || host in allowlist
  }

  /**
   `validateUrl`: an empty URL is valid (the fields are optional); a URL that
   does not parse is invalid; a parsed URL is valid exactly when its host
   passes the allowlist. Invalid results always carry a non-empty message.
   */
  function ValidateUrl(url: string, kind: string, allowlist: seq<string>,
                       parseUrl: string -> Option<Url>): (r: Validation)
    ensures url == "" ==> r == Valid
    ensures url != "" && parseUrl(url).None? ==> r == Invalid(BadFormatMessage(kind))
    ensures url != "" && parseUrl(url).Some? && |allowlist| == 0 ==> r == Valid
    ensures url != "" && parseUrl(url).Some? && |allowlist| > 0 ==>
      (r == Valid <==> parseUrl(url).value.hostname in allowlist)
    ensures url != "" && parseUrl(url).Some? && !HostAllowed(parseUrl(url).value.hostname, allowlist) ==>
      r == Invalid(NotAllowedMessage(kind))
    ensures r.Valid? <==> url == "" || (parseUrl(url).Some? && HostAllowed(parseUrl(url).value.hostname, allowlist))
    ensures r.Invalid? ==> |r.message| > 0
  {
    if url == "" then Valid
    else match parseUrl(url)
      case None => Invalid(BadFormatMessage(kind))
      case Some(u) =>
        if |allowlist| > 0 && u.hostname !in allowlist then Invalid(NotAllowedMessage(kind))
        else Valid
  }

  /** The allowlist the builder ships with: empty, so any host is allowed. */
  const ShippedAllowlist: seq<string> := []

  /**
   The shipped empty allowlist is the most permissive one: a URL valid under
   any allowlist is valid under it, and it accepts every URL that parses.
   */
  lemma EmptyAllowlistMostPermissive(url: string, kind: string, allowlist: seq<string>,
                                     parseUrl: string -> Option<Url>)
    ensures ValidateUrl(url, kind, allowlist, parseUrl).Valid? ==> ValidateUrl(url, kind, ShippedAllowlist, parseUrl).Valid?
    ensures ValidateUrl(url, kind, ShippedAllowlist, parseUrl).Valid? <==> url == "" || parseUrl(url).Some?
  {
  }

  /**
   `validateUrl` as written when the configuration may be missing (`None`:
   `config` is undeclared). The fallback declares a block-scoped constant that
   is gone when `validateUrl` runs, so reading the allowlist throws inside the
   `try` and every non-empty URL that parses is reported as malformed.
   */
  function ValidateUrlAsWritten(url: string, kind: string, config: Option<seq<string>>,
                                parseUrl: string -> Option<Url>): (r: Validation)
    ensures config.Some? ==> r == ValidateUrl(url, kind, config.value, parseUrl)
    ensures config.None? && url != "" ==> r == Invalid(BadFormatMessage(kind))
    ensures config.None? && url == "" ==> r == Valid
  {
    if url == "" then Valid
    else match config
      case None => Invalid(BadFormatMessage(kind)) // the ReferenceError is caught as a format error
      case Some(allowlist) => ValidateUrl(url, kind, allowlist, parseUrl)
  }

  /**
   The evident intent: a missing configuration falls back to the shipped,
   empty allowlist, so every URL that parses is accepted.
   */
  function ValidateUrlDefaulted(url: string, kind: string, config: Option<seq<string>>,
                                parseUrl: string -> Option<Url>): (r: Validation)
    ensures config.Some? ==> r == ValidateUrlAsWritten(url, kind, config, parseUrl)
    ensures config.None? ==> (r.Valid? <==> url == "" || parseUrl(url).Some?)
    ensures config.None? && r.Invalid? ==> r.message == BadFormatMessage(kind)
  {
    ValidateUrl(url, kind, if config.Some? then config.value else ShippedAllowlist, parseUrl)
  }

  /** The two disagree on every well-formed URL when the configuration is missing. */
  lemma MissingConfigRejectsWellFormedUrl(url: string, kind: string, parseUrl: string -> Option<Url>)
    requires url != "" && parseUrl(url).Some?
    ensures ValidateUrlAsWritten(url, kind, None, parseUrl) == Invalid(BadFormatMessage(kind))
    ensures ValidateUrlDefaulted(url, kind, None, parseUrl) == Valid
  {
  }

  const IsValidClass := "is-valid"
  const IsInvalidClass := "is-invalid"

  /**
   What feedback shows on one input: its class list, and the messages of the
   `.invalid-feedback` elements in its parent, in document order.
   */
  datatype Feedback = Feedback(classes: set<string>, messages: seq<string>)

  /** A state the page can reach: at most one feedback element per field. */
  predicate Settled(f: Feedback) {
    |f.messages| <= 1
  }

  /**
   `addValidationFeedback`: remove the first feedback element and both
   validity classes, then mark a non-empty field valid, or invalid with one
   feedback element carrying the message. An empty field stays neutral.
   Other classes are untouched.
   */
  function ApplyFeedback(f: Feedback, value: string, v: Validation): (g: Feedback)
    ensures forall c :: c != IsValidClass && c != IsInvalidClass ==> (c in g.classes <==> c in f.classes)
    ensures value == "" ==> IsValidClass !in g.classes && IsInvalidClass !in g.classes
    ensures value != "" && v.Valid? ==> IsValidClass in g.classes && IsInvalidClass !in g.classes
    ensures value != "" && v.Invalid? ==> IsInvalidClass in g.classes && IsValidClass !in g.classes
    ensures Settled(f) && !(value != "" && v.Invalid?) ==> g.messages == []
    ensures Settled(f) && value != "" && v.Invalid? ==> g.messages == [v.message]
    ensures Settled(f) ==> Settled(g)
  {
    var kept := if |f.messages| > 0 then f.messages[1..] else [];
    var neutral := f.classes - {IsValidClass, IsInvalidClass};
    if value != "" && v.Invalid? then Feedback(neutral + {IsInvalidClass}, kept + [v.message])
    else if value != "" && v.Valid? then Feedback(neutral + {IsValidClass}, kept)
    else Feedback(neutral, kept)
  }

  /**
   Applying feedback never stacks: from a settled state, a second application
   wipes out whatever the first one showed.
   */
  lemma ApplyFeedbackOverwrites(f: Feedback, value1: string, v1: Validation, value2: string, v2: Validation)
    requires Settled(f)
    ensures ApplyFeedback(ApplyFeedback(f, value1, v1), value2, v2) == ApplyFeedback(f, value2, v2)
  {
    var g := ApplyFeedback(f, value1, v1);
    var h1 := ApplyFeedback(g, value2, v2);
    var h2 := ApplyFeedback(f, value2, v2);
    assert h1.classes == h2.classes;
  }

  /** Applying the same feedback twice is the same as applying it once. */
  lemma ApplyFeedbackIdempotent(f: Feedback, value: string, v: Validation)
    requires Settled(f)
    ensures ApplyFeedback(ApplyFeedback(f, value, v), value, v) == ApplyFeedback(f, value, v)
  {
    ApplyFeedbackOverwrites(f, value, v, value, v);
  }

  /** One validation of a field: the value it held and the validation result. */
  datatype Check = Check(value: string, result: Validation)

  /** The feedback after a sequence of blur or validate-all events on one field. */
  function Replay(f: Feedback, checks: seq<Check>): Feedback
    decreases |checks|
  {
    if |checks| == 0 then f
    else Replay(ApplyFeedback(f, checks[0].value, checks[0].result), checks[1..])
  }

  /**
   Only the latest validation is visible: after any non-empty sequence of
   validations of a settled field, the feedback is what the last one alone
   would show, and the field is still settled.
   */
  lemma {:induction false} ReplayShowsLast(f: Feedback, checks: seq<Check>)
    requires Settled(f) && |checks| > 0
    ensures Replay(f, checks) == ApplyFeedback(f, checks[|checks| - 1].value, checks[|checks| - 1].result)
    ensures Settled(Replay(f, checks))
    decreases |checks|
  {
    var g := ApplyFeedback(f, checks[0].value, checks[0].result);
    if |checks| > 1 {
      ReplayShowsLast(g, checks[1..]);
      var last := checks[|checks| - 1];
      assert checks[1..][|checks[1..]| - 1] == last;
      ApplyFeedbackOverwrites(f, checks[0].value, checks[0].result, last.value, last.result);
    }
  }

  /** One URL input: its current value and the feedback it shows. */
  datatype Field = Field(value: string, feedback: Feedback)

  /** The builder form: the model and USDZ inputs and the texts of the `.error-message` banners, in document order. */
  datatype Form = Form(model: Field, usdz: Field, banners: seq<string>)

  /** The form state the page can reach. */
  predicate FormSettled(form: Form) {
    Settled(form.model.feedback) && Settled(form.usdz.feedback) && |form.banners| <= 1
  }

  /**
   Validates a field and shows the result on it, as a blur does. From a
   settled field the user sees: nothing for an empty value; `is-valid` for an
   accepted URL; `is-invalid` and the one message saying why for a rejected one.
   */
  function Validate(field: Field, kind: string, allowlist: seq<string>,
                    parseUrl: string -> Option<Url>): (g: Field)
    ensures g.value == field.value
    ensures forall c :: c != IsValidClass && c != IsInvalidClass ==>
      (c in g.feedback.classes <==> c in field.feedback.classes)
    ensures field.value == "" ==>
      IsValidClass !in g.feedback.classes && IsInvalidClass !in g.feedback.classes
    ensures field.value != "" && parseUrl(field.value).None? ==>
      IsInvalidClass in g.feedback.classes && IsValidClass !in g.feedback.classes
    ensures field.value != "" && parseUrl(field.value).Some?
            && !HostAllowed(parseUrl(field.value).value.hostname, allowlist) ==>
      IsInvalidClass in g.feedback.classes && IsValidClass !in g.feedback.classes
    ensures field.value != "" && parseUrl(field.value).Some?
            && HostAllowed(parseUrl(field.value).value.hostname, allowlist) ==>
      IsValidClass in g.feedback.classes && IsInvalidClass !in g.feedback.classes
    ensures Settled(field.feedback) ==> Settled(g.feedback)
    ensures Settled(field.feedback) && field.value != "" && parseUrl(field.value).None? ==>
      g.feedback.messages == [BadFormatMessage(kind)]
    ensures Settled(field.feedback) && field.value != "" && parseUrl(field.value).Some?
            && !HostAllowed(parseUrl(field.value).value.hostname, allowlist) ==>
      g.feedback.messages == [NotAllowedMessage(kind)]
    ensures Settled(field.feedback)
            && (field.value == "" || (parseUrl(field.value).Some?
                                      && HostAllowed(parseUrl(field.value).value.hostname, allowlist))) ==>
      g.feedback.messages == []
  {
    Field(field.value, ApplyFeedback(field.feedback, field.value,
                                     ValidateUrl(field.value, kind, allowlist, parseUrl)))
  }

  /** The outcome of `validateAllUrls`: overall validity and the form with both fields' feedback. */
  datatype Checked = Checked(allValid: bool, form: Form)

  /**
   `validateAllUrls`: validates both fields, shows feedback on both, and is
   true exactly when both are valid.
   */
  function ValidateAll(form: Form, allowlist: seq<string>, parseUrl: string -> Option<Url>): (r: Checked)
    ensures r.allValid <==>
      ValidateUrl(form.model.value, "model", allowlist, parseUrl).Valid?
      && ValidateUrl(form.usdz.value, "USDZ", allowlist, parseUrl).Valid?
    ensures r.allValid <==>
      IsInvalidClass !in r.form.model.feedback.classes && IsInvalidClass !in r.form.usdz.feedback.classes
    ensures r.form.model == Validate(form.model, "model", allowlist, parseUrl)
    ensures r.form.usdz == Validate(form.usdz, "USDZ", allowlist, parseUrl)
    ensures r.form.banners == form.banners
    ensures form.model.value == "" && form.usdz.value == "" ==> r.allValid
  {
    var model := ValidateUrl(form.model.value, "model", allowlist, parseUrl);
    var usdz := ValidateUrl(form.usdz.value, "USDZ", allowlist, parseUrl);
    Checked(model.Valid? && usdz.Valid?,
            Form(Validate(form.model, "model", allowlist, parseUrl),
                 Validate(form.usdz, "USDZ", allowlist, parseUrl),
                 form.banners))
  }

  /** The text of the banner that blocks generating the embed code. */
  const BannerMessage := "Please fix the URL validation errors before generating the embed code."

  /** `generateEmbedCode`'s gate: go on to generate, or stop with the form shown. */
  datatype Submission = Blocked(form: Form) | Proceed(form: Form)

  /**
   The submit gate: when any URL is invalid, remove the first existing banner,
   add one, and stop. A settled form then shows exactly one banner.
   */
  function GenerateEmbedCode(form: Form, allowlist: seq<string>, parseUrl: string -> Option<Url>): (s: Submission)
    ensures s.Proceed? <==> ValidateAll(form, allowlist, parseUrl).allValid
    ensures s.Blocked? ==> s.form.banners == [BannerMessage] + (if |form.banners| > 0 then form.banners[1..] else [])
    ensures s.Blocked? ==> |s.form.banners| == (if |form.banners| > 0 then |form.banners| else 1)
    ensures s.Blocked? && |form.banners| <= 1 ==> s.form.banners == [BannerMessage]
    ensures s.Proceed? ==> s.form.banners == form.banners
    ensures s.form.model == ValidateAll(form, allowlist, parseUrl).form.model
    ensures s.form.usdz == ValidateAll(form, allowlist, parseUrl).form.usdz
    ensures FormSettled(form) ==> FormSettled(s.form)
  {
    var checked := ValidateAll(form, allowlist, parseUrl);
    if !checked.allValid then
      var remaining := if |checked.form.banners| > 0 then checked.form.banners[1..] else [];
      Blocked(checked.form.(banners := [BannerMessage] + remaining))
    else
      Proceed(checked.form)
  }

  /** The two URL inputs of the form. */
  datatype Input = ModelInput | UsdzInput

  /** What the user does: leave an input holding a value, or ask for the embed code. */
  datatype Event = Blur(input: Input, value: string) | Generate

  /** The form after one event: a blur validates that input alone; a request runs the gate. */
  function Step(form: Form, e: Event, allowlist: seq<string>, parseUrl: string -> Option<Url>): (g: Form)
    ensures e.Blur? && e.input.ModelInput? ==>
      && g.usdz == form.usdz && g.banners == form.banners
      && g.model.value == e.value
      && (IsInvalidClass in g.model.feedback.classes <==> ValidateUrl(e.value, "model", allowlist, parseUrl).Invalid?)
      && (IsValidClass in g.model.feedback.classes <==>
          e.value != "" && ValidateUrl(e.value, "model", allowlist, parseUrl).Valid?)
    ensures e.Blur? && e.input.UsdzInput? ==>
      && g.model == form.model && g.banners == form.banners
      && g.usdz.value == e.value
      && (IsInvalidClass in g.usdz.feedback.classes <==> ValidateUrl(e.value, "USDZ", allowlist, parseUrl).Invalid?)
      && (IsValidClass in g.usdz.feedback.classes <==>
          e.value != "" && ValidateUrl(e.value, "USDZ", allowlist, parseUrl).Valid?)
    ensures e.Blur? && e.input.ModelInput? ==>
      forall c :: c != IsValidClass && c != IsInvalidClass ==>
        (c in g.model.feedback.classes <==> c in form.model.feedback.classes)
    ensures e.Blur? && e.input.UsdzInput? ==>
      forall c :: c != IsValidClass && c != IsInvalidClass ==>
        (c in g.usdz.feedback.classes <==> c in form.usdz.feedback.classes)
    ensures e.Blur? && e.input.ModelInput? && Settled(form.model.feedback) ==>
      g.model.feedback.messages ==
        (match ValidateUrl(e.value, "model", allowlist, parseUrl) case Valid => [] case Invalid(m) => [m])
    ensures e.Blur? && e.input.UsdzInput? && Settled(form.usdz.feedback) ==>
      g.usdz.feedback.messages ==
        (match ValidateUrl(e.value, "USDZ", allowlist, parseUrl) case Valid => [] case Invalid(m) => [m])
    ensures e.Generate? ==>
      && g.model == ValidateAll(form, allowlist, parseUrl).form.model
      && g.usdz == ValidateAll(form, allowlist, parseUrl).form.usdz
    ensures e.Generate? ==>
      && g.model.value == form.model.value && g.usdz.value == form.usdz.value
      && (ValidateAll(form, allowlist, parseUrl).allValid ==> g.banners == form.banners)
      && (!ValidateAll(form, allowlist, parseUrl).allValid ==> g.banners == [BannerMessage] + (if |form.banners| > 0 then form.banners[1..] else []))
    ensures FormSettled(form) ==> FormSettled(g)
  {
    match e
    case Blur(ModelInput, value) =>
      form.(model := Validate(Field(value, form.model.feedback), "model", allowlist, parseUrl))
    case Blur(UsdzInput, value) =>
      form.(usdz := Validate(Field(value, form.usdz.feedback), "USDZ", allowlist, parseUrl))
    case Generate => GenerateEmbedCode(form, allowlist, parseUrl).form
  }

  /** The form after a sequence of events. */
  function Run(form: Form, events: seq<Event>, allowlist: seq<string>, parseUrl: string -> Option<Url>): Form
    decreases |events|
  {
    if |events| == 0 then form
    else Run(Step(form, events[0], allowlist, parseUrl), events[1..], allowlist, parseUrl)
  }

  /** The empty form as the page loads it. */
  const InitialForm := Form(Field("", Feedback({}, [])), Field("", Feedback({}, [])), [])

  /**
   Whatever the user does, feedback never stacks: each input shows at most
   one feedback element and the page at most one error banner.
   */
  lemma {:induction false} RunStaysSettled(form: Form, events: seq<Event>, allowlist: seq<string>,
                                           parseUrl: string -> Option<Url>)
    requires FormSettled(form)
    ensures FormSettled(Run(form, events, allowlist, parseUrl))
    decreases |events|
  {
    if |events| > 0 {
      var next := Step(form, events[0], allowlist, parseUrl);
      RunStaysSettled(next, events[1..], allowlist, parseUrl);
    }
  }

  /** From the freshly loaded page, every reachable form is settled. */
  lemma ReachableIsSettled(events: seq<Event>, allowlist: seq<string>, parseUrl: string -> Option<Url>)
    ensures FormSettled(Run(InitialForm, events, allowlist, parseUrl))
  {
    RunStaysSettled(InitialForm, events, allowlist, parseUrl);
  }
}

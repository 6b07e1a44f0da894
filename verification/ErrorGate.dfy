/** Classifying collected browser issues, and the gate that fails a test on the unexpected ones. */
module ErrorGate {
  import opened Json

  datatype Kind = Console | PageError | RequestFailed

  datatype Issue = Issue(
    action: string, kind: Kind, message: string, pageUrl: string,
    verb: Option<string>, requestUrl: Option<string>, resourceType: Option<string>)

  /** The regular expressions, as predicates on text. */
  datatype Patterns = Patterns(
    ignored: string -> bool, firestoreBackend: string -> bool, firestoreChannel: string -> bool,
    failedResource4xx: string -> bool, retryable: string -> bool, firebaseRetryable: string -> bool,
    logEvent400: string -> bool, telemetry: string -> bool, mapsFallback: string -> bool, azureProfile: string -> bool,
    thirdPartyImage: string -> bool,
    listenChannel: string -> bool, writeChannel: string -> bool, authOrSession: string -> bool,
    secureToken: string -> bool, aborted: string -> bool, writeVerb: string -> bool, storage: string -> bool,
    finalize: string -> bool, shareTokenOrCapsule: string -> bool, retrieval: string -> bool,
    optionalMedia: string -> bool, thumbnail: string -> bool, optionalAsset: string -> bool, staleCdn: string -> bool)

  function KindText(kind: Kind): string {
    match kind
    case Console => "console"
    case PageError => "pageerror"
    case RequestFailed => "requestfailed"
  }

  function OrEmpty(s: Option<string>): string {
    if s.Some? then s.value else ""
  }

  function Join(parts: seq<string>): string {
    if parts == [] then "" else if |parts| == 1 then parts[0] else parts[0] + "\n" + Join(parts[1..])
  }

  // ---------------------------------------------------------------- severity of one issue

  function SearchText(issue: Issue): string {
    Join([issue.action, KindText(issue.kind), issue.message, issue.pageUrl, OrEmpty(issue.requestUrl),
        OrEmpty(issue.verb),
          OrEmpty(issue.resourceType)])
  }

  predicate Ignored(p: Patterns, issue: Issue) {
    exists value :: value in [issue.action, KindText(issue.kind), issue.message, issue.pageUrl,
        OrEmpty(issue.requestUrl), OrEmpty(issue.verb), OrEmpty(issue.resourceType)] && p.ignored(value)
  }

  /** The cascade of `classifyInssaIssue`, reduced to whether its answer is critical. */
  predicate CriticalByCascade(p: Patterns, issue: Issue) {
    var text := SearchText(issue);
    if issue.kind.PageError? then true
    else if p.firestoreBackend(text) then false
    else if p.firestoreChannel(text) && issue.kind.Console? && p.failedResource4xx(text) then false
    else if p.firestoreChannel(text) && issue.kind.RequestFailed? then false
    else if issue.kind.RequestFailed? && issue.resourceType == Some("websocket") then false
    else if issue.kind.RequestFailed? && p.retryable(text) then false
    else if p.firebaseRetryable(text) then false
    else if issue.kind.Console? && p.logEvent400(text) then false
    else if p.telemetry(text) then false
    else if issue.kind.Console? && p.mapsFallback(text) then false
    else if p.azureProfile(text) then false
    else if (issue.resourceType == Some("image") || issue.kind.Console?) && p.thirdPartyImage(text) then false
    else true     // an authentication failure or an unknown issue
  }

  /** `classifyIssue`: an ignored issue is acceptable whatever it is. */
  predicate Critical(p: Patterns, issue: Issue) {
    !Ignored(p, issue) && CriticalByCascade(p, issue)
  }

  // ---------------------------------------------------------------- lifecycle downgrade

  datatype Context = Context(
    stage: Option<string>, lifecycleSucceeded: bool, retrievalSucceeded: bool, shareLinkCaptured: bool,
        uploadSucceeded: bool)

  datatype Impact = Fatal | Warning

  function StageText(issue: Issue, context: Context): string {
    Join([issue.action, KindText(issue.kind), issue.message, OrEmpty(issue.verb), issue.pageUrl,
        OrEmpty(issue.requestUrl), OrEmpty(issue.resourceType),
        if context.stage.Some? then context.stage.value else issue.action])
  }

  predicate IsOptional(p: Patterns, issue: Issue, text: string) {
    issue.resourceType in {Some("image"), Some("media"), Some("font"), Some("stylesheet"), Some("script")}
    || p.optionalMedia(text) || p.thumbnail(text) || p.optionalAsset(text) || p.staleCdn(text)
  }

  /** `classifyLifecycleNetworkIssue`, reduced to its impact. */
  function LifecycleImpact(p: Patterns, issue: Issue, context: Context): Impact {
    var text := StageText(issue, context);
    var isWrite := p.writeVerb(OrEmpty(issue.verb));
    var succeeded := context.lifecycleSucceeded && context.retrievalSucceeded;
    if p.telemetry(text) then Warning
    else if p.firestoreChannel(text) then
      if p.listenChannel(text) then Warning
      else if p.writeChannel(text) && !succeeded then Fatal
      else Warning
    else if p.authOrSession(text) then
      if p.secureToken(text) && p.aborted(text) && succeeded then Warning else Fatal
    else if isWrite && p.storage(text) then
      if context.uploadSucceeded && succeeded then Warning else Fatal
    else if isWrite && p.finalize(text) then Fatal
    else if !context.shareLinkCaptured && p.shareTokenOrCapsule(text) then Fatal
    else if !context.retrievalSucceeded && p.retrieval(text) then Fatal
    else if p.retryable(text) then if succeeded then Warning else Fatal
    else if IsOptional(p, issue, text) && succeeded then Warning
    else if !isWrite && succeeded then Warning
    else Fatal
  }

  /** `classifyInssaRequestFailure`. */
  function RequestImpact(p: Patterns, issue: Issue, context: Context): Impact {
    if !issue.kind.RequestFailed? then Fatal else LifecycleImpact(p, issue, context)
  }

  // ---------------------------------------------------------------- the gate

  /** `formatIssueKey`: newline-joined text, without the page. */
  function Key(issue: Issue): string {
    Join([KindText(issue.kind), issue.action, issue.message, OrEmpty(issue.verb), OrEmpty(issue.requestUrl),
          OrEmpty(issue.resourceType)])
  }

  function Failures(issues: seq<Issue>): seq<Issue> {
    if issues == [] then []
    else (if issues[0].kind.RequestFailed? then [issues[0]] else []) + Failures(issues[1..])
  }

  function KeysOf(p: Patterns, failures: seq<Issue>, context: Context, impacts: set<Impact>): set<string> {
    set f | f in failures && RequestImpact(p, f, context) in impacts :: Key(f)
  }

  function Unexpected(p: Patterns, issues: seq<Issue>, excused: set<string>): seq<Issue> {
    if issues == [] then []
    else (if Critical(p, issues[0]) && Key(issues[0]) !in excused then [issues[0]] else [])
         + Unexpected(p, issues[1..], excused)
  }

  function FatalFailures(p: Patterns, failures: seq<Issue>, context: Context): seq<Issue> {
    if failures == [] then []
    else (if RequestImpact(p, failures[0], context).Fatal? then [failures[0]] else [])
         + FatalFailures(p, failures[1..], context)
  }

  /** What `expectNoUnexpectedErrors` counts; the gate passes when it is 0. */
  function GateCount(p: Patterns, issues: seq<Issue>, context: Option<Context>): nat {
    if context.None? then |Unexpected(p, issues, {})|
    else
      var failures := Failures(issues);
      var warnings := KeysOf(p, failures, context.value, {Warning});
      var all := KeysOf(p, failures, context.value, {Warning, Fatal});
      |Unexpected(p, issues, warnings + all)| + |FatalFailures(p, failures, context.value)|
  }

  // ---------------------------------------------------------------- keys

  predicate OneLine(s: string) {
    '\n' !in s
  }

  lemma FirstLines(a: string, x: string, b: string, y: string)
    requires OneLine(a) && OneLine(b) && a + "\n" + x == b + "\n" + y
    ensures a == b
  {
    var text := a + "\n" + x;
    assert text[|a|] == '\n' && text[|b|] == '\n';
    assert forall i :: 0 <= i < |a| ==> text[i] == a[i];
    assert forall i :: 0 <= i < |b| ==> text[i] == b[i];
    assert |a| == |b|;
  }

  lemma KindTextIsOneLine(kind: Kind)
    ensures OneLine(KindText(kind))
  {
    var text := KindText(kind);
    assert forall i :: 0 <= i < |text| ==> text[i] != '\n';
  }

  /** Although the parts may contain newlines, equal keys mean equal kinds. */
  lemma KeyDeterminesKind(x: Issue, y: Issue)
    requires Key(x) == Key(y)
    ensures x.kind == y.kind
  {
    var restX := Join([x.action, x.message, OrEmpty(x.verb), OrEmpty(x.requestUrl), OrEmpty(x.resourceType)]);
    var restY := Join([y.action, y.message, OrEmpty(y.verb), OrEmpty(y.requestUrl), OrEmpty(y.resourceType)]);
    KeySplits(x);
    KeySplits(y);
    KindTextIsOneLine(x.kind);
    KindTextIsOneLine(y.kind);
    FirstLines(KindText(x.kind), restX, KindText(y.kind), restY);
  }

  lemma KeySplits(x: Issue)
    ensures Key(x) == KindText(x.kind) + "\n"
        + Join([x.action, x.message, OrEmpty(x.verb), OrEmpty(x.requestUrl), OrEmpty(x.resourceType)])
  {
    var parts := [KindText(x.kind), x.action, x.message, OrEmpty(x.verb), OrEmpty(x.requestUrl),
        OrEmpty(x.resourceType)];
    assert parts[1..] == [x.action, x.message, OrEmpty(x.verb), OrEmpty(x.requestUrl), OrEmpty(x.resourceType)];
  }

  // ---------------------------------------------------------------- what the gate decides

  lemma {:induction false} FailuresAre(issues: seq<Issue>, f: Issue)
    ensures f in Failures(issues) <==> f in issues && f.kind.RequestFailed?
  {
    if issues != [] {
      FailuresAre(issues[1..], f);
    }
  }

  lemma {:induction false} UnexpectedEmpty(p: Patterns, issues: seq<Issue>, excused: set<string>)
    ensures |Unexpected(p, issues, excused)| == 0 <==> forall i :: i in issues && Critical(p, i) ==> Key(i) in excused
  {
    hide Critical, Key;
    if issues != [] {
      UnexpectedEmpty(p, issues[1..], excused);
      assert issues == [issues[0]] + issues[1..];
    }
  }

  lemma {:induction false} FatalEmpty(p: Patterns, failures: seq<Issue>, context: Context)
    ensures |FatalFailures(p, failures, context)| == 0 <==> forall f :: f in failures ==>
        RequestImpact(p, f, context).Warning?
  {
    hide RequestImpact;
    if failures != [] {
      FatalEmpty(p, failures[1..], context);
      assert failures == [failures[0]] + failures[1..];
    }
  }

  /** A failed request's key excuses failed requests and nothing else. */
  lemma ExcusedAreFailures(p: Patterns, issues: seq<Issue>, context: Context, issue: Issue)
    requires issue in issues
    ensures var failures := Failures(issues);
            var excused := KeysOf(p, failures, context, {Warning}) + KeysOf(p, failures, context, {Warning, Fatal});
            Key(issue) in excused <==> issue.kind.RequestFailed?
  {
    hide RequestImpact, Key;
    var failures := Failures(issues);
    var all := KeysOf(p, failures, context, {Warning, Fatal});
    FailuresAre(issues, issue);
    if Key(issue) in KeysOf(p, failures, context, {Warning}) + all {
      var f :| f in failures && Key(f) == Key(issue);
      FailuresAre(issues, f);
      KeyDeterminesKind(f, issue);
    }
    if issue.kind.RequestFailed? {
      var impact := RequestImpact(p, issue, context);
      assert impact.Warning? || impact.Fatal?;
      assert Key(issue) in all;
    }
  }

  /**
   * With a lifecycle context, the gate passes iff no console or page issue is critical and every failed request is
   * downgraded; without one, iff no issue is critical.
   */
  lemma GateDecides(p: Patterns, issues: seq<Issue>, context: Option<Context>)
    ensures context.Some? ==>
              (GateCount(p, issues, context) == 0 <==>
                && (forall i :: i in issues && !i.kind.RequestFailed? ==> !Critical(p, i))
                && (forall i :: i in issues && i.kind.RequestFailed? ==> RequestImpact(p, i, context.value).Warning?))
    ensures context.None? ==>
              (GateCount(p, issues, context) == 0 <==> forall i :: i in issues ==> !Critical(p, i))
  {
    hide Critical, RequestImpact, Key, Unexpected, FatalFailures;
    if context.None? {
      UnexpectedEmpty(p, issues, {});
    } else {
      var failures := Failures(issues);
      var excused := KeysOf(p, failures, context.value, {Warning})
          + KeysOf(p, failures, context.value, {Warning, Fatal});
      UnexpectedEmpty(p, issues, excused);
      FatalEmpty(p, failures, context.value);
      forall i | i in issues ensures Key(i) in excused <==> i.kind.RequestFailed? {
        ExcusedAreFailures(p, issues, context.value, i);
      }
      forall i ensures i in failures <==> i in issues && i.kind.RequestFailed? {
        FailuresAre(issues, i);
      }
    }
  }

  // ---------------------------------------------------------------- what passes, pattern by pattern

  function Text(o: Option<string>): string {
    match o
    case None => ""
    case Some(s) => s
  }

  function KindName(i: Issue): string {
    if i.kind == Console then "console" else if i.kind == PageError then "pageerror" else "requestfailed"
  }

  /** Everything an issue says, line by line. */
  function Searchable(i: Issue): string {
    i.action + "\n" + (KindName(i) + "\n" + (i.message + "\n" + (i.pageUrl + "\n"
      + (Text(i.requestUrl) + "\n" + (Text(i.verb) + "\n" + Text(i.resourceType))))))
  }

  /** Some part of the issue matches a pattern to ignore. */
  predicate SaysIgnored(p: Patterns, i: Issue) {
    p.ignored(i.action) || p.ignored(i.message) || p.ignored(i.pageUrl)
    || p.ignored(Text(i.requestUrl)) || p.ignored(Text(i.verb)) || p.ignored(Text(i.resourceType))
    || p.ignored(KindName(i))
  }

  /** A page error is never noise; a console message or a failed request is, by these patterns and resource types. */
  predicate Noise(p: Patterns, i: Issue) {
    var text := Searchable(i);
    match i.kind
    case PageError => false
    case Console =>
      p.firestoreBackend(text) || (p.firestoreChannel(text) && p.failedResource4xx(text)) || p.firebaseRetryable(text)
      || p.logEvent400(text) || p.telemetry(text) || p.mapsFallback(text) || p.azureProfile(text)
      || p.thirdPartyImage(text)
    case RequestFailed =>
      p.firestoreBackend(text) || p.firestoreChannel(text) || p.retryable(text) || p.firebaseRetryable(text)
      || p.telemetry(text) || p.azureProfile(text) || i.resourceType == Some("websocket")
      || (i.resourceType == Some("image") && p.thirdPartyImage(text))
  }

  lemma SearchableIs(i: Issue)
    ensures SearchText(i) == Searchable(i)
  {
    JoinSeven(i.action, KindText(i.kind), i.message, i.pageUrl, OrEmpty(i.requestUrl), OrEmpty(i.verb),
              OrEmpty(i.resourceType));
  }

  lemma JoinSeven(a: string, b: string, c: string, d: string, e: string, f: string, g: string)
    ensures Join([a, b, c, d, e, f, g])
         == a + "\n" + (b + "\n" + (c + "\n" + (d + "\n" + (e + "\n" + (f + "\n" + g)))))
  {
    JoinTail(f, [g]);
    JoinTail(e, [f, g]);
    JoinTail(d, [e, f, g]);
    JoinTail(c, [d, e, f, g]);
    JoinTail(b, [c, d, e, f, g]);
    JoinTail(a, [b, c, d, e, f, g]);
  }

  lemma JoinTail(first: string, rest: seq<string>)
    requires rest != []
    ensures Join([first] + rest) == first + "\n" + Join(rest)
  {
    assert ([first] + rest)[1..] == rest;
  }

  lemma IgnoredIff(p: Patterns, i: Issue)
    ensures Ignored(p, i) <==> SaysIgnored(p, i)
  {
    var values := [i.action, KindText(i.kind), i.message, i.pageUrl, OrEmpty(i.requestUrl), OrEmpty(i.verb),
                   OrEmpty(i.resourceType)];
    assert values[0] in values && values[1] in values && values[2] in values && values[3] in values;
    assert values[4] in values && values[5] in values && values[6] in values;
  }

  lemma CriticalIff(p: Patterns, i: Issue)
    ensures Critical(p, i) <==> !SaysIgnored(p, i) && !Noise(p, i)
  {
    hide Ignored, SaysIgnored, SearchText, Searchable;
    IgnoredIff(p, i);
    SearchableIs(i);
  }

  /** Everything a failed request says, and the stage it belongs to. */
  function StageSearchable(i: Issue, c: Context): string {
    var stage := match c.stage case None => i.action case Some(s) => s;
    i.action + "\n" + ("requestfailed\n" + (i.message + "\n" + (Text(i.verb) + "\n" + (i.pageUrl + "\n"
      + (Text(i.requestUrl) + "\n" + (Text(i.resourceType) + "\n" + stage))))))
  }

  predicate OptionalAsset(p: Patterns, i: Issue, text: string) {
    i.resourceType == Some("image") || i.resourceType == Some("media") || i.resourceType == Some("font")
    || i.resourceType == Some("stylesheet") || i.resourceType == Some("script")
    || p.optionalMedia(text) || p.thumbnail(text) || p.optionalAsset(text) || p.staleCdn(text)
  }

  lemma StageSearchableIs(i: Issue, c: Context)
    requires i.kind.RequestFailed?
    ensures StageText(i, c) == StageSearchable(i, c)
  {
    var stage := match c.stage case None => i.action case Some(s) => s;
    JoinTail(i.action, ["requestfailed", i.message, OrEmpty(i.verb), i.pageUrl, OrEmpty(i.requestUrl),
                        OrEmpty(i.resourceType), stage]);
    JoinSeven("requestfailed", i.message, OrEmpty(i.verb), i.pageUrl, OrEmpty(i.requestUrl), OrEmpty(i.resourceType),
              stage);
    assert "requestfailed" + "\n" == "requestfailed\n";
    hide Join;
    assert StageText(i, c) == Join([i.action] + ["requestfailed", i.message, OrEmpty(i.verb), i.pageUrl,
                                    OrEmpty(i.requestUrl), OrEmpty(i.resourceType), stage]);
  }

  /**
   * A failed request whose lifecycle and retrieval have succeeded: what of it is only a warning.
   */
  predicate ProvenWarning(p: Patterns, i: Issue, c: Context) {
    var text, writes := StageSearchable(i, c), p.writeVerb(Text(i.verb));
    if p.telemetry(text) || p.firestoreChannel(text) then true
    else if p.authOrSession(text) then p.secureToken(text) && p.aborted(text)
    else if writes && p.storage(text) then c.uploadSucceeded
    else
      && !(writes && p.finalize(text))
      && (c.shareLinkCaptured || !p.shareTokenOrCapsule(text))
      && (!writes || p.retryable(text) || OptionalAsset(p, i, text))
  }

  /** Before both have succeeded, only telemetry and channel noise other than a write. */
  predicate UnprovenWarning(p: Patterns, i: Issue, c: Context) {
    var text := StageSearchable(i, c);
    p.telemetry(text) || (p.firestoreChannel(text) && (p.listenChannel(text) || !p.writeChannel(text)))
  }

  lemma ImpactIff(p: Patterns, i: Issue, c: Context)
    requires i.kind.RequestFailed?
    ensures RequestImpact(p, i, c).Warning? <==>
              if c.lifecycleSucceeded && c.retrievalSucceeded then ProvenWarning(p, i, c) else UnprovenWarning(p, i, c)
  {
    StageSearchableIs(i, c);
    hide StageText, StageSearchable;
  }

  predicate Passes(p: Patterns, i: Issue, context: Option<Context>) {
    if i.kind.RequestFailed? && context.Some? then
      if context.value.lifecycleSucceeded && context.value.retrievalSucceeded
      then ProvenWarning(p, i, context.value) else UnprovenWarning(p, i, context.value)
    else
      SaysIgnored(p, i) || Noise(p, i)
  }

  /**
   * What fails the gate: any page error that is not ignored, any console message that is neither ignored nor noise,
   * and any failed request that is neither, or that its lifecycle does not downgrade.
   */
  lemma GateIff(p: Patterns, issues: seq<Issue>, context: Option<Context>)
    ensures GateCount(p, issues, context) == 0 <==> forall i :: i in issues ==> Passes(p, i, context)
  {
    hide Critical, RequestImpact, SaysIgnored, Noise, ProvenWarning, UnprovenWarning, GateCount;
    GateDecides(p, issues, context);
    forall i ensures Critical(p, i) <==> !SaysIgnored(p, i) && !Noise(p, i) {
      CriticalIff(p, i);
    }
    if context.Some? {
      forall i: Issue | i.kind.RequestFailed?
        ensures RequestImpact(p, i, context.value).Warning? <==> Passes(p, i, context)
      {
        ImpactIff(p, i, context.value);
      }
    }
  }

  /** An uncaught page error that no pattern ignores fails the gate, with and without a lifecycle context. */
  lemma PageErrorFails(p: Patterns, issues: seq<Issue>, context: Option<Context>, i: Issue)
    requires i in issues && i.kind.PageError? && !SaysIgnored(p, i)
    ensures GateCount(p, issues, context) >= 1
  {
    hide GateCount;
    GateIff(p, issues, context);
  }

  // ---------------------------------------------------------------- more evidence, fewer failures

  /** The same stage, and every success already proven stays proven. */
  predicate MoreEvidence(less: Context, more: Context) {
    && less.stage == more.stage
    && (less.lifecycleSucceeded ==> more.lifecycleSucceeded) && (less.retrievalSucceeded ==> more.retrievalSucceeded)
    && (less.shareLinkCaptured ==> more.shareLinkCaptured) && (less.uploadSucceeded ==> more.uploadSucceeded)
  }

  lemma DowngradeIsMonotone(p: Patterns, issue: Issue, less: Context, more: Context)
    requires MoreEvidence(less, more) && RequestImpact(p, issue, less).Warning?
    ensures RequestImpact(p, issue, more).Warning?
  {
  }

  /** A run that passes the gate still passes when more success evidence is given. */
  lemma GateIsMonotone(p: Patterns, issues: seq<Issue>, less: Context, more: Context)
    requires MoreEvidence(less, more) && GateCount(p, issues, Some(less)) == 0
    ensures GateCount(p, issues, Some(more)) == 0
  {
    hide GateCount, RequestImpact, Critical;
    GateDecides(p, issues, Some(less));
    GateDecides(p, issues, Some(more));
    forall i | i in issues && i.kind.RequestFailed? ensures RequestImpact(p, i, more).Warning? {
      DowngradeIsMonotone(p, i, less, more);
    }
  }

  /** Before the lifecycle is proven, only telemetry and Firestore channel noise other than a write is downgraded. */
  lemma UnprovenDowngrades(p: Patterns, issue: Issue, context: Context)
    requires !(context.lifecycleSucceeded && context.retrievalSucceeded) && issue.kind.RequestFailed?
    ensures var text := StageText(issue, context);
            RequestImpact(p, issue, context).Warning? <==>
              p.telemetry(text) || (p.firestoreChannel(text) && (p.listenChannel(text) || !p.writeChannel(text)))
  {
  }
}

// Flow documents and their validation (internal/flows/flow.go, validate.go).
// Lengths are byte lengths of the UTF-8 text, as Go's len counts them.
module FlowDocument {
  import opened Models
  import opened Utf8
  import opened Selector

  const SUPPORTED_VERSION := 1
  const MAX_FLOW_NAME_LENGTH := 200
  const MAX_STEP_ID_LENGTH := 100
  const MAX_STEPS := 100
  const MAX_SELECTOR_LENGTH := 500
  const MAX_VALUE_LENGTH := 4096
  const MAX_URL_LENGTH := 2048
  const MIN_STEP_TIMEOUT_MS := 100
  const MAX_STEP_TIMEOUT_MS := 30000
  const DEFAULT_STEP_TIMEOUT_MS := 5000

  // The type text of a step; every text that names no step type is Unknown.
  datatype StepType =
    | Navigate | Click | Fill | Select | WaitVisible | AssertVisible | AssertURL | Screenshot
    | Unknown(text: string)

  datatype Step = Step(id: string, kind: StepType, locator: Option<Locator>, url: string, value: string, timeoutMs: int)

  datatype Flow = Flow(version: int, name: string, startURL: string, steps: seq<Step>)

  // What security.ParseAndValidateURL says about a URL; None accepts it.
  type URLPolicy = string -> MaybeError

  function Invalid(rule: FlowRule): MaybeError { Some(BrowserError(InvalidRequest, Rule(rule))) }

  // ---- The tables and checks of validate.go ------------------------------------

  predicate RequiresLocator(t: StepType) { t.Click? || t.Fill? || t.Select? || t.WaitVisible? || t.AssertVisible? }

  predicate RequiresURL(t: StepType) { t.Navigate? || t.AssertURL? }

  predicate AllowsValue(t: StepType) { t.Fill? || t.Select? }

  function ValidateLocator(loc: Option<Locator>): MaybeError {
    if loc.None? then Invalid(LocatorMissing)
    else if loc.value.strategy != CSS && loc.value.strategy != ID &&
            loc.value.strategy != NAME then Invalid(LocatorStrategyUnknown)
    else if loc.value.value == "" || ByteLength(loc.value.value) > MAX_SELECTOR_LENGTH then Invalid(LocatorLength)
    else None
  }

  function ValidateNavigateURL(raw: string, parse: URLPolicy): MaybeError {
    if raw == "" then Invalid(URLMissing)
    else if ByteLength(raw) > MAX_URL_LENGTH then Invalid(URLTooLong)
    else parse(raw)
  }

  function CheckLocator(s: Step): MaybeError {
    if RequiresLocator(s.kind) then ValidateLocator(s.locator)
    else if s.locator.Some? then Invalid(LocatorNotAccepted)
    else None
  }

  function CheckURL(s: Step, parse: URLPolicy): MaybeError {
    if RequiresURL(s.kind) then
      if s.kind.Navigate? then ValidateNavigateURL(s.url, parse)
      else if s.url == "" then Invalid(URLMissing)
      else if ByteLength(s.url) > MAX_URL_LENGTH then Invalid(URLTooLong)
      else None
    else if s.url != "" then Invalid(URLNotAccepted)
    else None
  }

  function CheckValue(s: Step): MaybeError {
    if AllowsValue(s.kind) then
      if ByteLength(s.value) > MAX_VALUE_LENGTH then Invalid(ValueTooLong) else None
    else if s.value != "" then Invalid(ValueNotAccepted)
    else None
  }

  function ValidateStep(s: Step, parse: URLPolicy): MaybeError {
    if ByteLength(s.id) == 0 || ByteLength(s.id) > MAX_STEP_ID_LENGTH then Invalid(StepIDLength)
    else if s.kind.Unknown? then Invalid(StepTypeUnknown)
    else if CheckLocator(s).Some? then CheckLocator(s)
    else if CheckURL(s, parse).Some? then CheckURL(s, parse)
    else if CheckValue(s).Some? then CheckValue(s)
    else if s.timeoutMs != 0 &&
            (s.timeoutMs < MIN_STEP_TIMEOUT_MS || s.timeoutMs > MAX_STEP_TIMEOUT_MS) then Invalid(TimeoutOutOfRange)
    else None
  }

  // ---- Well-formedness, stated per step type ----------------------------------------

  predicate LengthWithin(text: string, lo: nat, hi: nat) { lo <= ByteLength(text) <= hi }

  predicate GoodURL(u: string, parse: URLPolicy) { LengthWithin(u, 1, MAX_URL_LENGTH) && parse(u).None? }

  predicate GoodLocator(loc: Option<Locator>) {
    loc.Some? && loc.value.strategy in {CSS, ID, NAME} && LengthWithin(loc.value.value, 1, MAX_SELECTOR_LENGTH)
  }

  predicate WellFormedStep(s: Step, parse: URLPolicy) {
    && LengthWithin(s.id, 1, MAX_STEP_ID_LENGTH)
    && (s.timeoutMs == 0 || MIN_STEP_TIMEOUT_MS <= s.timeoutMs <= MAX_STEP_TIMEOUT_MS)
    && match s.kind
       case Navigate => s.locator.None? && GoodURL(s.url, parse) && s.value == ""
       case AssertURL => s.locator.None? && LengthWithin(s.url, 1, MAX_URL_LENGTH) && s.value == ""
       case Screenshot => s.locator.None? && s.url == "" && s.value == ""
       case Fill => GoodLocator(s.locator) && s.url == "" && LengthWithin(s.value, 0, MAX_VALUE_LENGTH)
       case Select => GoodLocator(s.locator) && s.url == "" && LengthWithin(s.value, 0, MAX_VALUE_LENGTH)
       case Unknown(_) => false
       case _ => GoodLocator(s.locator) && s.url == "" && s.value == ""
  }

  predicate DistinctIDs(steps: seq<Step>) {
    forall i, j :: 0 <= i < j < |steps| ==> steps[i].id != steps[j].id
  }

  predicate AllWellFormed(steps: seq<Step>, parse: URLPolicy) {
    forall i :: 0 <= i < |steps| ==> WellFormedStep(steps[i], parse)
  }

  predicate GoodHeader(f: Flow, parse: URLPolicy) {
    && f.version == SUPPORTED_VERSION
    && LengthWithin(f.name, 1, MAX_FLOW_NAME_LENGTH)
    && (f.startURL == "" || GoodURL(f.startURL, parse))
    && 1 <= |f.steps| <= MAX_STEPS
  }

  predicate WellFormedFlow(f: Flow, parse: URLPolicy) {
    GoodHeader(f, parse) && AllWellFormed(f.steps, parse) && DistinctIDs(f.steps)
  }

  lemma EmptyText(s: string)
    ensures s == "" <==> ByteLength(s) == 0
  {
  }

  // validateStep accepts exactly the well-formed steps.
  lemma ValidateStepIsExact(s: Step, parse: URLPolicy)
    ensures ValidateStep(s, parse).None? <==> WellFormedStep(s, parse)
  {
    EmptyText(s.url);
    EmptyText(s.id);
    if s.locator.Some? { EmptyText(s.locator.value.value); }
  }

  // Step i is the first step that breaks a rule, and err is that rule's error.
  predicate FirstOffender(steps: seq<Step>, parse: URLPolicy, i: nat, err: MaybeError) {
    && i < |steps|
    && AllWellFormed(steps[..i], parse) && DistinctIDs(steps[..i])
    && (if ValidateStep(steps[i], parse).Some? then err == ValidateStep(steps[i], parse)
        else err == Invalid(DuplicateStepID) && exists j :: 0 <= j < i && steps[j].id == steps[i].id)
  }

  function IDsBefore(steps: seq<Step>, n: nat): set<string>
    requires n <= |steps|
  {
    set j | 0 <= j < n :: steps[j].id
  }

  lemma LongerPrefixIsGood(steps: seq<Step>, parse: URLPolicy, i: nat)
    requires i < |steps| && AllWellFormed(steps[..i], parse) && DistinctIDs(steps[..i])
    requires WellFormedStep(steps[i], parse) && steps[i].id !in IDsBefore(steps, i)
    ensures AllWellFormed(steps[..i + 1], parse) && DistinctIDs(steps[..i + 1])
    ensures IDsBefore(steps, i + 1) == IDsBefore(steps, i) + {steps[i].id}
  {
    forall j | 0 <= j < i ensures steps[j].id in IDsBefore(steps, i) {
    }
    assert steps[..i + 1] == steps[..i] + [steps[i]];
  }

  // What is wrong with a flow apart from its steps, in the order of the checks.
  function HeaderVerdict(f: Flow, parse: URLPolicy): MaybeError {
    if f.version != SUPPORTED_VERSION then Invalid(UnsupportedVersion)
    else if !LengthWithin(f.name, 1, MAX_FLOW_NAME_LENGTH) then Invalid(NameLength)
    else if f.startURL != "" && ValidateNavigateURL(f.startURL, parse).Some? then ValidateNavigateURL(f.startURL, parse)
    else if f.steps == [] then Invalid(NoSteps)
    else if |f.steps| > MAX_STEPS then Invalid(TooManySteps)
    else None
  }

  lemma HeaderVerdictIsExact(f: Flow, parse: URLPolicy)
    ensures HeaderVerdict(f, parse).None? <==> GoodHeader(f, parse)
  {
    EmptyText(f.startURL);
  }

  // err is why f is refused: what is wrong with its header, else its first offending step.
  predicate Refused(f: Flow, parse: URLPolicy, err: MaybeError) {
    if HeaderVerdict(f, parse).Some? then err == HeaderVerdict(f, parse)
    else exists i: nat :: i < |f.steps| && FirstOffender(f.steps, parse, i, err)
  }

  // Validate accepts exactly the well-formed flows and says why it refuses another.
  method Validate(flow: Option<Flow>, parse: URLPolicy) returns (err: MaybeError)
    ensures err.None? <==> flow.Some? && WellFormedFlow(flow.value, parse)
    ensures flow.None? ==> err == Invalid(FlowMissing)
    ensures err.Some? && flow.Some? ==> Refused(flow.value, parse, err)
  {
    if flow.None? {
      return Invalid(FlowMissing);
    }
    var f := flow.value;
    HeaderVerdictIsExact(f, parse);
    err := ValidateHeader(f, parse);
    if err.Some? {
      return;
    }
    err := ValidateSteps(f.steps, parse);
  }

  method ValidateHeader(f: Flow, parse: URLPolicy) returns (err: MaybeError)
    ensures err == HeaderVerdict(f, parse)
  {
    if f.version != SUPPORTED_VERSION {
      return Invalid(UnsupportedVersion);
    }
    if ByteLength(f.name) == 0 || ByteLength(f.name) > MAX_FLOW_NAME_LENGTH {
      return Invalid(NameLength);
    }
    if f.startURL != "" {
      var e := ValidateNavigateURL(f.startURL, parse);
      if e.Some? {
        return e;
      }
    }
    if |f.steps| == 0 {
      return Invalid(NoSteps);
    }
    if |f.steps| > MAX_STEPS {
      return Invalid(TooManySteps);
    }
    return None;
  }

  method ValidateSteps(steps: seq<Step>, parse: URLPolicy) returns (err: MaybeError)
    ensures err.None? <==> AllWellFormed(steps, parse) && DistinctIDs(steps)
    ensures err.Some? ==> exists i: nat :: FirstOffender(steps, parse, i, err)
  {
    var seenIDs: set<string> := {};
    for i := 0 to |steps|
      invariant AllWellFormed(steps[..i], parse) && DistinctIDs(steps[..i])
      invariant seenIDs == IDsBefore(steps, i)
    {
      ValidateStepIsExact(steps[i], parse);
      err := ValidateStep(steps[i], parse);
      if err.Some? {
        assert FirstOffender(steps, parse, i, err);
        return;
      }
      if steps[i].id in seenIDs {
        err := Invalid(DuplicateStepID);
        assert FirstOffender(steps, parse, i, err);
        return;
      }
      seenIDs := seenIDs + {steps[i].id};
      LongerPrefixIsGood(steps, parse, i);
    }
    assert steps[..|steps|] == steps;
    return None;
  }

  // A validated locator never renders as the empty selector.
  lemma GoodLocatorNeverEmpty(loc: Option<Locator>)
    requires GoodLocator(loc)
    ensures CSSSelector(loc) != ""
  {
    EmptyText(loc.value.value);
  }

  // ---- Which error is reported -------------------------------------------------------

  // The rules that one step can break, in terms of its type.
  predicate Breaks(s: Step, rule: FlowRule) {
    match rule
    case StepIDLength => !(1 <= ByteLength(s.id) <= 100)
    case StepTypeUnknown => s.kind.Unknown?
    case LocatorMissing => UsesElement(s.kind) && s.locator.None?
    case LocatorStrategyUnknown => UsesElement(s.kind) && s.locator.Some? && !KnownStrategy(s.locator.value.strategy)
    case LocatorLength => UsesElement(s.kind) && s.locator.Some? && !(1 <= ByteLength(s.locator.value.value) <= 500)
    case LocatorNotAccepted => !UsesElement(s.kind) && s.locator.Some?
    case URLMissing => (s.kind == Navigate || s.kind == AssertURL) && s.url == ""
    case URLTooLong => (s.kind == Navigate || s.kind == AssertURL) && ByteLength(s.url) > 2048
    case URLNotAccepted => s.kind != Navigate && s.kind != AssertURL && s.url != ""
    case ValueTooLong => (s.kind == Fill || s.kind == Select) && ByteLength(s.value) > 4096
    case ValueNotAccepted => s.kind != Fill && s.kind != Select && s.value != ""
    case TimeoutOutOfRange => s.timeoutMs != 0 && !(100 <= s.timeoutMs <= 30000)
    case _ => false
  }

  predicate UsesElement(t: StepType) {
    match t
    case Click => true
    case Fill => true
    case Select => true
    case WaitVisible => true
    case AssertVisible => true
    case _ => false
  }

  predicate KnownStrategy(strategy: string) { strategy == "css" || strategy == "id" || strategy == "name" }

  // The order in which the rules are looked at; the URL parser comes with 9.
  function Turn(rule: FlowRule): nat {
    match rule
    case StepIDLength => 1
    case StepTypeUnknown => 2
    case LocatorMissing => 3
    case LocatorStrategyUnknown => 4
    case LocatorLength => 5
    case LocatorNotAccepted => 6
    case URLMissing => 7
    case URLTooLong => 8
    case URLNotAccepted => 10
    case ValueTooLong => 11
    case ValueNotAccepted => 12
    case TimeoutOutOfRange => 13
    case _ => 0
  }

  // The step breaks no rule that is looked at before.
  predicate NoneBefore(s: Step, turn: nat) { forall rule :: Breaks(s, rule) ==> turn <= Turn(rule) }

  // The URL parser refuses the URL of a navigate step.
  predicate Unparsable(s: Step, parse: URLPolicy) { s.kind == Navigate && s.url != "" && parse(s.url).Some? }

  // err names the first rule that the step breaks, or is the URL parser's error.
  ghost predicate NamesFirstBroken(s: Step, parse: URLPolicy, err: MaybeError) {
    || (exists rule :: err == Some(BrowserError(InvalidRequest, Rule(rule))) && Breaks(s, rule)
          && NoneBefore(s, Turn(rule)) && (Turn(rule) > 9 ==> !Unparsable(s, parse)))
    || (Unparsable(s, parse) && err == parse(s.url) && NoneBefore(s, 9))
  }

  // The checks of one aspect of a step look at the rules from turn lo to turn hi, and
  // find the first that is broken.
  ghost predicate FindsFirst(s: Step, lo: nat, hi: nat, err: MaybeError) {
    if err.None? then forall rule :: lo <= Turn(rule) <= hi ==> !Breaks(s, rule)
    else
      exists rule :: err == Invalid(rule) && Breaks(s, rule) && lo <= Turn(rule) <= hi &&
        forall other :: lo <= Turn(other) <= hi && Breaks(s, other) ==> Turn(rule) <= Turn(other)
  }

  lemma LocatorCheckFindsFirst(s: Step)
    requires !s.kind.Unknown?
    ensures FindsFirst(s, 3, 6, CheckLocator(s))
  {
    if s.locator.Some? { EmptyText(s.locator.value.value); }
    var rule := if s.locator.None? then LocatorMissing
      else if !RequiresLocator(s.kind) then LocatorNotAccepted
      else if !KnownStrategy(s.locator.value.strategy) then LocatorStrategyUnknown else LocatorLength;
    assert CheckLocator(s).Some? ==> CheckLocator(s) == Invalid(rule) && Breaks(s, rule);
  }

  lemma URLCheckFindsFirst(s: Step, parse: URLPolicy)
    requires !s.kind.Unknown?
    ensures if Unparsable(s, parse) && (forall rule :: 7 <= Turn(rule) <= 8 ==> !Breaks(s, rule))
      then CheckURL(s, parse) == parse(s.url) && forall rule :: 7 <= Turn(rule) <= 10 ==> !Breaks(s, rule)
      else FindsFirst(s, 7, 10, CheckURL(s, parse))
  {
    var rule := if !RequiresURL(s.kind) then URLNotAccepted else if s.url == "" then URLMissing else URLTooLong;
    assert Breaks(s, rule) ==> CheckURL(s, parse) == Invalid(rule);
  }

  lemma ValueCheckFindsFirst(s: Step)
    requires !s.kind.Unknown?
    ensures FindsFirst(s, 11, 12, CheckValue(s))
  {
    var rule := if AllowsValue(s.kind) then ValueTooLong else ValueNotAccepted;
    assert CheckValue(s).Some? ==> CheckValue(s) == Invalid(rule) && Breaks(s, rule);
  }

  lemma TurnsAreOneToThirteen(s: Step, rule: FlowRule)
    requires Breaks(s, rule)
    ensures 1 <= Turn(rule) <= 13 && Turn(rule) != 9
  {
  }

  // A step that is refused is refused for the first rule that it breaks.
  lemma StepErrorIsFirst(s: Step, parse: URLPolicy)
    requires ValidateStep(s, parse).Some?
    ensures NamesFirstBroken(s, parse, ValidateStep(s, parse))
  {
    forall rule | Breaks(s, rule) ensures 1 <= Turn(rule) <= 13 && Turn(rule) != 9 {
      TurnsAreOneToThirteen(s, rule);
    }
    if !(1 <= ByteLength(s.id) <= 100) {
      FirstNamed(s, parse, StepIDLength);
    } else if s.kind.Unknown? {
      FirstNamed(s, parse, StepTypeUnknown);
    } else if CheckLocator(s).Some? {
      LocatorCheckFindsFirst(s);
      var rule :| CheckLocator(s) == Invalid(rule) && Breaks(s, rule) && 3 <= Turn(rule) <= 6 &&
        forall other :: 3 <= Turn(other) <= 6 && Breaks(s, other) ==> Turn(rule) <= Turn(other);
      FirstNamed(s, parse, rule);
    } else {
      LocatorCheckFindsFirst(s);
      RestErrorIsFirst(s, parse);
    }
  }

  // A rule that the step breaks and that no broken rule, nor the parser, precedes.
  lemma FirstNamed(s: Step, parse: URLPolicy, rule: FlowRule)
    requires Breaks(s, rule) && NoneBefore(s, Turn(rule)) && (Turn(rule) > 9 ==> !Unparsable(s, parse))
    ensures NamesFirstBroken(s, parse, Invalid(rule))
  {
  }

  // The part of validateStep after the locator.
  lemma RestErrorIsFirst(s: Step, parse: URLPolicy)
    requires ValidateStep(s, parse).Some? && NoneBefore(s, 7) && !s.kind.Unknown? && CheckLocator(s).None?
    requires 1 <= ByteLength(s.id) <= 100
    ensures NamesFirstBroken(s, parse, ValidateStep(s, parse))
  {
    URLCheckFindsFirst(s, parse);
    ValueCheckFindsFirst(s);
    if CheckURL(s, parse).Some? {
      URLErrorIsFirst(s, parse);
    } else if CheckValue(s).Some? {
      var rule :| CheckValue(s) == Invalid(rule) && Breaks(s, rule) && 11 <= Turn(rule) <= 12 &&
        forall other :: 11 <= Turn(other) <= 12 && Breaks(s, other) ==> Turn(rule) <= Turn(other);
      FirstNamed(s, parse, rule);
    } else {
      FirstNamed(s, parse, TimeoutOutOfRange);
    }
  }

  lemma URLErrorIsFirst(s: Step, parse: URLPolicy)
    requires CheckURL(s, parse).Some? && NoneBefore(s, 7) && !s.kind.Unknown?
    ensures NamesFirstBroken(s, parse, CheckURL(s, parse))
  {
    URLCheckFindsFirst(s, parse);
    if Unparsable(s, parse) && (forall rule :: 7 <= Turn(rule) <= 8 ==> !Breaks(s, rule)) {
      assert NoneBefore(s, 9);
    } else {
      var rule :| CheckURL(s, parse) == Invalid(rule) && Breaks(s, rule) && 7 <= Turn(rule) <= 10 &&
        forall other :: 7 <= Turn(other) <= 10 && Breaks(s, other) ==> Turn(rule) <= Turn(other);
      FirstNamed(s, parse, rule);
    }
  }

  // The faults of a flow's header, numbered in the order of the checks, and their
  // errors.
  predicate FaultAt(f: Flow, parse: URLPolicy, turn: nat) {
    match turn
    case 1 => f.version != 1
    case 2 => !(1 <= ByteLength(f.name) <= 200)
    case 3 => ByteLength(f.startURL) > 2048
    case 4 => f.startURL != "" && parse(f.startURL).Some?
    case 5 => |f.steps| == 0
    case 6 => |f.steps| > 100
    case _ => false
  }

  function FaultError(f: Flow, parse: URLPolicy, turn: nat): MaybeError {
    match turn
    case 1 => Invalid(UnsupportedVersion)
    case 2 => Invalid(NameLength)
    case 3 => Invalid(URLTooLong)
    case 4 => parse(f.startURL)
    case 5 => Invalid(NoSteps)
    case 6 => Invalid(TooManySteps)
    case _ => None
  }

  // A flow whose header is refused is refused for its first fault.
  lemma HeaderErrorIsFirst(f: Flow, parse: URLPolicy) returns (turn: nat)
    ensures forall earlier: nat :: earlier < turn ==> !FaultAt(f, parse, earlier)
    ensures if HeaderVerdict(f, parse).Some? then FaultAt(f, parse, turn)
      && HeaderVerdict(f, parse) == FaultError(f, parse, turn)
      else turn == 7
  {
    EmptyText(f.startURL);
    turn := if f.version != 1 then 1 else if !(1 <= ByteLength(f.name) <= 200) then 2
      else if ByteLength(f.startURL) > 2048 then 3 else if f.startURL != "" && parse(f.startURL).Some? then 4
      else if |f.steps| == 0 then 5 else if |f.steps| > 100 then 6 else 7;
  }
}

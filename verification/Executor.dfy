/** The state-machine executor for one attempt at a submission. */
module Executor {
  import opened Prelude
  import opened Programs
  import opened States
  import opened Driver
  import opened Stages

  const MAX_AUTHOR_REVISIONS := 3
  const MINIMAL_INPUT_CHARS := 400

  datatype Counterexample = Counterexample(input: string, expected: string, actual: string)

  /** `verdict` is None for the report of a failure. */
  datatype Report = Report(
    verdict: Option<Verdict>, counterexample: Option<Counterexample>, bugClass: Option<string>,
    roundsRun: int, shrinkSteps: int)

  // -------------------------------------------------------------- state traces

  /** k rounds of authoring and validating. */
  function Revisions(k: nat): seq<State> {
    if k == 0 then [] else Revisions(k - 1) + [Authoring, Validating]
  }

  function When(flag: bool, state: State): seq<State> { if flag then [state] else [] }

  /** What the search writes: whole revisions, possibly one cut after its first state, possibly the stress run. */
  function SearchTrace(k: nat, cut: bool, stressed: bool): seq<State> {
    Revisions(k) + When(cut, Authoring) + When(stressed, Stressing)
  }

  predicate SearchShape(k: nat, cut: bool, stressed: bool) {
    k + (if cut then 1 else 0) <= MAX_AUTHOR_REVISIONS && (stressed ==> k >= 1 && !cut)
  }

  ghost predicate IsSearchTrace(t: seq<State>) {
    exists k, cut, stressed :: SearchShape(k, cut, stressed) && t == SearchTrace(k, cut, stressed)
  }

  /** The states an attempt writes before its terminal state. */
  ghost predicate IsAttemptTrace(t: seq<State>) {
    || t == [] || t == [Compiling]
    || exists search, explained ::
         IsSearchTrace(search) && t == [Compiling, Judging] + search + When(explained, Explaining)
  }

  // ----------------------------------------------------------------- worth

  /** The counterexample is a judged test whose output differs. */
  ghost predicate FromTests(o: Oracle, timeout: int, tests: seq<Test>, m: Counterexample) {
    exists i :: 0 <= i < |tests| && Differs(o, timeout, tests[i], Free(m.input, m.expected, m.actual))
  }

  /** The three fields of a mismatch that a report shows. */
  function Shown(m: Mismatch): Counterexample { Counterexample(m.input, m.expected, m.actual) }

  // ------------------------------------------------------------------ the plan

  /** How the search goes when nothing raises, as a function of what the model answers and the programs do. */
  datatype Plan =
    | Accepting(sb: Sandbox, spec: Spec, prompt: Prompt, revisions: nat)
    | GaveUp(revisions: nat)
    | Failing(why: ModelFailure, revisions: nat, cut: bool)
  {
    function Trace(): seq<State> {
      match this
      case Accepting(_, _, _, k) => SearchTrace(k, false, true)
      case GaveUp(k) => SearchTrace(k, false, false)
      case Failing(_, k, cut) => SearchTrace(k, cut, false)
    }
  }

  /** The sandbox, the constraints and the answer of the gates after installing this revision. */
  ghost function Gated(samples: seq<Test>, checker: string, sb: Sandbox, spec: Spec, a: Authored): (Sandbox, Spec, Gate) {
    var box := Install(sb, a, checker);
    (box, spec.(sizeMax := SizeAfter(box, spec.sizeMax)), GateOf(box, checker, samples, spec.sizeMax))
  }

  /**
   Revisions from the given one on, the first of them asked for with `prompt`: stop out of time, when the
   model fails, at the first that passes, or after three; what the gates reject is to be repaired.
   */
  ghost function PlanFrom(o: Oracle, samples: seq<Test>, checker: string, sb: Sandbox, spec: Spec, prompt: Prompt, revision: nat): Plan
    decreases MAX_AUTHOR_REVISIONS - revision
  {
    if revision >= MAX_AUTHOR_REVISIONS || o.outOfTime(revision) then GaveUp(revision)
    else
      match o.authored(revision, prompt)
      case NoAnswer(why) => Failing(why, revision, true)
      case Answer(a) =>
        var (box, fit, gate) := Gated(samples, checker, sb, spec, a);
        if gate.Passed? then Accepting(box, fit, prompt, revision + 1)
        else PlanFrom(o, samples, checker, box, fit, Repair(gate, a), revision + 1)
  }

  function Empty(o: Oracle): Sandbox { Sandbox(o.machine, map[], o.user) }

  /** The constraints, and a checker when several outputs are correct. */
  function Briefed(o: Oracle): Result<(Spec, string)> {
    var spec :- Constraints(o);
    if spec.outputUnique then Ok((spec, ""))
    else
      var checker :- o.checked.AsResult();
      Ok((spec, checker))
  }

  /** A checker is asked for exactly when several outputs are correct; the first failure of the model ends the brief. */
  lemma BriefedMeans(o: Oracle)
    ensures match Constraints(o)
            case Raise(exn) => Briefed(o) == Raise(exn)
            case Ok(spec) =>
              if spec.outputUnique then Briefed(o) == Ok((spec, ""))
              else if o.checked.Answer? then Briefed(o) == Ok((spec, o.checked.value))
              else Briefed(o) == Raise(Model(o.checked.why))
  {}

  ghost function PlanOf(o: Oracle, samples: seq<Test>): Plan {
    match Briefed(o)
    case Ok((spec, checker)) => PlanFrom(o, samples, checker, Empty(o), spec, FromStatement(spec), 0)
    case Raise(Model(why)) => Failing(why, 0, false)
    case Raise(Fault) => GaveUp(0)
  }

  /**
   The plan accepts the revision the model wrote last, in a sandbox that runs this submission and holds
   exactly these programs, and the checker if one was asked for.
   */
  ghost predicate AcceptsLast(o: Oracle, samples: seq<Test>, checker: string, p: Plan) {
    && p.Accepting? && 1 <= p.revisions <= MAX_AUTHOR_REVISIONS
    && p.sb.machine == o.machine && p.sb.user == o.user
    && o.authored(p.revisions - 1, p.prompt).Answer?
    && Accepted(p.sb, o.authored(p.revisions - 1, p.prompt).value, checker, samples, p.spec.sizeMax)
  }

  /**
   The mismatch was found in the very sandbox in which the search accepted the model's last revision: a
   legal input, answered by that revision's brute force, on which the user's program fails.
   */
  ghost predicate FromStress(o: Oracle, timeout: int, samples: seq<Test>, m: Counterexample) {
    var p := PlanOf(o, samples);
    Briefed(o).Ok? && AcceptsLast(o, samples, Briefed(o).value.1, p) && exists found ::
      Genuine(p.sb, found, timeout) && m == Counterexample(found.input, found.expected, found.actual)
  }

  /** The search ended as planned: with what the driver found if a revision passed, and what was counted. */
  ghost predicate AsPlanned(o: Oracle, s: Settings, p: Plan, r: Result<Option<Mismatch>>, trace: seq<State>, tally: Tally) {
    && trace == p.Trace()
    && match p
       case Failing(why, _, _) => r == Raise(Model(why)) && tally == Tally(0, 0)
       case GaveUp(_) => r == Ok(None) && tally == Tally(0, 0)
       case Accepting(sb, spec, _, _) => r.Ok? && Stressed(o, s, sb, spec, r.value, tally)
  }

  // ---------------------------------------------------------------- the search

  method Prepare(ctx: Context) returns (r: Result<()>)
    requires ctx.Smooth() && ctx.Valid() && ctx.checker == ""
    modifies ctx`operations, ctx`spec, ctx`checker
    ensures ctx.Valid()
    ensures ctx.Smooth() <==> r != Raise(Fault)
    ensures r != Raise(Fault) ==> Briefed(ctx.oracle) == if r.Ok? then Ok((ctx.spec, ctx.checker)) else Raise(r.exn)
  {
    r := ctx.Analyze();
    if r.Raise? { return; }
    if !ctx.spec.outputUnique { r := ctx.AuthorChecker(); }
  }

  /** What a revision has written when it raises. */
  predicate Partial(part: seq<State>) { part == [] || part == [Authoring] || part == [Authoring, Validating] }

  /** The reply to the revision that the context is about to ask for. */
  ghost function ReplyNow(ctx: Context, failure: Gate): Reply<Authored>
    reads ctx
  {
    ctx.oracle.authored(ctx.revision, PromptFor(ctx.spec, ctx.author, failure))
  }

  /** One revision: author, then the gates. */
  method Revise(ctx: Context, failure: Gate) returns (r: Result<Gate>, ghost part: seq<State>)
    requires ctx.Smooth() && ctx.Valid()
    modifies ctx`operations, ctx`written, ctx`author, ctx`spec, ctx`sb
    ensures ctx.Valid() && ctx.written == old(ctx.written) + part
    ensures r.Ok? ==> part == [Authoring, Validating]
    ensures r.Raise? ==> Partial(part)
    ensures ctx.Smooth() <==> r != Raise(Fault)
    ensures r.Raise? && r.exn != Fault ==> part == [Authoring] && old(ReplyNow(ctx, failure)).AsResult() == Raise(r.exn)
    ensures r.Ok? ==> ctx.author.Some? && old(ReplyNow(ctx, failure)) == Answer(ctx.author.value)
    ensures r.Ok? ==>
      (ctx.sb, ctx.spec, r.value) == Gated(ctx.samples, ctx.checker, old(ctx.sb), old(ctx.spec), ctx.author.value)
  {
    part := [];
    var moved := ctx.SetState(Authoring);
    part := ctx.written[|old(ctx.written)|..];
    if moved.Raise? { return Raise(moved.exn), part; }
    var asked := ctx.Author(failure);
    if asked.Raise? { return Raise(asked.exn), part; }
    moved := ctx.SetState(Validating);
    part := ctx.written[|old(ctx.written)|..];
    if moved.Raise? { return Raise(moved.exn), part; }
    r := ctx.Validate();
  }

  /** The stress run, once a revision has passed the gates. */
  method StressAccepted(ctx: Context) returns (r: Result<Option<Mismatch>>, ghost stressed: bool)
    requires ctx.Smooth() && ctx.Valid() && ctx.Counts() == Tally(0, 0) && NonDecreasing(ctx.oracle.clock)
    modifies ctx`operations, ctx`choked, ctx`written, ctx`roundsRun, ctx`shrinkSteps
    ensures ctx.written == old(ctx.written) + When(stressed, Stressing)
    ensures r.Raise? ==> r.exn == Fault
    ensures ctx.choked ==> ctx.oracle.delivery.Chokes()
    ensures ctx.Smooth() <==> r.Ok?
    ensures r.Ok? ==> stressed
    ensures r.Ok? ==> Stressed(ctx.oracle, ctx.settings, ctx.sb, ctx.spec, r.value, ctx.Counts())
  {
    var moved := ctx.SetState(Stressing);
    stressed := ctx.written != old(ctx.written);
    if moved.Raise? { return Raise(moved.exn), stressed; }
    r := ctx.Stress();
  }

  lemma SearchTraceOf(k: nat, cut: bool, stressed: bool, trace: seq<State>)
    requires SearchShape(k, cut, stressed) && trace == SearchTrace(k, cut, stressed)
    ensures IsSearchTrace(trace)
  {}

  /** A revision that raises leaves a search trace behind. */
  lemma PartialRevision(k: nat, part: seq<State>)
    requires k < MAX_AUTHOR_REVISIONS && Partial(part)
    ensures IsSearchTrace(Revisions(k) + part)
  {
    if part == [] {
      SearchTraceOf(k, false, false, Revisions(k) + part);
    } else if part == [Authoring] {
      SearchTraceOf(k, true, false, Revisions(k) + part);
    } else {
      SearchTraceOf(k + 1, false, false, Revisions(k) + part);
    }
  }

  /** The plan for the context as it stands, from this revision on, after this answer of the gates. */
  ghost function PlanNow(ctx: Context, failure: Gate, revision: nat): Plan
    reads ctx
  {
    PlanFrom(ctx.oracle, ctx.samples, ctx.checker, ctx.sb, ctx.spec, PromptFor(ctx.spec, ctx.author, failure), revision)
  }

  /** The plan accepts the revision before this one, which left this sandbox and these constraints. */
  ghost predicate Accepts(p: Plan, sb: Sandbox, spec: Spec, revisions: nat) {
    p.Accepting? && p.sb == sb && p.spec == spec && p.revisions == revisions
  }

  /** The repair loop ends as the plan says, in the middle of the given revision or after it. */
  ghost predicate EndsAsPlanned(p: Plan, r: Result<bool>, sb: Sandbox, spec: Spec, revision: nat, part: seq<State>) {
    match r
    case Ok(true) => Accepts(p, sb, spec, revision + 1) && part == [Authoring, Validating]
    case Ok(false) => p == GaveUp(revision) && part == []
    case Raise(Model(why)) => p == Failing(why, revision, true) && part == [Authoring]
    case Raise(Fault) => Partial(part)
  }

  /** One turn of the repair loop; None means that it goes on, with what the gates complain about. */
  method TryRevision(ctx: Context, failure: Gate, revision: nat)
    returns (r: Option<Result<bool>>, complaint: Gate, ghost part: seq<State>)
    requires ctx.Smooth() && ctx.Valid() && revision < MAX_AUTHOR_REVISIONS
    modifies ctx`operations, ctx`written, ctx`author, ctx`spec, ctx`sb, ctx`revision
    ensures ctx.Valid() && ctx.written == old(ctx.written) + part
    ensures ctx.Smooth() <==> r != Some(Raise(Fault))
    ensures r.None? ==>
      part == [Authoring, Validating] && old(PlanNow(ctx, failure, revision)) == PlanNow(ctx, complaint, revision + 1)
    ensures r.Some? ==> EndsAsPlanned(old(PlanNow(ctx, failure, revision)), r.value, ctx.sb, ctx.spec, revision, part)
  {
    if ctx.oracle.outOfTime(revision) { return Some(Ok(false)), failure, []; }
    ctx.revision := revision;
    var gate;
    gate, part := Revise(ctx, failure);
    if gate.Raise? { return Some(Raise(gate.exn)), failure, part; }
    r, complaint := if gate.value.Passed? then Some(Ok(true)) else None, gate.value;
  }

  /** The repair loop: Ok(true) once a revision passes, Ok(false) when revisions or time run out. */
  method ReviseUntilAccepted(ctx: Context, ghost plan: Plan) returns (r: Result<bool>, ghost revisions: nat, ghost part: seq<State>)
    requires ctx.Smooth() && ctx.Valid() && plan == PlanNow(ctx, Passed, 0)
    modifies ctx`operations, ctx`written, ctx`author, ctx`spec, ctx`sb, ctx`revision
    ensures ctx.Valid() && ctx.written == old(ctx.written) + Revisions(revisions) + part
    ensures ctx.Smooth() <==> r != Raise(Fault)
    ensures revisions <= MAX_AUTHOR_REVISIONS && (r != Ok(false) ==> revisions < MAX_AUTHOR_REVISIONS)
    ensures EndsAsPlanned(plan, r, ctx.sb, ctx.spec, revisions, part)
  {
    revisions, part := 0, [];
    var failure := Passed;
    for revision := 0 to MAX_AUTHOR_REVISIONS
      invariant ctx.Smooth() && ctx.Valid() && revisions == revision
      invariant ctx.written == old(ctx.written) + Revisions(revision)
      invariant plan == PlanNow(ctx, failure, revision)
    {
      var ended, complaint, written := TryRevision(ctx, failure, revision);
      if ended.Some? { return ended.value, revisions, written; }
      Associate(old(ctx.written), Revisions(revision), written);
      failure := complaint;
      revisions := revisions + 1;
    }
    return Ok(false), revisions, [];
  }

  lemma AcceptedNow(o: Oracle, samples: seq<Test>, checker: string, sb: Sandbox, spec: Spec, prompt: Prompt, revision: nat)
    requires checker == "" ==> "checker.py" !in sb.files
    requires sb.machine == o.machine && sb.user == o.user && revision < MAX_AUTHOR_REVISIONS
    requires o.authored(revision, prompt).Answer?
    requires Gated(samples, checker, sb, spec, o.authored(revision, prompt).value).2.Passed?
    ensures var (box, fit, _) := Gated(samples, checker, sb, spec, o.authored(revision, prompt).value);
            AcceptsLast(o, samples, checker, Accepting(box, fit, prompt, revision + 1))
  {
    InstallInstalls(sb, o.authored(revision, prompt).value, checker);
    GatesAccept(sb, o.authored(revision, prompt).value, checker, samples, spec.sizeMax);
  }

  /** A revision the plan accepts is the model's last, and passed the gates in a sandbox that runs this submission. */
  lemma {:induction false} PlanAccepts(o: Oracle, samples: seq<Test>, checker: string, sb: Sandbox, spec: Spec, prompt: Prompt, revision: nat)
    requires checker == "" ==> "checker.py" !in sb.files
    requires sb.machine == o.machine && sb.user == o.user
    ensures var p := PlanFrom(o, samples, checker, sb, spec, prompt, revision);
            p.Accepting? ==> AcceptsLast(o, samples, checker, p)
    decreases MAX_AUTHOR_REVISIONS - revision
  {
    if revision >= MAX_AUTHOR_REVISIONS || o.outOfTime(revision) || o.authored(revision, prompt).NoAnswer? {
      PlanEnds(o, samples, checker, sb, spec, prompt, revision);
    } else {
      var box, fit, repair := PlanTurns(o, samples, checker, sb, spec, prompt, revision);
      PlanAccepts(o, samples, checker, box, fit, repair, revision + 1);
    }
  }

  lemma PlanEnds(o: Oracle, samples: seq<Test>, checker: string, sb: Sandbox, spec: Spec, prompt: Prompt, revision: nat)
    requires revision >= MAX_AUTHOR_REVISIONS || o.outOfTime(revision) || o.authored(revision, prompt).NoAnswer?
    ensures !PlanFrom(o, samples, checker, sb, spec, prompt, revision).Accepting?
  {}

  /** The plan for a submission accepts nothing but the model's last revision. */
  lemma PlanAcceptsLast(o: Oracle, samples: seq<Test>)
    ensures PlanOf(o, samples).Accepting? ==>
              Briefed(o).Ok? && AcceptsLast(o, samples, Briefed(o).value.1, PlanOf(o, samples))
  {
    if Briefed(o).Ok? {
      var (spec, checker) := Briefed(o).value;
      PlanAccepts(o, samples, checker, Empty(o), spec, FromStatement(spec), 0);
    }
  }

  /** The revisions asked for. */
  function Asked(p: Plan): nat { p.revisions + if p.Failing? && p.cut then 1 else 0 }

  /** A repair of this revision is asked for: of its programs, given what the gates said of them. */
  ghost predicate AsksForRepair(o: Oracle, samples: seq<Test>, checker: string, prompt: Prompt, revision: nat) {
    && prompt.Repair? && !prompt.failure.Passed?
    && exists asked, box, size :: RejectedBefore(o, samples, checker, prompt.programs, prompt.failure, revision, asked, box, size)
  }

  /** The model gave these programs for this revision, and the gates answered `failure` to them. */
  ghost predicate RejectedBefore(o: Oracle, samples: seq<Test>, checker: string, programs: Authored, failure: Gate, revision: nat,
                                 asked: Prompt, box: Sandbox, size: int)
  {
    && o.authored(revision, asked) == Answer(programs)
    && Installed(box, programs, checker) && box.machine == o.machine
    && failure == GateOf(box, checker, samples, size)
  }

  /** A plan from this revision on asks in time, at most up to the third, and for repairs once the first is rejected. */
  ghost predicate Disciplined(o: Oracle, samples: seq<Test>, checker: string, p: Plan, prompt: Prompt, revision: nat) {
    && revision <= p.revisions && Asked(p) <= 3 && (forall j :: revision <= j < Asked(p) ==> !o.outOfTime(j))
    && match p
       case GaveUp(k) => k == 3 || o.outOfTime(k)
       case Failing(_, _, cut) => cut
       case Accepting(_, _, last, k) =>
         revision < k && if k == revision + 1 then last == prompt else AsksForRepair(o, samples, checker, last, k - 2)
  }

  lemma DisciplineGrows(o: Oracle, samples: seq<Test>, checker: string, p: Plan, prompt: Prompt, repair: Prompt, revision: nat)
    requires Disciplined(o, samples, checker, p, repair, revision + 1) && !o.outOfTime(revision)
    requires AsksForRepair(o, samples, checker, repair, revision)
    ensures Disciplined(o, samples, checker, p, prompt, revision)
  {}

  lemma DisciplineAccepts(o: Oracle, samples: seq<Test>, checker: string, sb: Sandbox, spec: Spec, prompt: Prompt, revision: nat)
    requires revision < 3 && !o.outOfTime(revision)
    ensures Disciplined(o, samples, checker, Accepting(sb, spec, prompt, revision + 1), prompt, revision)
  {}

  /** One turn of the plan: accept, or go on with a repair. */
  lemma PlanTurns(o: Oracle, samples: seq<Test>, checker: string, sb: Sandbox, spec: Spec, prompt: Prompt, revision: nat)
    returns (box: Sandbox, fit: Spec, repair: Prompt)
    requires (checker == "" ==> "checker.py" !in sb.files) && sb.machine == o.machine && sb.user == o.user
    requires revision < MAX_AUTHOR_REVISIONS && !o.outOfTime(revision) && o.authored(revision, prompt).Answer?
    ensures (checker == "" ==> "checker.py" !in box.files) && box.machine == o.machine && box.user == o.user
    ensures var p := PlanFrom(o, samples, checker, sb, spec, prompt, revision);
            || (p == Accepting(box, fit, prompt, revision + 1) && AcceptsLast(o, samples, checker, p))
            || (AsksForRepair(o, samples, checker, repair, revision)
                && p == PlanFrom(o, samples, checker, box, fit, repair, revision + 1))
  {
    var a := o.authored(revision, prompt).value;
    var (b, f, gate) := Gated(samples, checker, sb, spec, a);
    InstallInstalls(sb, a, checker);
    box, fit, repair := b, f, Repair(gate, a);
    assert RejectedBefore(o, samples, checker, a, gate, revision, prompt, box, spec.sizeMax);
    if gate.Passed? { AcceptedNow(o, samples, checker, sb, spec, prompt, revision); }
  }

  lemma PlanHalts(o: Oracle, samples: seq<Test>, checker: string, sb: Sandbox, spec: Spec, prompt: Prompt, revision: nat)
    requires revision <= 3 && (revision == 3 || o.outOfTime(revision) || o.authored(revision, prompt).NoAnswer?)
    ensures Disciplined(o, samples, checker, PlanFrom(o, samples, checker, sb, spec, prompt, revision), prompt, revision)
  {}

  lemma {:induction false} PlanFromMeans(o: Oracle, samples: seq<Test>, checker: string, sb: Sandbox, spec: Spec, prompt: Prompt, revision: nat)
    requires revision <= 3 && (checker == "" ==> "checker.py" !in sb.files)
    requires sb.machine == o.machine && sb.user == o.user
    ensures Disciplined(o, samples, checker, PlanFrom(o, samples, checker, sb, spec, prompt, revision), prompt, revision)
    decreases 3 - revision
  {
    if revision == 3 || o.outOfTime(revision) || o.authored(revision, prompt).NoAnswer? {
      PlanHalts(o, samples, checker, sb, spec, prompt, revision);
    } else {
      var box, fit, repair := PlanTurns(o, samples, checker, sb, spec, prompt, revision);
      DisciplineAccepts(o, samples, checker, box, fit, prompt, revision);
      if PlanFrom(o, samples, checker, sb, spec, prompt, revision) != Accepting(box, fit, prompt, revision + 1) {
        PlanFromMeans(o, samples, checker, box, fit, repair, revision + 1);
        DisciplineGrows(o, samples, checker, PlanFrom(o, samples, checker, box, fit, repair, revision + 1), prompt, repair, revision);
      }
    }
  }

  /**
   How often the model is asked, and for what: at most three times, each in time; the search gives up only
   after three or out of time; and an accepted revision beyond the first was asked for as the repair of the
   one before it.
   */
  lemma PlanMeans(o: Oracle, samples: seq<Test>)
    ensures var p := PlanOf(o, samples);
            && Asked(p) <= 3 && (forall j :: 0 <= j < Asked(p) ==> !o.outOfTime(j))
            && (p.GaveUp? && Briefed(o).Ok? ==> p.revisions == 3 || o.outOfTime(p.revisions))
            && (p.Failing? && !p.cut ==> Briefed(o) == Raise(Model(p.why)))
            && (p.Accepting? ==> Briefed(o).Ok? && p.revisions >= 1)
            && (p.Accepting? && p.revisions == 1 ==> p.prompt == FromStatement(Briefed(o).value.0))
            && (p.Accepting? && p.revisions >= 2 ==> AsksForRepair(o, samples, Briefed(o).value.1, p.prompt, p.revisions - 2))
  {
    if Briefed(o).Ok? {
      var (spec, checker) := Briefed(o).value;
      PlanFromMeans(o, samples, checker, Empty(o), spec, FromStatement(spec), 0);
    }
  }

  /** What a search that went as planned found is a failure in the sandbox the plan accepted. */
  lemma PlannedIsSound(o: Oracle, s: Settings, samples: seq<Test>, r: Result<Option<Mismatch>>, trace: seq<State>, tally: Tally)
    requires AsPlanned(o, s, PlanOf(o, samples), r, trace, tally) && r.Ok? && r.value.Some?
    ensures FromStress(o, s.perRunTimeout, samples, Shown(r.value.value))
  {
    PlanAcceptsLast(o, samples);
    var p := PlanOf(o, samples);
    StressedIsGenuine(o, s, p.sb, p.spec, r.value.value, tally);
  }

  /** A repair loop that accepts nothing ends the search as planned. */
  lemma PlannedStop(o: Oracle, s: Settings, p: Plan, accepted: Result<bool>, sb: Sandbox, spec: Spec, k: nat, part: seq<State>)
    requires EndsAsPlanned(p, accepted, sb, spec, k, part) && accepted != Ok(true)
    requires k <= MAX_AUTHOR_REVISIONS && (accepted != Ok(false) ==> k < MAX_AUTHOR_REVISIONS)
    ensures IsSearchTrace(Revisions(k) + part)
    ensures accepted != Raise(Fault) ==>
      AsPlanned(o, s, p, if accepted.Raise? then Raise(accepted.exn) else Ok(None), Revisions(k) + part, Tally(0, 0))
  {
    if accepted == Ok(false) { SearchTraceOf(k, false, false, Revisions(k) + part); } else { PartialRevision(k, part); }
  }

  /** After an accepted revision only the stress run is left to write. */
  lemma PlannedStress(p: Plan, sb: Sandbox, spec: Spec, k: nat, stressed: bool)
    requires Accepts(p, sb, spec, k + 1) && k < MAX_AUTHOR_REVISIONS
    ensures var trace := Revisions(k) + [Authoring, Validating] + When(stressed, Stressing);
            IsSearchTrace(trace) && (stressed ==> trace == p.Trace())
  {
    SearchTraceOf(k + 1, false, stressed, Revisions(k) + [Authoring, Validating] + When(stressed, Stressing));
  }

  /** The stress run as the plan has it, after `done` was written by revisions of which the last passed. */
  method StressPlanned(ctx: Context, ghost plan: Plan, ghost k: nat, ghost done: seq<State>)
    returns (r: Result<Option<Mismatch>>, ghost last: seq<State>)
    requires ctx.Smooth() && ctx.Valid() && ctx.Counts() == Tally(0, 0) && NonDecreasing(ctx.oracle.clock)
    requires Accepts(plan, ctx.sb, ctx.spec, k + 1) && k < MAX_AUTHOR_REVISIONS
    requires done == Revisions(k) + [Authoring, Validating]
    modifies ctx`operations, ctx`choked, ctx`written, ctx`roundsRun, ctx`shrinkSteps
    ensures ctx.written == old(ctx.written) + last && IsSearchTrace(done + last)
    ensures r.Raise? ==> r.exn == Fault
    ensures ctx.choked ==> ctx.oracle.delivery.Chokes()
    ensures ctx.Smooth() <==> r.Ok?
    ensures r.Ok? ==> AsPlanned(ctx.oracle, ctx.settings, plan, r, done + last, ctx.Counts())
  {
    ghost var stressed;
    r, stressed := StressAccepted(ctx);
    PlannedStress(plan, ctx.sb, ctx.spec, k, stressed);
    last := When(stressed, Stressing);
  }

  /** Revise, then run the driver if a revision passed. */
  method Search(ctx: Context, ghost plan: Plan) returns (r: Result<Option<Mismatch>>, ghost trace: seq<State>)
    requires ctx.Smooth() && ctx.Valid() && ctx.Counts() == Tally(0, 0) && NonDecreasing(ctx.oracle.clock)
    requires plan == PlanNow(ctx, Passed, 0)
    modifies ctx
    ensures ctx.written == old(ctx.written) + trace && IsSearchTrace(trace)
    ensures ctx.choked ==> ctx.oracle.delivery.Chokes()
    ensures ctx.Smooth() <==> r != Raise(Fault)
    ensures r != Raise(Fault) ==> AsPlanned(ctx.oracle, ctx.settings, plan, r, trace, ctx.Counts())
  {
    var accepted, revisions, part := ReviseUntilAccepted(ctx, plan);
    trace := Revisions(revisions) + part;
    Associate(old(ctx.written), Revisions(revisions), part);
    if accepted != Ok(true) {
      PlannedStop(ctx.oracle, ctx.settings, plan, accepted, ctx.sb, ctx.spec, revisions, part);
      return if accepted.Raise? then Raise(accepted.exn) else Ok(None), trace;
    }
    ghost var last;
    r, last := StressPlanned(ctx, plan, revisions, trace);
    Associate(old(ctx.written), trace, last);
    trace := trace + last;
  }

  /** The authoring, validation and stress path: as planned, unless the sandbox or the database raises. */
  method AuthorAndStress(ctx: Context) returns (r: Result<Option<Mismatch>>, ghost trace: seq<State>)
    requires ctx.Smooth() && ctx.Fresh() && NonDecreasing(ctx.oracle.clock)
    modifies ctx
    ensures ctx.written == old(ctx.written) + trace && IsSearchTrace(trace)
    ensures ctx.choked ==> ctx.oracle.delivery.Chokes()
    ensures ctx.Smooth() <==> r != Raise(Fault)
    ensures r != Raise(Fault) ==>
      AsPlanned(ctx.oracle, ctx.settings, PlanOf(ctx.oracle, ctx.samples), r, trace, ctx.Counts())
  {
    trace := [];
    SearchTraceOf(0, false, false, trace);
    var prepared := Prepare(ctx);
    if prepared.Raise? { return Raise(prepared.exn), trace; }
    r, trace := Search(ctx, PlanNow(ctx, Passed, 0));
  }

  function OfFree(f: Free): Mismatch { Mismatch(-1, -1, f.input, f.expected, f.actual, WrongAnswer) }

  function Fallback(free: Option<Free>): Option<Mismatch> { if free.Some? then Some(OfFree(free.value)) else None }

  /** The planned search, with the free counterexample standing in when it finds nothing or the model fails. */
  function WithFallback(q: Result<Option<Mismatch>>, free: Option<Free>): Result<Option<Mismatch>> {
    if free.None? || (q.Ok? && q.value.Some?) then q else Ok(Fallback(free))
  }

  predicate Readable(free: Option<Free>) { free.Some? && |free.value.input| <= MINIMAL_INPUT_CHARS }

  /** A short failing test is returned as it is; otherwise the search goes as planned, with the test to fall back on. */
  ghost predicate Sought(o: Oracle, s: Settings, samples: seq<Test>, free: Option<Free>,
                         r: Result<Option<Mismatch>>, trace: seq<State>, tally: Tally)
  {
    if Readable(free) then r == Ok(Fallback(free)) && trace == [] && tally == Tally(0, 0)
    else exists q :: AsPlanned(o, s, PlanOf(o, samples), q, trace, tally) && r == WithFallback(q, free)
  }

  method FindCounterexample(ctx: Context, free: Option<Free>) returns (r: Result<Option<Mismatch>>, ghost trace: seq<State>)
    requires ctx.Smooth() && ctx.Fresh() && NonDecreasing(ctx.oracle.clock)
    modifies ctx
    ensures ctx.written == old(ctx.written) + trace && IsSearchTrace(trace)
    ensures ctx.choked ==> ctx.oracle.delivery.Chokes()
    ensures ctx.Smooth() <==> r != Raise(Fault)
    ensures r != Raise(Fault) ==> Sought(ctx.oracle, ctx.settings, ctx.samples, free, r, trace, ctx.Counts())
  {
    trace := [];
    SearchTraceOf(0, false, false, trace);
    if free.Some? {
      var noted := ctx.Operate();
      if noted.Raise? { return Raise(noted.exn), trace; }
      if |free.value.input| <= MINIMAL_INPUT_CHARS { return Ok(Fallback(free)), trace; }
    }
    r, trace := AuthorAndStress(ctx);
    if r.Raise? && r.exn.Model? && free.Some? {
      var noted := ctx.Operate();
      return if noted.Raise? then Raise(noted.exn) else Ok(Fallback(free)), trace;
    }
    if r.Ok? && r.value.None? { r := Ok(Fallback(free)); }
  }

  // ----------------------------------------------------------------- execution

  /** An online judge rejected the submission although the local tests accept it. */
  predicate Overrides(verdict: Verdict, external: string) {
    verdict == AC && (external == "WA" || external == "TLE" || external == "RE")
  }

  datatype Ending = Ending(state: State, report: Report)

  function Plain(verdict: Option<Verdict>, roundsRun: int): Report { Report(verdict, None, None, roundsRun, 0) }

  /** The label, or None if the model fails: losing it does not lose the counterexample. */
  function Label(o: Oracle): Option<string> {
    if o.explained.Answer? then Some(o.explained.value.bugClass) else None
  }

  /** How an attempt ends once the search is over. */
  predicate Concludes(o: Oracle, r: Result<Option<Mismatch>>, tally: Tally, end: Ending, rest: seq<State>) {
    match r
    case Ok(Some(m)) =>
      && end.state == Done && rest == [Explaining] && end.report.verdict == Some(WA) && end.report.roundsRun == tally.rounds
      && end.report.shrinkSteps == tally.steps
      && end.report.counterexample == Some(Shown(m)) && end.report.bugClass == Label(o)
    case Ok(None) => end == Ending(Done, Plain(Some(WA), tally.rounds)) && rest == []
    case Raise(_) => end == Ending(Degraded, Plain(Some(WA), tally.rounds)) && rest == []
  }

  /** The whole outcome of an attempt in which nothing raises; `rest` is what it writes after Compiling and Judging. */
  ghost predicate Outcome(ctx: Context, end: Ending, rest: seq<State>) {
    var (verdict, free) := Judged(ctx.oracle, ctx.settings.perRunTimeout, ctx.Tests());
    if verdict != WA && !Overrides(verdict, ctx.external) then
      end == Ending(Done, Plain(Some(verdict), 0)) && rest == []
    else Hunted(ctx, free, end, rest)
  }

  ghost predicate Hunted(ctx: Context, free: Option<Free>, end: Ending, rest: seq<State>) {
    exists r, search, tally, last ::
      && Sought(ctx.oracle, ctx.settings, ctx.samples, free, r, search, tally)
      && Concludes(ctx.oracle, r, tally, end, last) && rest == search + last
  }

  /** finish; an exception means that nothing was written. */
  method Finish(ctx: Context, state: State, report: Report) returns (r: Result<Ending>)
    requires ctx.Smooth()
    modifies ctx`operations, ctx`written
    ensures r.Ok? ==> r.value == Ending(state, report) && ctx.written == old(ctx.written) + [state]
    ensures r.Raise? ==> ctx.written == old(ctx.written) && r.exn == Fault
    ensures ctx.Smooth() <==> r.Ok?
  {
    var _ :- ctx.Operate();
    ctx.written := ctx.written + [state];
    r := Ok(Ending(state, report));
  }

  method Explain(ctx: Context) returns (r: Result<Option<string>>)
    requires ctx.Smooth()
    modifies ctx`operations
    ensures r.Raise? ==> r.exn == Fault
    ensures ctx.Smooth() <==> r.Ok?
    ensures r.Ok? ==> r.value == Label(ctx.oracle)
  {
    var _ :- ctx.Operate();
    match ctx.oracle.explained {
      case Answer(e) => return Ok(Some(e.bugClass));
      case NoAnswer(_) =>
        var _ :- ctx.Operate();
        return Ok(None);
    }
  }

  /** Report the mismatch with its explanation, say that none was found, or degrade. */
  method Conclude(ctx: Context, found: Result<Option<Mismatch>>) returns (r: Result<Ending>, ghost explained: bool)
    requires found != Raise(Fault)
    requires ctx.Smooth()
    modifies ctx`operations, ctx`written
    ensures r.Ok? ==> ctx.written == old(ctx.written) + When(explained, Explaining) + [r.value.state]
    ensures r.Ok? ==> Concludes(ctx.oracle, found, ctx.Counts(), r.value, When(explained, Explaining))
    ensures r.Raise? ==> ctx.written == old(ctx.written) + When(explained, Explaining)
    ensures r.Raise? ==> r.exn == Fault
    ensures ctx.Smooth() <==> r.Ok?
  {
    explained := false;
    match found {
      case Raise(_) =>
        var noted := ctx.Operate();
        if noted.Raise? { return Raise(noted.exn), explained; }
        r := Finish(ctx, Degraded, Plain(Some(WA), ctx.roundsRun));
      case Ok(None) =>
        r := Finish(ctx, Done, Plain(Some(WA), ctx.roundsRun));
      case Ok(Some(m)) =>
        var moved := ctx.SetState(Explaining);
        explained := ctx.written != old(ctx.written);
        if moved.Raise? { return Raise(moved.exn), explained; }
        var bugClass := Explain(ctx);
        if bugClass.Raise? { return Raise(bugClass.exn), explained; }
        r := Finish(ctx, Done, Report(Some(WA), Some(Shown(m)), bugClass.value, ctx.roundsRun, ctx.shrinkSteps));
    }
  }

  /** The search, and what it ends with. */
  method Hunt(ctx: Context, free: Option<Free>) returns (r: Result<Ending>, ghost rest: seq<State>)
    requires ctx.Smooth() && ctx.Fresh() && NonDecreasing(ctx.oracle.clock)
    modifies ctx
    ensures r.Ok? ==> Hunted(ctx, free, r.value, rest) && ctx.written == old(ctx.written) + rest + [r.value.state]
    ensures ctx.choked ==> ctx.oracle.delivery.Chokes()
    ensures ctx.Smooth() <==> r.Ok?
    ensures r.Raise? ==> r.exn == Fault && ctx.written == old(ctx.written) + rest
    ensures IsRest(rest)
  {
    var found, search := FindCounterexample(ctx, free);
    ghost var tally := ctx.Counts();
    RestOf(search, false);
    rest := search;
    if found == Raise(Fault) { return Raise(Fault), rest; }
    ghost var explained;
    r, explained := Conclude(ctx, found);
    Associate(old(ctx.written), search, When(explained, Explaining));
    RestOf(search, explained);
    rest := search + When(explained, Explaining);
    if r.Ok? { HuntedBy(ctx, free, found, search, tally, When(explained, Explaining), r.value); }
  }

  lemma HuntedBy(ctx: Context, free: Option<Free>, r: Result<Option<Mismatch>>, search: seq<State>, tally: Tally, last: seq<State>, end: Ending)
    requires Sought(ctx.oracle, ctx.settings, ctx.samples, free, r, search, tally)
    requires Concludes(ctx.oracle, r, tally, end, last)
    ensures Hunted(ctx, free, end, search + last)
  {}

  /** From the verdict on: stop, or search and conclude. */
  method Pursue(ctx: Context, verdict: Verdict, free: Option<Free>) returns (r: Result<Ending>, ghost rest: seq<State>)
    requires ctx.Smooth() && ctx.Fresh() && NonDecreasing(ctx.oracle.clock)
    requires (verdict, free) == Judged(ctx.oracle, ctx.settings.perRunTimeout, ctx.Tests())
    modifies ctx
    ensures r.Ok? ==> Outcome(ctx, r.value, rest) && ctx.written == old(ctx.written) + rest + [r.value.state]
    ensures ctx.choked ==> ctx.oracle.delivery.Chokes()
    ensures ctx.Smooth() <==> r.Ok?
    ensures r.Raise? ==> r.exn == Fault && ctx.written == old(ctx.written) + rest
    ensures IsRest(rest)
  {
    rest := [];
    SearchTraceOf(0, false, false, []);
    RestOf([], false);
    var overridden := Overrides(verdict, ctx.external);
    if verdict != WA && !overridden {
      r := Finish(ctx, Done, Plain(Some(verdict), 0));
      return;
    }
    if overridden {
      VerdictMeans(ctx.oracle, ctx.settings.perRunTimeout, ctx.Tests(), 0);
      var noted := ctx.Operate();
      if noted.Raise? { return Raise(noted.exn), rest; }
    }
    r, rest := Hunt(ctx, if overridden then None else free);
  }

  ghost predicate IsRest(rest: seq<State>) {
    exists search, explained :: IsSearchTrace(search) && rest == search + When(explained, Explaining)
  }

  lemma RestOf(search: seq<State>, explained: bool)
    requires IsSearchTrace(search)
    ensures IsRest(search + When(explained, Explaining))
    ensures search + When(false, Explaining) == search
  {}

  /** The first two states, and the verdict of the local tests. */
  method Judge(ctx: Context) returns (r: Result<(Verdict, Option<Free>)>)
    requires ctx.Smooth() && ctx.written == []
    modifies ctx`operations, ctx`written
    ensures r.Ok? ==> r.value == Judged(ctx.oracle, ctx.settings.perRunTimeout, ctx.Tests())
    ensures r.Ok? ==> ctx.written == [Compiling, Judging]
    ensures r.Raise? ==> r.exn == Fault
    ensures ctx.Smooth() <==> r.Ok?
    ensures r.Raise? ==> ctx.written == [] || ctx.written == [Compiling] || ctx.written == [Compiling, Judging]
  {
    var _ :- ctx.SetState(Compiling);
    var _ :- ctx.SetState(Judging);
    r := ctx.CompileAndJudge();
  }

  lemma AttemptTraceOf(rest: seq<State>)
    requires IsRest(rest)
    ensures IsAttemptTrace([Compiling, Judging] + rest)
  {
    var search, explained :| IsSearchTrace(search) && rest == search + When(explained, Explaining);
    assert [Compiling, Judging] + rest == [Compiling, Judging] + search + When(explained, Explaining);
  }

  method Execute(ctx: Context) returns (r: Result<Ending>, ghost trace: seq<State>)
    requires ctx.Smooth() && ctx.Fresh() && ctx.written == [] && NonDecreasing(ctx.oracle.clock)
    modifies ctx
    ensures IsAttemptTrace(trace)
    ensures r.Ok? ==> ctx.written == trace + [r.value.state] && [Compiling, Judging] <= trace && Outcome(ctx, r.value, trace[2..])
    ensures ctx.choked ==> ctx.oracle.delivery.Chokes()
    ensures ctx.Smooth() <==> r.Ok?
    ensures r.Raise? ==> r.exn == Fault && ctx.written == trace
  {
    SearchTraceOf(0, false, false, []);
    RestOf([], false);
    AttemptTraceOf([]);
    var judged := Judge(ctx);
    trace := ctx.written;
    assert [Compiling, Judging] + [] == [Compiling, Judging];
    if judged.Raise? { return Raise(judged.exn), trace; }
    ghost var rest;
    r, rest := Pursue(ctx, judged.value.0, judged.value.1);
    AttemptTraceOf(rest);
    trace := trace + rest;
    assert trace[2..] == rest;
  }

  /**
   One attempt. Its state writes follow the grammar and end with exactly one terminal state. It ends as
   Failed if and only if one of its operations raised, or it choked on the driver's events; otherwise the
   outcome is the one determined by the tests, the model's answers and what the programs do.
   */
  method RunSubmission(ctx: Context) returns (end: Ending, ghost trace: seq<State>)
    requires ctx.Smooth() && ctx.Fresh() && ctx.written == [] && NonDecreasing(ctx.oracle.clock)
    modifies ctx
    ensures ctx.written == trace + [end.state] && IsAttemptTrace(trace) && Terminal(end.state)
    ensures end.state != Failed ==> [Compiling, Judging] <= trace && Outcome(ctx, end, trace[2..])
    ensures end.state == Failed <==> ctx.choked || exists n :: 0 <= n < ctx.operations && ctx.oracle.raises(n)
    ensures ctx.choked ==> ctx.oracle.delivery.Chokes()
    ensures end.state == Failed ==> end.report == Plain(None, 0)
  {
    var r;
    r, trace := Execute(ctx);
    if r.Ok? {
      OutcomeIsNotFailed(ctx, r.value, trace[2..]);
      return r.value, trace;
    }
    end := Ending(Failed, Plain(None, 0));
    ctx.written := ctx.written + [Failed];
  }

  lemma OutcomeIsNotFailed(ctx: Context, end: Ending, rest: seq<State>)
    requires Outcome(ctx, end, rest)
    ensures end.state != Failed
  {}
}

/** Scope composition over an abstract policy engine
    (experiments/policy-engine-spike/src/cedar_engine.rs, decision.rs). A policy has an effect, an
    action scope and a body whose outcome for a request is arbitrary; the engine evaluates every
    policy, lets forbids override permits, and skips and reports the policies that err. */
module PolicyComposition {
  import opened Wrappers

  datatype Scope = Installation | Classifier | User | Task | Workspace | Repository

  predicate IsLower(s: Scope) {
    s.Workspace? || s.Repository?
  }

  function Name(s: Scope): string {
    match s
    case Installation => "installation"
    case Classifier => "classifier"
    case User => "user"
    case Task => "task"
    case Workspace => "workspace"
    case Repository => "repository"
  }

  function Annotation(s: Scope): string {
    if s.Classifier? then "installation" else Name(s)
  }

  datatype Effect = Permit | Forbid

  datatype ActionScope = AnyAction | Equals(action: string) | In(actions: seq<string>)

  /** A baseline permit has no condition; any other body is known by the outcome a request gives it. */
  datatype Body = Unconditional | When(condition: nat)

  datatype Policy = Policy(id: string, effect: Effect, actions: ActionScope, body: Body, reason: Option<string>)

  /** A policy as parsed, before it is renamed to its annotated identity. */
  datatype RawPolicy = RawPolicy(id: Option<string>, annotation: Option<string>, effect: Effect,
                                 actions: ActionScope, body: Body, reason: Option<string>)

  /** A source file; its text parses into policies or it does not. */
  datatype Source = Source(scope: Scope, text: Option<seq<RawPolicy>>)

  datatype Scoped = Scoped(scope: Scope, policy: Policy)

  type PolicySet = map<string, Policy>

  /** Which action belongs to which action group, as the schema declares it. */
  type Hierarchy = set<(string, string)>

  datatype Outcome = Satisfied | Unsatisfied | Errs

  datatype Request = Request(action: string, tooLarge: bool, wellFormed: bool, outcome: nat -> Outcome)

  datatype ErrorClass = RequestTooLarge | RequestInvalid | PolicyError | EngineError | ResultInvalid

  datatype Decision = Decision(allow: bool, rules: set<string>, reasons: set<string>, error: Option<ErrorClass>)

  datatype Engine = Engine(hierarchy: Hierarchy, merged: PolicySet, authority: PolicySet, workspace: PolicySet,
                           repository: PolicySet, sliced: map<string, PolicySet>, reasons: map<string, string>)

  datatype Pattern = Merged | Conjunction | Sliced

  const ACTIONS: seq<string> :=
    ["exec", "exec_request_approval", "exec_approved", "write", "connect", "secret_use", "egress"]

  const EXEC_ANY := "exec_any"

  const EXEC_GROUP: set<string> := {"exec", "exec_request_approval", "exec_approved"}

  const SCHEMA: Hierarchy := set a | a in EXEC_GROUP :: (a, EXEC_ANY)

  // ------------------------------------------------------------ decisions

  function ReasonOf(kind: ErrorClass): string {
    match kind
    case RequestTooLarge => "request_too_large"
    case RequestInvalid => "request_invalid"
    case PolicyError => "policy_error"
    case EngineError => "engine_error"
    case ResultInvalid => "result_invalid"
  }

  function DenyError(kind: ErrorClass, rules: set<string>): Decision {
    Decision(false, rules, {ReasonOf(kind)}, Some(kind))
  }

  const NO_PERMIT := Decision(false, {}, {"no_permit"}, None)

  // ------------------------------------------------------- abstract engine

  predicate Applies(h: Hierarchy, scope: ActionScope, action: string) {
    match scope
    case AnyAction => true
    case Equals(a) => a == action
    case In(groups) => exists i :: 0 <= i < |groups| && (groups[i] == action || (action, groups[i]) in h)
  }

  function OutcomeOf(h: Hierarchy, p: Policy, r: Request): Outcome {
    if !Applies(h, p.actions, r.action) then Unsatisfied
    else match p.body
      case Unconditional => Satisfied
      case When(c) => r.outcome(c)
  }

  function Erring(h: Hierarchy, policies: PolicySet, r: Request): set<string> {
    set id | id in policies && OutcomeOf(h, policies[id], r) == Errs
  }

  function Satisfying(h: Hierarchy, policies: PolicySet, r: Request, effect: Effect): set<string> {
    set id | id in policies && policies[id].effect == effect && OutcomeOf(h, policies[id], r) == Satisfied
  }

  predicate Allows(h: Hierarchy, policies: PolicySet, r: Request) {
    Satisfying(h, policies, r, Forbid) == {} && Satisfying(h, policies, r, Permit) != {}
  }

  function Determining(h: Hierarchy, policies: PolicySet, r: Request): set<string> {
    if Allows(h, policies, r) then Satisfying(h, policies, r, Permit) else Satisfying(h, policies, r, Forbid)
  }

  // ------------------------------------------------------------- wrapper

  predicate IsBaseline(id: string) {
    "baseline." <= id
  }

  function Baseline(scope: Scope): Policy {
    Policy("baseline." + Name(scope), Permit, AnyAction, Unconditional, None)
  }

  function Reasons(reasons: map<string, string>, rules: set<string>): set<string> {
    set id | id in rules && id in reasons :: reasons[id]
  }

  function Evaluate(e: Engine, r: Request, policies: PolicySet): Decision {
    var errors := Erring(e.hierarchy, policies, r);
    if errors != {} then DenyError(PolicyError, errors)
    else
      var allow := Allows(e.hierarchy, policies, r);
      var rules := set id | id in Determining(e.hierarchy, policies, r) && !IsBaseline(id);
      if rules == {} && !allow then NO_PERMIT
      else Decision(allow, rules, Reasons(e.reasons, rules), None)
  }

  function RulesIf(d: Decision, keep: bool): set<string> {
    if keep then d.rules else {}
  }

  function ReasonsIf(d: Decision, keep: bool): set<string> {
    if keep then d.reasons else {}
  }

  predicate Denying(d: Decision) {
    !d.allow && d.rules != {}
  }

  function Conjoin(a: Decision, w: Decision, p: Decision): Decision {
    if a.error.Some? || w.error.Some? || p.error.Some? then
      DenyError(PolicyError, RulesIf(a, a.error.Some?) + RulesIf(w, w.error.Some?) + RulesIf(p, p.error.Some?))
    else if a.allow && w.allow && p.allow then a
    else if !Denying(a) && !Denying(w) && !Denying(p) then NO_PERMIT
    else Decision(false, RulesIf(a, Denying(a)) + RulesIf(w, Denying(w)) + RulesIf(p, Denying(p)),
                  ReasonsIf(a, Denying(a)) + ReasonsIf(w, Denying(w)) + ReasonsIf(p, Denying(p)), None)
  }

  function PatternA(e: Engine, r: Request): Decision {
    Conjoin(Evaluate(e, r, e.authority), Evaluate(e, r, e.workspace), Evaluate(e, r, e.repository))
  }

  function Decide(e: Engine, r: Request, pattern: Pattern): Decision {
    if r.tooLarge then DenyError(RequestTooLarge, {})
    else if r.action !in ACTIONS || !r.wellFormed then DenyError(RequestInvalid, {})
    else match pattern
      case Merged => Evaluate(e, r, e.merged)
      case Conjunction => PatternA(e, r)
      case Sliced => if r.action in e.sliced then Evaluate(e, r, e.sliced[r.action]) else DenyError(RequestInvalid, {})
  }

  // -------------------------------------------------------------- loading

  /** The actions named by one group name, as the slicing step expands it. */
  function Expansion(id: string): set<string> {
    if id == EXEC_ANY then EXEC_GROUP else {id}
  }

  /** Whether the slice for an action keeps a policy with this action scope. */
  predicate Retained(scope: ActionScope, action: string) {
    match scope
    case AnyAction => true
    case Equals(a) => action in Expansion(a)
    case In(groups) => exists i :: 0 <= i < |groups| && action in Expansion(groups[i])
  }

  /** The action names a policy's scope constrains; none when it constrains no action. */
  method ScopeActions(scope: ActionScope) returns (r: Option<set<string>>)
    ensures r.None? <==> scope.AnyAction?
    ensures forall a :: r.Some? ==> (a in r.value <==> Retained(scope, a))
  {
    match scope {
      case AnyAction =>
        return None;
      case Equals(a) =>
        return Some(Expansion(a));
      case In(groups) =>
        var out: set<string> := {};
        for i := 0 to |groups|
          invariant forall a :: a in out <==> exists k :: 0 <= k < i && a in Expansion(groups[k])
        {
          out := out + Expansion(groups[i]);
        }
        return Some(out);
    }
  }

  datatype Selection = Whole | Authority | OfScope(scope: Scope) | ForAction(action: string)

  predicate Selects(selection: Selection, s: Scoped) {
    match selection
    case Whole => true
    case Authority => !IsLower(s.scope)
    case OfScope(scope) => s.scope == scope
    case ForAction(action) => Retained(s.policy.actions, action)
  }

  /** The set holds exactly the selected policies, by identity. */
  ghost predicate Holds(set_: PolicySet, policies: seq<Scoped>, selection: Selection) {
    && (forall i :: 0 <= i < |policies| && Selects(selection, policies[i]) ==>
          policies[i].policy.id in set_ && set_[policies[i].policy.id] == policies[i].policy)
    && (forall id :: id in set_ ==>
          exists i :: 0 <= i < |policies| && Selects(selection, policies[i]) && policies[i].policy.id == id && policies[i].policy == set_[id])
  }

  ghost predicate HoldsWithBaseline(set_: PolicySet, policies: seq<Scoped>, scope: Scope) {
    var b := Baseline(scope);
    b.id in set_ && set_[b.id] == b && Holds(set_ - {b.id}, policies, OfScope(scope))
  }

  predicate Distinct(policies: seq<Scoped>, selection: Selection) {
    forall i, j :: 0 <= i < j < |policies| && Selects(selection, policies[i]) && Selects(selection, policies[j]) ==>
      policies[i].policy.id != policies[j].policy.id
  }

  /** Lower scopes hold only forbids. */
  predicate Linted(policies: seq<Scoped>) {
    forall i :: 0 <= i < |policies| && IsLower(policies[i].scope) ==> policies[i].policy.effect == Forbid
  }

  /** No policy of a lower scope takes the identity of that scope's baseline permit. */
  predicate BaselineFree(policies: seq<Scoped>, scope: Scope) {
    forall i :: 0 <= i < |policies| && policies[i].scope == scope ==> policies[i].policy.id != Baseline(scope).id
  }

  ghost predicate ReasonsOf(reasons: map<string, string>, policies: seq<Scoped>) {
    && (forall i :: 0 <= i < |policies| && policies[i].policy.reason.Some? ==>
          policies[i].policy.id in reasons && reasons[policies[i].policy.id] == policies[i].policy.reason.value)
    && (forall id :: id in reasons ==> exists i :: 0 <= i < |policies| && policies[i].policy.id == id && policies[i].policy.reason.Some?)
  }

  ghost predicate Loaded(e: Engine, policies: seq<Scoped>) {
    && Linted(policies)
    && Distinct(policies, Whole)
    && Holds(e.merged, policies, Whole)
    && Holds(e.authority, policies, Authority)
    && HoldsWithBaseline(e.workspace, policies, Workspace)
    && HoldsWithBaseline(e.repository, policies, Repository)
    && (forall a :: a in ACTIONS ==> a in e.sliced && Holds(e.sliced[a], policies, ForAction(a)))
    && ReasonsOf(e.reasons, policies)
  }

  predicate RawOk(s: Source, p: RawPolicy) {
    p.id.Some? && p.annotation == Some(Annotation(s.scope))
  }

  predicate SourceOk(s: Source) {
    s.text.Some? && forall i :: 0 <= i < |s.text.value| ==> RawOk(s, s.text.value[i])
  }

  function Named(p: RawPolicy): Policy
    requires p.id.Some?
  {
    Policy(p.id.value, p.effect, p.actions, p.body, p.reason)
  }

  function Parsed(s: Source): seq<Scoped>
    requires SourceOk(s)
  {
    seq(|s.text.value|, i requires 0 <= i < |s.text.value| => Scoped(s.scope, Named(s.text.value[i])))
  }

  predicate SourcesOk(sources: seq<Source>) {
    forall i :: 0 <= i < |sources| ==> SourceOk(sources[i])
  }

  /** The policies of all sources, in order. */
  function Policies(sources: seq<Source>): seq<Scoped>
    requires SourcesOk(sources)
  {
    if sources == [] then [] else Policies(sources[..|sources| - 1]) + Parsed(sources[|sources| - 1])
  }

  method ParseSource(s: Source) returns (policies: seq<Scoped>, ok: bool)
    ensures ok == SourceOk(s)
    ensures ok ==> policies == Parsed(s)
  {
    policies, ok := [], true;
    if s.text.None? {
      return [], false;
    }
    var raw := s.text.value;
    for i := 0 to |raw|
      invariant ok == forall k :: 0 <= k < i ==> RawOk(s, raw[k])
      invariant ok ==> |policies| == i && forall k :: 0 <= k < i ==> policies[k] == Scoped(s.scope, Named(raw[k]))
    {
      if raw[i].id.None? {
        ok := false;
        continue;
      }
      if raw[i].annotation != Some(Annotation(s.scope)) {
        ok := false;
      }
      policies := policies + [Scoped(s.scope, Named(raw[i]))];
    }
  }

  method ParseSources(sources: seq<Source>) returns (r: Option<seq<Scoped>>)
    ensures r.Some? <==> SourcesOk(sources)
    ensures r.Some? ==> r.value == Policies(sources)
  {
    var out: seq<Scoped>, good := [], true;
    for i := 0 to |sources|
      invariant good == SourcesOk(sources[..i])
      invariant good ==> out == Policies(sources[..i])
    {
      assert sources[..i + 1][..i] == sources[..i];
      assert sources[..i + 1][i] == sources[i];
      var policies, ok := ParseSource(sources[i]);
      if good && !ok {
        assert !SourceOk(sources[..i + 1][i]);
      }
      if ok {
        out := out + policies;
      }
      good := good && ok;
    }
    assert sources[..|sources|] == sources;
    r := if good then Some(out) else None;
  }

  /** Collect the selected policies; a repeated identity fails. */
  method SetOf(policies: seq<Scoped>, selection: Selection) returns (r: Option<PolicySet>)
    ensures r.Some? <==> Distinct(policies, selection)
    ensures r.Some? ==> Holds(r.value, policies, selection)
  {
    var set_: PolicySet := map[];
    for i := 0 to |policies|
      invariant Distinct(policies[..i], selection)
      invariant Holds(set_, policies[..i], selection)
    {
      var next := policies[i];
      assert policies[..i + 1] == policies[..i] + [next];
      if Selects(selection, next) {
        if next.policy.id in set_ {
          var k :| 0 <= k < i && Selects(selection, policies[..i][k]) && policies[..i][k].policy.id == next.policy.id;
          assert policies[k].policy.id == policies[i].policy.id;
          return None;
        }
        HoldsGrows(set_, policies[..i], selection, next);
        set_ := set_[next.policy.id := next.policy];
      } else {
        HoldsSkips(set_, policies[..i], selection, next);
      }
    }
    assert policies[..|policies|] == policies;
    r := Some(set_);
  }

  lemma HoldsGrows(set_: PolicySet, policies: seq<Scoped>, selection: Selection, next: Scoped)
    requires Holds(set_, policies, selection) && Distinct(policies, selection)
    requires Selects(selection, next) && next.policy.id !in set_
    ensures Holds(set_[next.policy.id := next.policy], policies + [next], selection)
    ensures Distinct(policies + [next], selection)
  {
    var grown, all := set_[next.policy.id := next.policy], policies + [next];
    forall id | id in grown
      ensures exists i :: 0 <= i < |all| && Selects(selection, all[i]) && all[i].policy.id == id && all[i].policy == grown[id]
    {
      if id == next.policy.id {
        assert all[|policies|] == next;
      } else {
        var i :| 0 <= i < |policies| && Selects(selection, policies[i]) && policies[i].policy.id == id && policies[i].policy == set_[id];
        assert all[i] == policies[i];
      }
    }
  }

  lemma HoldsSkips(set_: PolicySet, policies: seq<Scoped>, selection: Selection, next: Scoped)
    requires Holds(set_, policies, selection) && Distinct(policies, selection) && !Selects(selection, next)
    ensures Holds(set_, policies + [next], selection) && Distinct(policies + [next], selection)
  {
    var all := policies + [next];
    forall id | id in set_
      ensures exists i :: 0 <= i < |all| && Selects(selection, all[i]) && all[i].policy.id == id && all[i].policy == set_[id]
    {
      var i :| 0 <= i < |policies| && Selects(selection, policies[i]) && policies[i].policy.id == id && policies[i].policy == set_[id];
      assert all[i] == policies[i];
    }
  }

  method Lower(policies: seq<Scoped>, scope: Scope) returns (r: Option<PolicySet>)
    ensures r.Some? <==> Distinct(policies, OfScope(scope)) && BaselineFree(policies, scope)
    ensures r.Some? ==> HoldsWithBaseline(r.value, policies, scope)
  {
    var own := SetOf(policies, OfScope(scope));
    var b := Baseline(scope);
    if own.None? {
      return None;
    }
    if b.id in own.value {
      return None;
    }
    var set_ := own.value[b.id := b];
    assert set_ - {b.id} == own.value;
    r := Some(set_);
  }

  /** The actions every policy constrains, found once for all slices. */
  method AllScopeActions(policies: seq<Scoped>) returns (scopes: seq<Option<set<string>>>)
    ensures |scopes| == |policies|
    ensures forall i, a :: 0 <= i < |policies| ==>
              (scopes[i].None? || a in scopes[i].value <==> Retained(policies[i].policy.actions, a))
  {
    scopes := [];
    for i := 0 to |policies|
      invariant |scopes| == i
      invariant forall k, a :: 0 <= k < i ==>
                  (scopes[k].None? || a in scopes[k].value <==> Retained(policies[k].policy.actions, a))
    {
      var one := ScopeActions(policies[i].policy.actions);
      scopes := scopes + [one];
    }
  }

  /** The policies that constrain no action or this one. */
  method Slice(policies: seq<Scoped>, scopes: seq<Option<set<string>>>, action: string) returns (set_: PolicySet)
    requires Distinct(policies, ForAction(action)) && |scopes| == |policies|
    requires forall i :: 0 <= i < |policies| ==>
               (scopes[i].None? || action in scopes[i].value <==> Retained(policies[i].policy.actions, action))
    ensures Holds(set_, policies, ForAction(action))
  {
    set_ := map[];
    for i := 0 to |policies|
      invariant Distinct(policies[..i], ForAction(action)) && Holds(set_, policies[..i], ForAction(action))
    {
      var next := policies[i];
      assert policies[..i + 1] == policies[..i] + [next];
      if scopes[i].None? || action in scopes[i].value {
        HoldsNot(set_, policies, i, ForAction(action));
        HoldsGrows(set_, policies[..i], ForAction(action), next);
        set_ := set_[next.policy.id := next.policy];
      } else {
        HoldsSkips(set_, policies[..i], ForAction(action), next);
      }
    }
    assert policies[..|policies|] == policies;
  }

  lemma HoldsNot(set_: PolicySet, policies: seq<Scoped>, i: nat, selection: Selection)
    requires i < |policies| && Distinct(policies, selection) && Selects(selection, policies[i])
    requires Holds(set_, policies[..i], selection)
    ensures policies[i].policy.id !in set_
  {
    forall k | 0 <= k < i && Selects(selection, policies[..i][k]) ensures policies[..i][k].policy.id != policies[i].policy.id {
      assert policies[..i][k] == policies[k];
    }
  }

  method Slices(policies: seq<Scoped>) returns (sliced: map<string, PolicySet>)
    requires Distinct(policies, Whole)
    ensures forall a :: a in ACTIONS ==> a in sliced && Holds(sliced[a], policies, ForAction(a))
  {
    hide Holds, Distinct, Retained;
    var scopes := AllScopeActions(policies);
    sliced := map[];
    for k := 0 to |ACTIONS|
      invariant forall j :: 0 <= j < k ==> ACTIONS[j] in sliced && Holds(sliced[ACTIONS[j]], policies, ForAction(ACTIONS[j]))
    {
      DistinctParts(policies, ForAction(ACTIONS[k]));
      var one := Slice(policies, scopes, ACTIONS[k]);
      sliced := sliced[ACTIONS[k] := one];
    }
  }

  method CollectReasons(policies: seq<Scoped>) returns (reasons: map<string, string>)
    requires Distinct(policies, Whole)
    ensures ReasonsOf(reasons, policies)
  {
    reasons := map[];
    for i := 0 to |policies|
      invariant forall k :: 0 <= k < i && policies[k].policy.reason.Some? ==>
                  policies[k].policy.id in reasons && reasons[policies[k].policy.id] == policies[k].policy.reason.value
      invariant forall id :: id in reasons ==> exists k :: 0 <= k < i && policies[k].policy.id == id && policies[k].policy.reason.Some?
    {
      var p := policies[i].policy;
      if p.reason.Some? {
        forall k | 0 <= k < i ensures policies[k].policy.id != p.id {
          assert Selects(Whole, policies[k]) && Selects(Whole, policies[i]);
        }
        reasons := reasons[p.id := p.reason.value];
      }
    }
  }

  /** Load a bundle: all of it activates or none of it. The schema's own parse, strict validation
      and the entity document are oracles. */
  method Load(schema: Option<Hierarchy>, sources: seq<Source>, validates: bool, entities: bool) returns (r: Option<Engine>)
    ensures r.Some? <==>
              && schema.Some? && validates && entities && SourcesOk(sources)
              && var policies := Policies(sources);
                 Linted(policies) && Distinct(policies, Whole)
                 && BaselineFree(policies, Workspace) && BaselineFree(policies, Repository)
    ensures r.Some? ==> r.value.hierarchy == schema.value && Loaded(r.value, Policies(sources))
  {
    if schema.None? {
      return None;
    }
    var parsed := ParseSources(sources);
    if parsed.None? {
      return None;
    }
    var policies := parsed.value;
    if !Linted(policies) {
      return None;
    }
    var merged := SetOf(policies, Whole);
    if merged.None? || !validates {
      return None;
    }
    forall selection: Selection ensures Distinct(policies, selection) {
      DistinctParts(policies, selection);
    }
    var authority := SetOf(policies, Authority);
    var workspace := Lower(policies, Workspace);
    if workspace.None? {
      return None;
    }
    var repository := Lower(policies, Repository);
    if repository.None? || !entities {
      return None;
    }
    var sliced := Slices(policies);
    var reasons := CollectReasons(policies);
    r := Some(Engine(schema.value, merged.value, authority.value, workspace.value, repository.value, sliced, reasons));
  }

  lemma DistinctParts(policies: seq<Scoped>, selection: Selection)
    requires Distinct(policies, Whole)
    ensures Distinct(policies, selection)
  {
    forall i, j | 0 <= i < j < |policies| && Selects(selection, policies[i]) && Selects(selection, policies[j])
      ensures policies[i].policy.id != policies[j].policy.id
    {
      assert Selects(Whole, policies[i]) && Selects(Whole, policies[j]);
    }
  }

  // ----------------------------------------------------------- the parts

  /** Membership in a part is membership in the merged set by a selected policy. */
  lemma PartOf(policies: seq<Scoped>, merged: PolicySet, part: PolicySet, selection: Selection, id: string)
    requires Holds(merged, policies, Whole) && Holds(part, policies, selection)
    ensures id in part ==> id in merged && merged[id] == part[id]
    ensures id in part ==> exists i :: 0 <= i < |policies| && Selects(selection, policies[i]) && policies[i].policy == merged[id]
  {
    if id in part {
      var i :| 0 <= i < |policies| && Selects(selection, policies[i]) && policies[i].policy.id == id && policies[i].policy == part[id];
      assert Selects(Whole, policies[i]);
    }
  }

  /** Every merged policy is in the authority set, the workspace set or the repository set, and a
      permit is in the authority set. */
  lemma PartsCover(e: Engine, policies: seq<Scoped>, id: string)
    requires Loaded(e, policies) && id in e.merged
    ensures (id in e.authority && e.authority[id] == e.merged[id])
            || (id in e.workspace && e.workspace[id] == e.merged[id] && id != Baseline(Workspace).id && e.merged[id].effect == Forbid)
            || (id in e.repository && e.repository[id] == e.merged[id] && id != Baseline(Repository).id && e.merged[id].effect == Forbid)
  {
    var i :| 0 <= i < |policies| && Selects(Whole, policies[i]) && policies[i].policy.id == id && policies[i].policy == e.merged[id];
    if !IsLower(policies[i].scope) {
      assert Selects(Authority, policies[i]);
    } else if policies[i].scope == Workspace {
      assert Selects(OfScope(Workspace), policies[i]);
      assert id in e.workspace - {Baseline(Workspace).id};
    } else {
      assert Selects(OfScope(Repository), policies[i]);
      assert id in e.repository - {Baseline(Repository).id};
    }
  }

  lemma LowerParts(e: Engine, policies: seq<Scoped>, lower: PolicySet, scope: Scope, id: string)
    requires Loaded(e, policies) && IsLower(scope) && HoldsWithBaseline(lower, policies, scope) && id in lower
    ensures (id == Baseline(scope).id && lower[id] == Baseline(scope))
            || (id in e.merged && e.merged[id] == lower[id] && lower[id].effect == Forbid)
  {
    var b := Baseline(scope).id;
    if id != b {
      PartOf(policies, e.merged, lower - {b}, OfScope(scope), id);
    }
  }

  /** A lower set's own verdict: its errors and its forbids, and the baseline as only permit. */
  lemma LowerVerdict(e: Engine, policies: seq<Scoped>, lower: PolicySet, scope: Scope, r: Request)
    requires Loaded(e, policies) && IsLower(scope) && HoldsWithBaseline(lower, policies, scope)
    ensures Satisfying(e.hierarchy, lower, r, Permit) == {Baseline(scope).id}
    ensures Erring(e.hierarchy, lower, r) <= Erring(e.hierarchy, e.merged, r)
    ensures Satisfying(e.hierarchy, lower, r, Forbid) <= Satisfying(e.hierarchy, e.merged, r, Forbid)
  {
    hide Loaded, Holds;
    forall id | id in lower
      ensures (id == Baseline(scope).id && lower[id] == Baseline(scope))
              || (id in e.merged && e.merged[id] == lower[id] && lower[id].effect == Forbid)
    {
      LowerParts(e, policies, lower, scope, id);
    }
  }

  lemma AuthorityVerdict(e: Engine, policies: seq<Scoped>, r: Request)
    requires Loaded(e, policies)
    ensures Erring(e.hierarchy, e.authority, r) <= Erring(e.hierarchy, e.merged, r)
    ensures Satisfying(e.hierarchy, e.authority, r, Forbid) <= Satisfying(e.hierarchy, e.merged, r, Forbid)
    ensures Satisfying(e.hierarchy, e.authority, r, Permit) <= Satisfying(e.hierarchy, e.merged, r, Permit)
  {
    forall id | id in e.authority ensures id in e.merged && e.merged[id] == e.authority[id] {
      PartOf(policies, e.merged, e.authority, Authority, id);
    }
  }

  /** The three parts together err, forbid and permit as the merged set does. */
  lemma PartsAgree(e: Engine, policies: seq<Scoped>, r: Request)
    requires Loaded(e, policies)
    ensures Erring(e.hierarchy, e.merged, r)
            == Erring(e.hierarchy, e.authority, r) + Erring(e.hierarchy, e.workspace, r) + Erring(e.hierarchy, e.repository, r)
    ensures Satisfying(e.hierarchy, e.merged, r, Forbid)
            == Satisfying(e.hierarchy, e.authority, r, Forbid) + Satisfying(e.hierarchy, e.workspace, r, Forbid)
               + Satisfying(e.hierarchy, e.repository, r, Forbid)
    ensures Satisfying(e.hierarchy, e.merged, r, Permit) == Satisfying(e.hierarchy, e.authority, r, Permit)
  {
    hide Loaded;
    AuthorityVerdict(e, policies, r);
    assert HoldsWithBaseline(e.workspace, policies, Workspace) && HoldsWithBaseline(e.repository, policies, Repository) by {
      LoadedLowers(e, policies);
    }
    LowerVerdict(e, policies, e.workspace, Workspace, r);
    LowerVerdict(e, policies, e.repository, Repository, r);
    hide HoldsWithBaseline;
    forall id | id in e.merged
      ensures (id in e.authority && e.authority[id] == e.merged[id])
              || (id in e.workspace && e.workspace[id] == e.merged[id] && e.merged[id].effect == Forbid)
              || (id in e.repository && e.repository[id] == e.merged[id] && e.merged[id].effect == Forbid)
    {
      PartsCover(e, policies, id);
    }
  }

  lemma LoadedLowers(e: Engine, policies: seq<Scoped>)
    requires Loaded(e, policies)
    ensures HoldsWithBaseline(e.workspace, policies, Workspace) && HoldsWithBaseline(e.repository, policies, Repository)
  {
  }

  // --------------------------------------------------------- main results

  /** The verdicts of one set, ready to compare. */
  function Verdict(errors: set<string>, permits: set<string>, forbids: set<string>, reasons: map<string, string>): Decision {
    if errors != {} then DenyError(PolicyError, errors)
    else
      var allow := forbids == {} && permits != {};
      var rules := set id | id in (if allow then permits else forbids) && !IsBaseline(id);
      if rules == {} && !allow then NO_PERMIT else Decision(allow, rules, Reasons(reasons, rules), None)
  }

  lemma EvaluateIsVerdict(e: Engine, r: Request, policies: PolicySet)
    ensures Evaluate(e, r, policies)
            == Verdict(Erring(e.hierarchy, policies, r), Satisfying(e.hierarchy, policies, r, Permit),
                       Satisfying(e.hierarchy, policies, r, Forbid), e.reasons)
  {
  }

  /** Conjoining verdicts is the verdict of the union, when the lower parts permit by baseline only. */
  lemma VerdictsConjoin(e1: set<string>, e2: set<string>, e3: set<string>, permits: set<string>,
                        f1: set<string>, f2: set<string>, f3: set<string>, reasons: map<string, string>)
    ensures Conjoin(Verdict(e1, permits, f1, reasons), Verdict(e2, {Baseline(Workspace).id}, f2, reasons),
                    Verdict(e3, {Baseline(Repository).id}, f3, reasons))
            == Verdict(e1 + e2 + e3, permits, f1 + f2 + f3, reasons)
  {
    var a := Verdict(e1, permits, f1, reasons);
    var w := Verdict(e2, {Baseline(Workspace).id}, f2, reasons);
    var p := Verdict(e3, {Baseline(Repository).id}, f3, reasons);
    if e1 + e2 + e3 == {} {
      assert e1 == e2 == e3 == {};
      if f1 + f2 + f3 == {} {
        assert f1 == f2 == f3 == {};
      } else {
        assert f1 != {} || f2 != {} || f3 != {};
        DenialsUnite(permits, f1, f2, f3, reasons);
      }
    }
  }

  lemma DenialsUnite(permits: set<string>, f1: set<string>, f2: set<string>, f3: set<string>, reasons: map<string, string>)
    requires f1 != {} || f2 != {} || f3 != {}
    ensures Conjoin(Verdict({}, permits, f1, reasons), Verdict({}, {Baseline(Workspace).id}, f2, reasons),
                    Verdict({}, {Baseline(Repository).id}, f3, reasons))
            == Verdict({}, permits, f1 + f2 + f3, reasons)
  {
    hide IsBaseline;
    var a := Verdict({}, permits, f1, reasons);
    var w := Verdict({}, {Baseline(Workspace).id}, f2, reasons);
    var p := Verdict({}, {Baseline(Repository).id}, f3, reasons);
    DenialRules(permits, f1, reasons);
    DenialRules({Baseline(Workspace).id}, f2, reasons);
    DenialRules({Baseline(Repository).id}, f3, reasons);
    DenialRules(permits, f1 + f2 + f3, reasons);
    assert Shown(f1 + f2 + f3) == Shown(f1) + Shown(f2) + Shown(f3);
    assert Reasons(reasons, Shown(f1 + f2 + f3)) == Reasons(reasons, Shown(f1)) + Reasons(reasons, Shown(f2)) + Reasons(reasons, Shown(f3));
  }

  function Shown(ids: set<string>): set<string> {
    set id | id in ids && !IsBaseline(id)
  }

  /** What a part without errors contributes to a denial. */
  lemma DenialRules(permits: set<string>, forbids: set<string>, reasons: map<string, string>)
    ensures var d := Verdict({}, permits, forbids, reasons);
            && RulesIf(d, Denying(d)) == Shown(forbids)
            && ReasonsIf(d, Denying(d)) == Reasons(reasons, Shown(forbids))
            && d.error.None? && (d.allow <==> forbids == {} && permits != {})
            && (!d.allow && !Denying(d) ==> d == NO_PERMIT)
            && (Denying(d) ==> d == Decision(false, Shown(forbids), Reasons(reasons, Shown(forbids)), None))
  {
    hide IsBaseline;
    if forbids == {} {
      assert Shown(forbids) == {};
    }
  }

  /** The conjunction of the three sets decides as the merged set does: the same verdict, rules,
      reasons and error, for every request. */
  lemma ConjunctionIsMerged(e: Engine, policies: seq<Scoped>, r: Request)
    requires Loaded(e, policies)
    ensures PatternA(e, r) == Evaluate(e, r, e.merged)
  {
    hide Loaded, Evaluate, Conjoin, Verdict, Erring, Satisfying;
    PartsAgree(e, policies, r);
    LoadedLowers(e, policies);
    LowerVerdict(e, policies, e.workspace, Workspace, r);
    LowerVerdict(e, policies, e.repository, Repository, r);
    EvaluateIsVerdict(e, r, e.merged);
    EvaluateIsVerdict(e, r, e.authority);
    EvaluateIsVerdict(e, r, e.workspace);
    EvaluateIsVerdict(e, r, e.repository);
    var h := e.hierarchy;
    VerdictsConjoin(Erring(h, e.authority, r), Erring(h, e.workspace, r), Erring(h, e.repository, r),
                    Satisfying(h, e.authority, r, Permit),
                    Satisfying(h, e.authority, r, Forbid), Satisfying(h, e.workspace, r, Forbid), Satisfying(h, e.repository, r, Forbid),
                    e.reasons);
  }

  /** The schema's action groups are the ones the slicing step expands. */
  predicate Expanded(h: Hierarchy) {
    forall pair :: pair in h && pair.0 in ACTIONS ==> pair.0 in Expansion(pair.1)
  }

  lemma AppliesIsRetained(h: Hierarchy, scope: ActionScope, action: string)
    requires Expanded(h) && action in ACTIONS && Applies(h, scope, action)
    ensures Retained(scope, action)
  {
    assert action != EXEC_ANY;
    assert action in Expansion(action);
    if scope.In? {
      var i :| 0 <= i < |scope.actions| && (scope.actions[i] == action || (action, scope.actions[i]) in h);
      if scope.actions[i] != action {
        assert (action, scope.actions[i]).0 in ACTIONS;
        assert action in Expansion(scope.actions[i]);
      }
    }
  }

  /** A slice errs, permits and forbids as the merged set does. */
  lemma SliceAgrees(e: Engine, policies: seq<Scoped>, r: Request)
    requires Loaded(e, policies) && Expanded(e.hierarchy) && r.action in ACTIONS
    ensures r.action in e.sliced
    ensures Erring(e.hierarchy, e.sliced[r.action], r) == Erring(e.hierarchy, e.merged, r)
    ensures forall effect :: Satisfying(e.hierarchy, e.sliced[r.action], r, effect) == Satisfying(e.hierarchy, e.merged, r, effect)
  {
    var slice := e.sliced[r.action];
    forall id | id in e.merged && OutcomeOf(e.hierarchy, e.merged[id], r) != Unsatisfied
      ensures id in slice && slice[id] == e.merged[id]
    {
      var i :| 0 <= i < |policies| && Selects(Whole, policies[i]) && policies[i].policy.id == id && policies[i].policy == e.merged[id];
      AppliesIsRetained(e.hierarchy, e.merged[id].actions, r.action);
      assert Selects(ForAction(r.action), policies[i]);
    }
    forall id | id in slice ensures id in e.merged && e.merged[id] == slice[id] {
      PartOf(policies, e.merged, slice, ForAction(r.action), id);
    }
  }

  /** All three ways of evaluating a loaded bundle give the same decision record for every request. */
  lemma PatternsAgree(e: Engine, policies: seq<Scoped>, r: Request, p: Pattern, q: Pattern)
    requires Loaded(e, policies) && Expanded(e.hierarchy)
    ensures Decide(e, r, p) == Decide(e, r, q)
  {
    hide Loaded, Evaluate, PatternA, Erring, Satisfying, Expanded;
    ConjunctionIsMerged(e, policies, r);
    if r.action in ACTIONS {
      SliceAgrees(e, policies, r);
      EvaluateIsVerdict(e, r, e.merged);
      EvaluateIsVerdict(e, r, e.sliced[r.action]);
    }
  }

  /** The schema in use is expanded by the slicing step. */
  lemma SchemaIsExpanded()
    ensures Expanded(SCHEMA)
  {
  }

  /** Slicing is exact for every bundle and request exactly when the schema's action groups are the
      ones it expands. */
  lemma SlicingIsExactIffExpanded(h: Hierarchy)
    ensures Expanded(h) <==>
              forall e, policies, r | Loaded(e, policies) && e.hierarchy == h :: Decide(e, r, Sliced) == Decide(e, r, Merged)
  {
    hide Loaded, Decide;
    if Expanded(h) {
      forall e, policies, r | Loaded(e, policies) && e.hierarchy == h ensures Decide(e, r, Sliced) == Decide(e, r, Merged) {
        PatternsAgree(e, policies, r, Sliced, Merged);
      }
    } else {
      var pair :| pair in h && pair.0 in ACTIONS && pair.0 !in Expansion(pair.1);
      var e, policies := GroupPermit(h, pair.1);
      var r := Request(pair.0, false, true, (c: nat) => Unsatisfied);
      GroupPermitDiffers(e, policies, h, pair, r);
    }
  }

  /** A bundle of one unconditional permit for an action group. */
  lemma GroupPermit(h: Hierarchy, group: string) returns (e: Engine, policies: seq<Scoped>)
    ensures e.hierarchy == h && Loaded(e, policies)
    ensures policies == [Scoped(Installation, Policy("p", Permit, In([group]), Unconditional, None))]
  {
    var p := Policy("p", Permit, In([group]), Unconditional, None);
    policies := [Scoped(Installation, p)];
    var whole: PolicySet := map["p" := p];
    var workspace: PolicySet := map[Baseline(Workspace).id := Baseline(Workspace)];
    var repository: PolicySet := map[Baseline(Repository).id := Baseline(Repository)];
    var sliced := map a | a in ACTIONS :: if Retained(In([group]), a) then whole else map[];
    e := Engine(h, whole, whole, workspace, repository, sliced, map[]);
    assert policies[0].policy == p;
    assert workspace - {Baseline(Workspace).id} == map[];
    assert repository - {Baseline(Repository).id} == map[];
    forall a | a in ACTIONS ensures Holds(sliced[a], policies, ForAction(a)) {
    }
  }

  lemma GroupPermitDiffers(e: Engine, policies: seq<Scoped>, h: Hierarchy, pair: (string, string), r: Request)
    requires e.hierarchy == h && Loaded(e, policies)
    requires policies == [Scoped(Installation, Policy("p", Permit, In([pair.1]), Unconditional, None))]
    requires pair in h && pair.0 in ACTIONS && pair.0 !in Expansion(pair.1)
    requires r.action == pair.0 && !r.tooLarge && r.wellFormed
    ensures Decide(e, r, Merged).allow && !Decide(e, r, Sliced).allow
  {
    var p := policies[0].policy;
    assert p.actions.actions[0] == pair.1;
    assert Applies(h, p.actions, r.action);
    assert Selects(Whole, policies[0]);
    assert e.merged == map["p" := p];
    assert !Selects(ForAction(r.action), policies[0]);
    assert e.sliced[r.action] == map[];
    assert "p" in Satisfying(h, e.merged, r, Permit);
    hide Loaded, Holds, IsBaseline;
    assert Satisfying(h, e.merged, r, Forbid) == {} && Erring(h, e.merged, r) == {};
    assert Satisfying(h, e.sliced[r.action], r, Permit) == {};
  }

  /** Lower scopes only restrict: whatever a bundle allows, its authority part allows with the same
      record. */
  lemma LowerScopesNeverWiden(e: Engine, policies: seq<Scoped>, r: Request)
    requires Loaded(e, policies) && Evaluate(e, r, e.merged).allow
    ensures Evaluate(e, r, e.authority) == Evaluate(e, r, e.merged)
  {
    hide Loaded, Erring, Satisfying;
    PartsAgree(e, policies, r);
    EvaluateIsVerdict(e, r, e.merged);
    EvaluateIsVerdict(e, r, e.authority);
  }

  /** Every policy of one bundle is in the other, wherever it stands there, and what else the other
      holds is of a lower scope. */
  ghost predicate Extends(wider: seq<Scoped>, policies: seq<Scoped>) {
    && (forall i :: 0 <= i < |policies| ==> policies[i] in wider)
    && (forall i :: 0 <= i < |wider| ==> wider[i] in policies || IsLower(wider[i].scope))
  }

  /** Adding lower-scope policies to a bundle, anywhere in it, never turns a denial into a permission. */
  lemma AddingLowerScopesNeverWidens(e: Engine, policies: seq<Scoped>, wider: Engine, all: seq<Scoped>, r: Request, p: Pattern)
    requires Loaded(e, policies) && Loaded(wider, all) && Extends(all, policies)
    requires e.hierarchy == wider.hierarchy && Expanded(e.hierarchy)
    ensures Decide(wider, r, p).allow ==> Decide(e, r, p).allow
  {
    hide Loaded, Evaluate, PatternA, Erring, Satisfying, Expanded, Extends;
    PatternsAgree(e, policies, r, p, Merged);
    PatternsAgree(wider, all, r, p, Merged);
    if Decide(wider, r, p).allow {
      WiderVerdict(e, policies, wider, all, r);
      EvaluateIsVerdict(e, r, e.merged);
      EvaluateIsVerdict(wider, r, wider.merged);
    }
  }

  /** A wider bundle holds every policy of the narrower one, and no other permit. */
  lemma WiderHolds(policies: seq<Scoped>, merged: PolicySet, all: seq<Scoped>, wider: PolicySet)
    requires Holds(merged, policies, Whole) && Holds(wider, all, Whole) && Linted(all) && Extends(all, policies)
    ensures forall id :: id in merged ==> id in wider && wider[id] == merged[id]
    ensures forall id :: id in wider && wider[id].effect == Permit ==> id in merged
  {
    forall id | id in merged ensures id in wider && wider[id] == merged[id] {
      var i :| 0 <= i < |policies| && Selects(Whole, policies[i]) && policies[i].policy.id == id && policies[i].policy == merged[id];
      var k :| 0 <= k < |all| && all[k] == policies[i];
      assert Selects(Whole, all[k]);
    }
    forall id | id in wider && wider[id].effect == Permit ensures id in merged {
      var i :| 0 <= i < |all| && Selects(Whole, all[i]) && all[i].policy.id == id && all[i].policy == wider[id];
      var k :| 0 <= k < |policies| && policies[k] == all[i];
      assert Selects(Whole, policies[k]);
    }
  }

  lemma WiderVerdict(e: Engine, policies: seq<Scoped>, wider: Engine, all: seq<Scoped>, r: Request)
    requires Loaded(e, policies) && Loaded(wider, all) && Extends(all, policies) && e.hierarchy == wider.hierarchy
    ensures Erring(e.hierarchy, e.merged, r) <= Erring(e.hierarchy, wider.merged, r)
    ensures Satisfying(e.hierarchy, e.merged, r, Forbid) <= Satisfying(e.hierarchy, wider.merged, r, Forbid)
    ensures Satisfying(e.hierarchy, e.merged, r, Permit) == Satisfying(e.hierarchy, wider.merged, r, Permit)
  {
    WiderHolds(policies, e.merged, all, wider.merged);
    hide Loaded, Holds, OutcomeOf, Extends;
  }

  /** The policy speaks to the request: its scope covers the action and its condition holds. */
  predicate Fires(h: Hierarchy, p: Policy, r: Request) {
    Applies(h, p.actions, r.action) && (p.body.When? ==> r.outcome(p.body.condition) == Satisfied)
  }

  /** Its condition cannot be evaluated. */
  predicate Breaks(h: Hierarchy, p: Policy, r: Request) {
    Applies(h, p.actions, r.action) && p.body.When? && r.outcome(p.body.condition) == Errs
  }

  /** Some policy of the bundle with this identity fires with this effect. */
  ghost predicate FiredAs(h: Hierarchy, policies: seq<Scoped>, r: Request, effect: Effect, id: string) {
    exists i :: 0 <= i < |policies| && policies[i].policy.id == id && policies[i].policy.effect == effect && Fires(h, policies[i].policy, r)
  }

  ghost predicate Broke(h: Hierarchy, policies: seq<Scoped>, r: Request, id: string) {
    exists i :: 0 <= i < |policies| && policies[i].policy.id == id && Breaks(h, policies[i].policy, r)
  }

  /** Some policy of the bundle among these rules gives this reason. */
  ghost predicate Explains(policies: seq<Scoped>, rules: set<string>, reason: string) {
    exists i :: 0 <= i < |policies| && policies[i].policy.id in rules && policies[i].policy.reason == Some(reason)
  }

  /** What the merged set makes of a request, from the policies it was loaded from. */
  lemma MergedVerdict(e: Engine, policies: seq<Scoped>, r: Request, id: string)
    requires Holds(e.merged, policies, Whole) && Distinct(policies, Whole)
    ensures id in Erring(e.hierarchy, e.merged, r) <==> Broke(e.hierarchy, policies, r, id)
    ensures id in Satisfying(e.hierarchy, e.merged, r, Permit) <==> FiredAs(e.hierarchy, policies, r, Permit, id)
    ensures id in Satisfying(e.hierarchy, e.merged, r, Forbid) <==> FiredAs(e.hierarchy, policies, r, Forbid, id)
  {
    if id in e.merged {
      var i :| 0 <= i < |policies| && Selects(Whole, policies[i]) && policies[i].policy.id == id && policies[i].policy == e.merged[id];
      hide Applies;
    }
    forall i | 0 <= i < |policies| && policies[i].policy.id == id ensures id in e.merged && e.merged[id] == policies[i].policy {
      assert Selects(Whole, policies[i]);
    }
    hide Applies, Holds, Distinct;
  }

  lemma ReasonsAreExplained(e: Engine, policies: seq<Scoped>, rules: set<string>, x: string)
    requires ReasonsOf(e.reasons, policies)
    ensures x in Reasons(e.reasons, rules) <==> Explains(policies, rules, x)
  {
    if x in Reasons(e.reasons, rules) {
      var id :| id in rules && id in e.reasons && e.reasons[id] == x;
      var i :| 0 <= i < |policies| && policies[i].policy.id == id && policies[i].policy.reason.Some?;
    }
  }

  /** A record says what happened, for every request. An oversized or malformed one is denied as such.
      Otherwise a policy that cannot be evaluated denies, and the record names exactly those. Otherwise
      the request is allowed exactly when some permit and no forbid fires; the record names exactly
      the permits, or the forbids, that fired, baselines left out, with exactly their reasons, or that
      nothing permitted it. */
  lemma RecordIsExact(e: Engine, policies: seq<Scoped>, r: Request, p: Pattern)
    requires Loaded(e, policies) && Expanded(e.hierarchy)
    ensures r.tooLarge ==> Decide(e, r, p) == Decision(false, {}, {"request_too_large"}, Some(RequestTooLarge))
    ensures !r.tooLarge && (r.action !in ACTIONS || !r.wellFormed) ==> Decide(e, r, p) == Decision(false, {}, {"request_invalid"}, Some(RequestInvalid))
    ensures !r.tooLarge && r.action in ACTIONS && r.wellFormed ==>
              var d, h := Decide(e, r, p), e.hierarchy;
              && (d.error.Some? <==> exists id :: Broke(h, policies, r, id))
              && (d.error.Some? ==>
                    && d.error == Some(PolicyError) && !d.allow && d.reasons == {"policy_error"}
                    && forall id :: id in d.rules <==> Broke(h, policies, r, id))
              && (d.error.None? ==>
                    && (d.allow <==> (exists id :: FiredAs(h, policies, r, Permit, id)) && !exists id :: FiredAs(h, policies, r, Forbid, id))
                    && (forall id :: id in d.rules <==>
                          FiredAs(h, policies, r, if d.allow then Permit else Forbid, id) && !("baseline." <= id))
                    && (if d.allow || d.rules != {} then forall x :: x in d.reasons <==> Explains(policies, d.rules, x)
                        else d.reasons == {"no_permit"}))
  {
    hide Evaluate, PatternA, Erring, Satisfying, Expanded, Broke, FiredAs, Explains, Holds, HoldsWithBaseline, Linted, Distinct, Reasons, ReasonsOf;
    PatternsAgree(e, policies, r, p, Merged);
    EvaluateIsVerdict(e, r, e.merged);
    forall id
      ensures id in Erring(e.hierarchy, e.merged, r) <==> Broke(e.hierarchy, policies, r, id)
      ensures id in Satisfying(e.hierarchy, e.merged, r, Permit) <==> FiredAs(e.hierarchy, policies, r, Permit, id)
      ensures id in Satisfying(e.hierarchy, e.merged, r, Forbid) <==> FiredAs(e.hierarchy, policies, r, Forbid, id)
    {
      MergedVerdict(e, policies, r, id);
    }
    forall x, rules: set<string> ensures x in Reasons(e.reasons, rules) <==> Explains(policies, rules, x) {
      ReasonsAreExplained(e, policies, rules, x);
    }
    var permits, forbids := Satisfying(e.hierarchy, e.merged, r, Permit), Satisfying(e.hierarchy, e.merged, r, Forbid);
    assert forall id :: id in permits <==> FiredAs(e.hierarchy, policies, r, Permit, id);
    assert forall id :: id in forbids <==> FiredAs(e.hierarchy, policies, r, Forbid, id);
    SomeMember(permits);
    SomeMember(forbids);
    SomeMember(Erring(e.hierarchy, e.merged, r));
  }

  lemma SomeMember(ids: set<string>)
    ensures ids != {} <==> exists id :: id in ids
  {
  }

  /** The lint is what makes this so: with an unlinted repository permit the merged set allows what
      the conjunction refuses. */
  lemma UnlintedPermitWidens() returns (e: Engine, policies: seq<Scoped>, r: Request)
    ensures !Linted(policies) && Distinct(policies, Whole)
    ensures Holds(e.merged, policies, Whole) && Holds(e.authority, policies, Authority)
    ensures HoldsWithBaseline(e.workspace, policies, Workspace) && HoldsWithBaseline(e.repository, policies, Repository)
    ensures Evaluate(e, r, e.merged).allow && !PatternA(e, r).allow
  {
    var p := Policy("p", Permit, AnyAction, Unconditional, None);
    policies := [Scoped(Repository, p)];
    var whole: PolicySet := map["p" := p];
    var workspace: PolicySet := map[Baseline(Workspace).id := Baseline(Workspace)];
    var repository: PolicySet := map[Baseline(Repository).id := Baseline(Repository), "p" := p];
    e := Engine(SCHEMA, whole, map[], workspace, repository, map[], map[]);
    r := Request("write", false, true, (c: nat) => Unsatisfied);
    assert policies[0].policy == p && IsLower(policies[0].scope);
    assert workspace - {Baseline(Workspace).id} == map[];
    assert repository - {Baseline(Repository).id} == whole;
    assert "p" in Satisfying(SCHEMA, whole, r, Permit);
    assert Satisfying(SCHEMA, whole, r, Forbid) == {} && Erring(SCHEMA, whole, r) == {};
    assert Satisfying(SCHEMA, e.authority, r, Permit) == {};
  }
}

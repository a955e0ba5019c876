/** Deciding what an operation may do: kill switches, then ordered rules, then the default; and enforcing the
    decision in one of three modes, with approval receipts for what needs a person's consent. */
module Governance {
  import opened Common
  import opened ApprovalReceipts

  // ---------- rows in database order ----------

  function Insert<T>(rows: seq<T>, x: T, ahead: (T, T) -> bool): (r: seq<T>)
    ensures |r| == |rows| + 1
  {
    if rows == [] then [x]
    else if ahead(x, rows[0]) then [x] + rows
    else [rows[0]] + Insert(rows[1..], x, ahead)
  }

  /** `ORDER BY`: sorted, rows that tie keeping the order they have in the table. */
  function Ordered<T>(rows: seq<T>, ahead: (T, T) -> bool): (r: seq<T>)
    ensures |r| == |rows|
  {
    if rows == [] then [] else Insert(Ordered(rows[..|rows| - 1], ahead), rows[|rows| - 1], ahead)
  }

  ghost predicate IsOrder<T(!new)>(ahead: (T, T) -> bool) {
    && (forall x :: !ahead(x, x))
    && forall x, y, z :: ahead(x, y) && ahead(y, z) ==> ahead(x, z)
  }

  predicate InOrder<T>(rows: seq<T>, ahead: (T, T) -> bool) {
    forall i, j | 0 <= i < j < |rows| :: !ahead(rows[j], rows[i])
  }

  lemma {:induction false} InsertMembers<T>(rows: seq<T>, x: T, ahead: (T, T) -> bool)
    ensures forall y :: y in Insert(rows, x, ahead) <==> y == x || y in rows
  {
    if rows != [] && !ahead(x, rows[0]) {
      InsertMembers(rows[1..], x, ahead);
      assert rows == [rows[0]] + rows[1..];
    }
  }

  lemma {:induction false} InsertKeepsOrder<T(!new)>(rows: seq<T>, x: T, ahead: (T, T) -> bool)
    requires IsOrder(ahead) && InOrder(rows, ahead)
    ensures InOrder(Insert(rows, x, ahead), ahead)
  {
    if rows == [] {
    } else if ahead(x, rows[0]) {
      forall y | y in rows
        ensures !ahead(y, x)
      {
        var i :| 0 <= i < |rows| && rows[i] == y;
        assert i > 0 ==> !ahead(rows[i], rows[0]);
      }
    } else {
      InsertKeepsOrder(rows[1..], x, ahead);
      InsertMembers(rows[1..], x, ahead);
      var rest := Insert(rows[1..], x, ahead);
      forall j | 0 <= j < |rest|
        ensures !ahead(rest[j], rows[0])
      {
        assert rest[j] in rest;
        if rest[j] != x {
          var i :| 0 <= i < |rows[1..]| && rows[1..][i] == rest[j];
          assert !ahead(rows[i + 1], rows[0]);
        }
      }
    }
  }

  lemma {:induction false} OrderedIsSorted<T(!new)>(rows: seq<T>, ahead: (T, T) -> bool)
    requires IsOrder(ahead)
    ensures InOrder(Ordered(rows, ahead), ahead)
    ensures forall y :: y in Ordered(rows, ahead) <==> y in rows
  {
    if rows != [] {
      var n := |rows| - 1;
      OrderedIsSorted(rows[..n], ahead);
      InsertKeepsOrder(Ordered(rows[..n], ahead), rows[n], ahead);
      InsertMembers(Ordered(rows[..n], ahead), rows[n], ahead);
      assert rows == rows[..n] + [rows[n]];
    }
  }

  // ---------- rules and kill switches ----------

  datatype Rule = Rule(
    id: nat, capability: string, subjectType: string, subjectId: string, actor: Option<string>, risk: string,
    effect: string, priority: int, status: string, created: int)

  datatype Switch = Switch(
    id: nat, scopeType: string, scopeId: string, status: string, expires: Option<int>, created: int)

  datatype Query = Query(
    capability: string, subjectType: string, subjectId: string, actor: Option<string>, risk: string)

  predicate Fits(field: string, value: string) {
    field == value || field == ""
  }

  predicate Matches(r: Rule, q: Query) {
    && r.status == "active"
    && Fits(r.capability, q.capability) && Fits(r.subjectType, q.subjectType)
    && Fits(r.subjectId, q.subjectId) && Fits(r.risk, q.risk)
    && (r.actor.None? || (q.actor.Some? && q.actor.value != NIL_UUID && r.actor == q.actor))
  }

  predicate RuleAhead(a: Rule, b: Rule) {
    a.priority < b.priority || (a.priority == b.priority && a.created < b.created)
  }

  predicate Live(s: Switch, now: int) {
    s.status == "active" && (s.expires.None? || s.expires.value > now)
  }

  /** What a switch is aimed at: everything, the subject's own id, the capability, or the acting user. */
  predicate AimedAt(s: Switch, q: Query) {
    || s.scopeType == "global"
    || ((s.scopeType == "plugin" || s.scopeType == "user" || s.scopeType == "server") && s.scopeId == q.subjectId)
    || (s.scopeType == "capability" && s.scopeId == q.capability)
    || (s.scopeType == "user" && q.actor == Some(s.scopeId))
  }

  predicate SwitchAhead(a: Switch, b: Switch) {
    a.created < b.created
  }

  function Filtered<T(!new)>(rows: seq<T>, keep: T -> bool): (r: seq<T>)
    ensures forall y :: y in r <==> y in rows && keep(y)
  {
    if rows == [] then []
    else
      var n := |rows| - 1;
      assert rows == rows[..n] + [rows[n]];
      Filtered(rows[..n], keep) + if keep(rows[n]) then [rows[n]] else []
  }

  function LiveSwitches(switches: seq<Switch>, now: int): seq<Switch> {
    Ordered(Filtered(switches, (s: Switch) => Live(s, now)), SwitchAhead)
  }

  function MatchingRules(rules: seq<Rule>, q: Query): seq<Rule> {
    Ordered(Filtered(rules, (r: Rule) => Matches(r, q)), RuleAhead)
  }

  function FirstAimed(switches: seq<Switch>, q: Query): Option<Switch> {
    if switches == [] then None
    else if AimedAt(switches[0], q) then Some(switches[0])
    else FirstAimed(switches[1..], q)
  }

  lemma {:induction false} FirstAimedAt(switches: seq<Switch>, q: Query, n: nat)
    requires n <= |switches| && forall i | 0 <= i < n :: !AimedAt(switches[i], q)
    ensures n < |switches| && AimedAt(switches[n], q) ==> FirstAimed(switches, q) == Some(switches[n])
    ensures n == |switches| ==> FirstAimed(switches, q) == None
  {
    if n > 0 {
      FirstAimedAt(switches[1..], q, n - 1);
    }
  }

  /** The oldest live switch aimed at the request is the one found, and one is found if there is any. */
  lemma {:induction false} FoundIffAimed(switches: seq<Switch>, q: Query)
    requires InOrder(switches, SwitchAhead)
    ensures var found := FirstAimed(switches, q);
            && (found.Some? <==> exists s :: s in switches && AimedAt(s, q))
            && (found.Some? ==>
                  && found.value in switches && AimedAt(found.value, q)
                  && forall s | s in switches && AimedAt(s, q) :: !SwitchAhead(s, found.value))
  {
    if switches != [] {
      assert switches == [switches[0]] + switches[1..];
      if AimedAt(switches[0], q) {
        forall s | s in switches && AimedAt(s, q)
          ensures !SwitchAhead(s, switches[0])
        {
          var i :| 0 <= i < |switches| && switches[i] == s;
          assert i > 0 ==> !SwitchAhead(switches[i], switches[0]);
        }
      } else {
        FoundIffAimed(switches[1..], q);
      }
    }
  }

  // ---------- evaluation ----------

  datatype Input = Input(
    actor: Option<string>, device: string, subjectType: string, subjectId: string, capability: string,
    risk: string, token: string, consumedBy: string)

  datatype Decision = Decision(query: Query, device: string, effect: string, rule: Option<nat>, killSwitch: Option<nat>)

  function OrDefault(value: string, default: string): string {
    if Blank(value) then default else Trim(value)
  }

  function QueryOf(i: Input): Query {
    Query(Trim(i.capability), Trim(i.subjectType), Trim(i.subjectId), i.actor, OrDefault(i.risk, "low"))
  }

  predicate ValidInput(i: Input) {
    !Blank(i.subjectType) && !Blank(i.capability)
  }

  function Decide(rules: seq<Rule>, switches: seq<Switch>, i: Input, now: int): Decision {
    var q := QueryOf(i);
    var aimed := FirstAimed(LiveSwitches(switches, now), q);
    var matching := MatchingRules(rules, q);
    if aimed.Some? then Decision(q, Trim(i.device), DENY, None, Some(aimed.value.id))
    else if matching == [] then Decision(q, Trim(i.device), ALLOW, None, None)
    else Decision(q, Trim(i.device), matching[0].effect, Some(matching[0].id), None)
  }

  /** A rule is about a request: it is active, and each field it sets is that of the request. */
  predicate Concerns(r: Rule, i: Input) {
    && r.status == "active"
    && r.capability in {"", Trim(i.capability)} && r.subjectType in {"", Trim(i.subjectType)}
    && r.subjectId in {"", Trim(i.subjectId)} && r.risk in {"", if Blank(i.risk) then "low" else Trim(i.risk)}
    && (r.actor.None? || (r.actor == i.actor && r.actor != Some(NIL_UUID)))
  }

  /** A switch stops a request: it is active, has not expired, and its scope takes the request in. */
  predicate Stops(s: Switch, i: Input, now: int) {
    && s.status == "active" && (s.expires.Some? ==> now < s.expires.value)
    && match s.scopeType
       case "global" => true
       case "plugin" => s.scopeId == Trim(i.subjectId)
       case "server" => s.scopeId == Trim(i.subjectId)
       case "user" => s.scopeId == Trim(i.subjectId) || i.actor == Some(s.scopeId)
       case "capability" => s.scopeId == Trim(i.capability)
       case _ => false
  }

  lemma StopsIff(s: Switch, i: Input, now: int)
    ensures Stops(s, i, now) <==> Live(s, now) && AimedAt(s, QueryOf(i))
  {
  }

  /** What a decision means: denied if any switch stops the request, by the oldest of them; otherwise the effect of the
      rule about it that has the least priority number and is the oldest of those; otherwise allowed. */
  lemma DecisionMeaning(rules: seq<Rule>, switches: seq<Switch>, i: Input, now: int)
    ensures var d := Decide(rules, switches, i, now);
            && d.device == Trim(i.device)
            && d.query == Query(Trim(i.capability), Trim(i.subjectType), Trim(i.subjectId), i.actor,
                                if Blank(i.risk) then "low" else Trim(i.risk))
            && (d.killSwitch.Some? <==> exists s :: s in switches && Stops(s, i, now))
            && (d.killSwitch.Some? ==>
                  && d.effect == "deny" && d.rule.None?
                  && exists s ::
                       && s in switches && Stops(s, i, now) && s.id == d.killSwitch.value
                       && forall other | other in switches && Stops(other, i, now) :: s.created <= other.created)
    ensures var d := Decide(rules, switches, i, now);
            d.killSwitch.None? ==>
              && (d.rule.Some? <==> exists r :: r in rules && Concerns(r, i))
              && (d.rule.None? ==> d.effect == "allow")
              && (d.rule.Some? ==> exists r ::
                    && r in rules && Concerns(r, i) && r.id == d.rule.value && r.effect == d.effect
                    && forall other | other in rules && Concerns(other, i) ::
                         r.priority < other.priority
                         || (r.priority == other.priority && r.created <= other.created))
  {
    var q := QueryOf(i);
    var live := LiveSwitches(switches, now);
    forall s
      ensures Stops(s, i, now) <==> Live(s, now) && AimedAt(s, q)
    {
      StopsIff(s, i, now);
    }
    OrderedIsSorted(Filtered(switches, (s: Switch) => Live(s, now)), SwitchAhead);
    FoundIffAimed(live, q);
    assert forall s :: s in live <==> s in switches && Live(s, now);
    FirstRule(rules, i);
  }

  lemma NoneBeforeFirst<T(!new)>(rows: seq<T>, ahead: (T, T) -> bool, x: T)
    requires IsOrder(ahead) && InOrder(rows, ahead) && x in rows
    ensures !ahead(x, rows[0])
  {
    var j :| 0 <= j < |rows| && rows[j] == x;
    assert j > 0 ==> !ahead(rows[j], rows[0]);
  }

  lemma MatchesIff(r: Rule, i: Input)
    ensures Matches(r, QueryOf(i)) <==> Concerns(r, i)
  {
  }

  lemma MatchingIsOrdered(rules: seq<Rule>, i: Input)
    ensures var sorted := MatchingRules(rules, QueryOf(i));
            && InOrder(sorted, RuleAhead)
            && forall r :: r in sorted <==> r in rules && Concerns(r, i)
  {
    var q := QueryOf(i);
    var matching := Filtered(rules, (r: Rule) => Matches(r, q));
    OrderedIsSorted(matching, RuleAhead);
    forall r
      ensures r in matching <==> r in rules && Concerns(r, i)
    {
      MatchesIff(r, i);
    }
  }

  /** The first of the matching rules. */
  lemma FirstRule(rules: seq<Rule>, i: Input)
    ensures var sorted := MatchingRules(rules, QueryOf(i));
            && (sorted != [] <==> exists r :: r in rules && Concerns(r, i))
            && (sorted != [] ==>
                  && sorted[0] in rules && Concerns(sorted[0], i)
                  && forall other | other in rules && Concerns(other, i) ::
                       sorted[0].priority < other.priority
                       || (sorted[0].priority == other.priority && sorted[0].created <= other.created))
  {
    var sorted := MatchingRules(rules, QueryOf(i));
    MatchingIsOrdered(rules, i);
    if sorted != [] {
      assert sorted[0] in sorted;
      forall other | other in rules && Concerns(other, i)
        ensures !RuleAhead(other, sorted[0])
      {
        NoneBeforeFirst(sorted, RuleAhead, other);
      }
    }
  }

  // ---------- enforcement ----------

  const DISABLED := "disabled"
  const OBSERVE := "observe"
  const ENFORCE := "enforce"

  /** Lower case, as far as it can matter here: outside ASCII only two letters have an ASCII lower case. */
  function Lower(c: char): char {
    if 'A' <= c <= 'Z' then (c as int + 32) as char
    else if c as int == 0x130 then 'i'
    else if c as int == 0x212A then 'k'
    else c
  }

  function ToLower(s: string): string {
    seq(|s|, i requires 0 <= i < |s| => Lower(s[i]))
  }

  function NormalMode(mode: string): string {
    var m := ToLower(Trim(mode));
    if m == DISABLED || m == OBSERVE || m == ENFORCE then m else ""
  }

  datatype Config = Config(mode: string, sage: string, objects: string, kb: string)

  function NormalConfig(c: Config): Config {
    var m := NormalMode(c.mode);
    Config(if m == "" then OBSERVE else m, NormalMode(c.sage), NormalMode(c.objects), NormalMode(c.kb))
  }

  function ModeFor(c: Config, subjectType: string): string {
    var t := Trim(subjectType);
    var own :=
      if t == "sage_plugin" || t == "sage_permission_grant" || t == "sage_invocation" then c.sage
      else if t == "object_operation" then c.objects
      else if t == "kb_operation" then c.kb
      else "";
    if own != "" then own else if c.mode != "" then c.mode else OBSERVE
  }

  /** The text spells the mode, in whatever case. */
  predicate Spells(text: string, mode: string) {
    mode in {"disabled", "observe", "enforce"} && ToLower(Trim(text)) == mode
  }

  /** The mode configured for what a request is about, if any. */
  function Configured(c: Config, kind: string): string {
    match kind
    case "sage_plugin" => c.sage
    case "sage_permission_grant" => c.sage
    case "sage_invocation" => c.sage
    case "object_operation" => c.objects
    case "kb_operation" => c.kb
    case _ => ""
  }

  lemma SpellsIff(text: string, mode: string)
    ensures Spells(text, mode) <==> NormalMode(text) == mode && mode != ""
  {
  }

  lemma ModeForIs(c: Config, subjectType: string)
    ensures ModeFor(c, subjectType)
         == var own := Configured(c, Trim(subjectType));
            if own != "" then own else if c.mode != "" then c.mode else OBSERVE
  {
  }

  lemma ConfiguredNormal(c: Config, kind: string)
    ensures Configured(NormalConfig(c), kind) == NormalMode(Configured(c, kind))
  {
    assert NormalMode("") == "";
  }

  /** The mode used is the one configured for the kind of subject, else the general one, else `observe`; a text that
      spells no mode counts as none. */
  lemma ModeMeaning(c: Config, subjectType: string)
    ensures var own, mode := Configured(c, Trim(subjectType)), ModeFor(NormalConfig(c), subjectType);
            || Spells(own, mode)
            || ((forall m :: !Spells(own, m))
                && (Spells(c.mode, mode) || ((forall m :: !Spells(c.mode, m)) && mode == "observe")))
  {
    var own, mode := Configured(c, Trim(subjectType)), ModeFor(NormalConfig(c), subjectType);
    ModeForIs(NormalConfig(c), subjectType);
    ConfiguredNormal(c, Trim(subjectType));
    SpellsIff(own, mode);
    SpellsIff(c.mode, mode);
    forall m
      ensures Spells(own, m) <==> NormalMode(own) == m && m != ""
      ensures Spells(c.mode, m) <==> NormalMode(c.mode) == m && m != ""
    {
      SpellsIff(own, m);
      SpellsIff(c.mode, m);
    }
  }

  /** Texts that differ in the case of ASCII letters alone spell the same mode. */
  lemma CaseIsIgnored(a: string, b: string)
    requires |a| == |b|
    requires forall i | 0 <= i < |a| ::
               || a[i] == b[i]
               || ('A' <= a[i] <= 'Z' && b[i] as int == a[i] as int + 32)
               || ('A' <= b[i] <= 'Z' && a[i] as int == b[i] as int + 32)
    ensures ToLower(a) == ToLower(b)
  {
  }

  /** However the modes are spelled in the configuration, the one used is one of the three. */
  lemma ModeIsKnown(c: Config, subjectType: string)
    ensures ModeFor(NormalConfig(c), subjectType) in {DISABLED, OBSERVE, ENFORCE}
  {
  }

  datatype Cause = InvalidInput | Denied | ApprovalRequired | ApprovalInvalid

  datatype Outcome = Outcome(
    allowed: bool, mode: string, wouldBlock: bool, decision: Option<Decision>,
    receipt: Option<nat>, issued: string, consumed: Option<nat>)

  datatype Reply = Reply(outcome: Option<Outcome>, error: Option<Cause>)

  datatype Tables = Tables(rules: seq<Rule>, switches: seq<Switch>, decisions: seq<Decision>, receipts: Receipts)

  /** What one call draws from outside: the clock (twice), and the id and token of a new receipt. */
  datatype Draw = Draw(now: int, later: int, receiptId: nat, token: string)

  function ConstraintsOf(i: Input): Constraints {
    Constraints(i.actor, Trim(i.subjectType), Trim(i.subjectId), Trim(i.capability))
  }

  /** The receipt asked for when a decision needs approval. */
  function OrderOf(i: Input, d: Decision, decisionId: nat, draw: Draw): Order
    requires i.actor.Some?
  {
    Order(decisionId, i.actor.value, i.subjectType, i.subjectId, i.capability, d.effect, Some(draw.later + 15 * MINUTE))
  }

  predicate NeedsApproval(d: Decision) {
    d.effect == USER_APPROVAL || d.effect == ADMIN_APPROVAL
  }

  predicate HasActor(i: Input) {
    i.actor.Some? && i.actor.value != NIL_UUID
  }

  /** The receipt a request gets that needs approval. */
  function ReceiptFor(t: Tables, i: Input, draw: Draw): Receipt
    requires HasActor(i)
  {
    Issued(OrderOf(i, Decide(t.rules, t.switches, i, draw.now), |t.decisions| + 1, draw), draw.token, draw.later)
  }

  function Consumer(i: Input): string {
    if !Blank(i.consumedBy) then Trim(i.consumedBy) else Trim(i.device)
  }

  ghost function Enforced(t: Tables, mode: string, i: Input, draw: Draw): (Tables, Reply) {
    if mode == DISABLED then (t, Reply(Some(Outcome(true, mode, false, None, None, "", None)), None))
    else if i.token != "" then EnforcedToken(t, mode, i, draw)
    else EnforcedPlain(t, mode, i, draw)
  }

  /** A call without token issues a receipt. */
  predicate IssuesReceipt(t: Tables, mode: string, i: Input, now: int) {
    ValidInput(i) && mode != OBSERVE && HasActor(i) && NeedsApproval(Decide(t.rules, t.switches, i, now))
  }

  ghost function EnforcedPlain(t: Tables, mode: string, i: Input, draw: Draw): (Tables, Reply) {
    if !ValidInput(i) then (t, Reply(None, Some(InvalidInput)))
    else
      var d := Decide(t.rules, t.switches, i, draw.now);
      var issues := IssuesReceipt(t, mode, i, draw.now);
      var after := t.(decisions := t.decisions + [d],
                      receipts := if issues then t.receipts[draw.receiptId := ReceiptFor(t, i, draw)] else t.receipts);
      var pass := mode == OBSERVE || d.effect == ALLOW;
      (after,
       Reply(Some(Outcome(pass, mode, d.effect != ALLOW, Some(d), if issues then Some(draw.receiptId) else None,
                          if issues then draw.token else "", None)),
             if pass then None else Some(if NeedsApproval(d) then ApprovalRequired else Denied)))
  }

  ghost function EnforcedToken(t: Tables, mode: string, i: Input, draw: Draw): (Tables, Reply) {
    var after := t.(receipts := AfterConsume(t.receipts, i.token, Consumer(i), draw.now, ConstraintsOf(i)));
    if Accepted(t.receipts, i.token, draw.now, ConstraintsOf(i))
    then (after, Reply(Some(Outcome(true, mode, false, None, None, "", Holder(t.receipts, TokenHash(i.token)))), None))
    else
      var out := Outcome(mode == OBSERVE, mode, true, None, None, "", None);
      (after, Reply(Some(out), if mode == OBSERVE then None else Some(ApprovalInvalid)))
  }

  class Enforcer {
    const config: Config
    const receipts: ReceiptTable
    var rules: seq<Rule>
    var switches: seq<Switch>
    var decisions: seq<Decision>

    function View(): Tables
      reads this, receipts
    {
      Tables(rules, switches, decisions, receipts.receipts)
    }

    constructor (config: Config, receipts: ReceiptTable, rules: seq<Rule>, switches: seq<Switch>)
      ensures this.config == NormalConfig(config) && this.receipts == receipts
      ensures View() == Tables(rules, switches, [], receipts.receipts)
    {
      this.config := NormalConfig(config);
      this.receipts := receipts;
      this.rules, this.switches, this.decisions := rules, switches, [];
    }

    method FindActiveKillSwitch(q: Query, now: int) returns (found: Option<Switch>)
      ensures found == FirstAimed(LiveSwitches(switches, now), q)
    {
      var live := LiveSwitches(switches, now);
      for n := 0 to |live|
        invariant forall i | 0 <= i < n :: !AimedAt(live[i], q)
      {
        var sw := live[n];
        FirstAimedAt(live, q, n);
        match sw.scopeType {
          case "global" => return Some(sw);
          case "plugin" => if sw.scopeId == q.subjectId { return Some(sw); }
          case "user" => if sw.scopeId == q.subjectId { return Some(sw); }
          case "server" => if sw.scopeId == q.subjectId { return Some(sw); }
          case "capability" => if sw.scopeId == q.capability { return Some(sw); }
          case _ =>
        }
        if q.actor.Some? && sw.scopeType == "user" && sw.scopeId == q.actor.value {
          return Some(sw);
        }
      }
      FirstAimedAt(live, q, |live|);
      found := None;
    }

    /** Decides and records the decision. */
    method Evaluate(i: Input, now: int) returns (d: Option<Decision>)
      modifies this`decisions
      ensures d == if ValidInput(i) then Some(Decide(rules, switches, i, now)) else None
      ensures decisions == if d.Some? then old(decisions) + [d.value] else old(decisions)
    {
      var q := Query(Trim(i.capability), Trim(i.subjectType), Trim(i.subjectId), i.actor, OrDefault(i.risk, "low"));
      if q.subjectType == "" || q.capability == "" {
        return None;
      }
      var sw := FindActiveKillSwitch(q, now);
      var made: Decision;
      if sw.Some? {
        made := Decision(q, Trim(i.device), DENY, None, Some(sw.value.id));
      } else {
        var matching := MatchingRules(rules, q);
        if |matching| == 0 {
          made := Decision(q, Trim(i.device), ALLOW, None, None);
        } else {
          made := Decision(q, Trim(i.device), matching[0].effect, Some(matching[0].id), None);
        }
      }
      decisions := decisions + [made];
      d := Some(made);
    }

    /** A request that comes with a token. */
    method EnforceByToken(mode: string, i: Input, draw: Draw) returns (reply: Reply)
      requires Unique(receipts.receipts)
      modifies receipts
      ensures (View(), reply) == EnforcedToken(old(View()), mode, i, draw)
    {
      var consumer := Trim(i.consumedBy);
      if consumer == "" {
        consumer := Trim(i.device);
      }
      var used := receipts.ConsumeForOperation(i.token, consumer, draw.now, ConstraintsOf(i));
      if used.None? {
        if mode == OBSERVE {
          return Reply(Some(Outcome(true, mode, true, None, None, "", None)), None);
        }
        return Reply(Some(Outcome(false, mode, true, None, None, "", None)), Some(ApprovalInvalid));
      }
      reply := Reply(Some(Outcome(true, mode, false, None, None, "", used)), None);
    }

    /** Enforcing a decision that does not allow. */
    method Refuse(mode: string, i: Input, d: Decision, draw: Draw) returns (reply: Reply)
      requires ValidInput(i) && decisions != []
      requires draw.receiptId !in receipts.receipts
      requires forall id | id in receipts.receipts :: receipts.receipts[id].tokenHash != TokenHash(draw.token)
      modifies receipts
      ensures var issues := HasActor(i) && NeedsApproval(d);
              && receipts.receipts == (if issues
                   then old(receipts.receipts)[draw.receiptId :=
                          Issued(OrderOf(i, d, |decisions|, draw), draw.token, draw.later)]
                   else old(receipts.receipts))
              && reply == Reply(Some(Outcome(false, mode, true, Some(d), if issues then Some(draw.receiptId) else None,
                                             if issues then draw.token else "", None)),
                                Some(if NeedsApproval(d) then ApprovalRequired else Denied))
    {
      var block := Outcome(false, mode, true, Some(d), None, "", None);
      if d.effect == USER_APPROVAL || d.effect == ADMIN_APPROVAL {
        if i.actor.Some? && i.actor.value != NIL_UUID {
          var created := receipts.CreateApprovalReceipt(
            OrderOf(i, d, |decisions|, draw), draw.receiptId, draw.token, draw.later);
          if !created {
            return Reply(None, Some(InvalidInput));
          }
          block := block.(receipt := Some(draw.receiptId), issued := draw.token);
        }
        return Reply(Some(block), Some(ApprovalRequired));
      }
      reply := Reply(Some(block), Some(Denied));
    }

    /** A request that comes without token. */
    method EnforceByDecision(mode: string, i: Input, draw: Draw) returns (reply: Reply)
      requires draw.receiptId !in receipts.receipts
      requires forall id | id in receipts.receipts :: receipts.receipts[id].tokenHash != TokenHash(draw.token)
      modifies this`decisions, receipts
      ensures (View(), reply) == EnforcedPlain(old(View()), mode, i, draw)
    {
      var decided := Evaluate(i, draw.now);
      if decided.None? {
        return Reply(None, Some(InvalidInput));
      }
      var d := decided.value;
      if mode == OBSERVE {
        return Reply(Some(Outcome(true, mode, d.effect != ALLOW, Some(d), None, "", None)), None);
      }
      if d.effect == ALLOW {
        return Reply(Some(Outcome(true, mode, false, Some(d), None, "", None)), None);
      }
      reply := Refuse(mode, i, d, draw);
    }

    method Enforce(i: Input, draw: Draw) returns (reply: Reply)
      requires Unique(receipts.receipts)
      requires draw.receiptId !in receipts.receipts
      requires forall id | id in receipts.receipts :: receipts.receipts[id].tokenHash != TokenHash(draw.token)
      modifies this`decisions, receipts
      ensures (View(), reply) == Enforced(old(View()), ModeFor(config, i.subjectType), i, draw)
    {
      var mode := ModeFor(config, i.subjectType);
      if mode == DISABLED {
        return Reply(Some(Outcome(true, mode, false, None, None, "", None)), None);
      }
      if i.token != "" {
        reply := EnforceByToken(mode, i, draw);
      } else {
        reply := EnforceByDecision(mode, i, draw);
      }
    }
  }

  // ---------- what enforcement promises ----------

  ghost predicate Passes(t: Tables, i: Input, now: int) {
    if i.token != "" then Accepted(t.receipts, i.token, now, ConstraintsOf(i))
    else ValidInput(i) && Decide(t.rules, t.switches, i, now).effect == ALLOW
  }

  /** Enforcing lets a request through exactly on an allowing decision or a consumed matching receipt, and reports
      an error exactly when it does not. */
  lemma EnforceMeaning(t: Tables, i: Input, draw: Draw)
    ensures var reply := Enforced(t, ENFORCE, i, draw).1;
            && (reply.error.None? <==> Passes(t, i, draw.now))
            && (reply.outcome.Some? && reply.outcome.value.allowed <==> Passes(t, i, draw.now))
  {
  }

  /** The answers one by one. */
  lemma EnforceAnswers(t: Tables, mode: string, i: Input, draw: Draw)
    requires mode in {"observe", "enforce"}
    ensures var reply := Enforced(t, mode, i, draw).1;
            var plain := i.token == "" && !Blank(i.subjectType) && !Blank(i.capability);
            var effect := Decide(t.rules, t.switches, i, draw.now).effect;
            var approval := effect in {"require_user_approval", "require_admin_approval"};
            && (reply.error == Some(InvalidInput) <==> i.token == "" && !plain)
            && (reply.error == Some(ApprovalInvalid)
                <==> mode == "enforce" && i.token != "" && !Passes(t, i, draw.now))
            && (reply.error == Some(ApprovalRequired) <==> mode == "enforce" && plain && approval)
            && (reply.error == Some(Denied) <==> mode == "enforce" && plain && !approval && effect != "allow")
  {
    assert |DISABLED| == 8 && |OBSERVE| == |ENFORCE| == 7;
  }

  /** What a call leaves behind: the decision it made, and a receipt exactly where approval is to be sought. */
  lemma EnforceRecords(t: Tables, mode: string, i: Input, draw: Draw)
    requires mode in {"observe", "enforce"}
    ensures var (after, reply) := Enforced(t, mode, i, draw);
            var d := Decide(t.rules, t.switches, i, draw.now);
            var plain := i.token == "" && !Blank(i.subjectType) && !Blank(i.capability);
            && after.decisions == (if plain then t.decisions + [d] else t.decisions)
            && (plain ==> reply.outcome.Some? && reply.outcome.value.decision == Some(d))
            && (draw.receiptId !in t.receipts ==>
                  (draw.receiptId in after.receipts
                   <==> reply.error == Some(ApprovalRequired) && i.actor !in {None, Some(NIL_UUID)}))
  {
    assert |DISABLED| == 8 && |OBSERVE| == |ENFORCE| == 7;
    assert HasActor(i) <==> i.actor !in {None, Some(NIL_UUID)};
  }

  /** What the answer reports: the mode, a receipt and its token where approval is to be sought, and the receipt used up
      where a token was accepted. */
  lemma EnforceReports(t: Tables, mode: string, i: Input, draw: Draw)
    requires mode in {"observe", "enforce"}
    ensures var reply := Enforced(t, mode, i, draw).1;
            var asks := reply.error == Some(ApprovalRequired) && i.actor !in {None, Some(NIL_UUID)};
            reply.outcome.Some? ==>
              && reply.outcome.value.mode == mode
              && reply.outcome.value.receipt == (if asks then Some(draw.receiptId) else None)
              && reply.outcome.value.issued == (if asks then draw.token else "")
              && reply.outcome.value.consumed
                 == if i.token != "" && Passes(t, i, draw.now) then Holder(t.receipts, TokenHash(i.token)) else None
  {
    assert |DISABLED| == 8 && |OBSERVE| == |ENFORCE| == 7;
    assert HasActor(i) <==> i.actor !in {None, Some(NIL_UUID)};
    if i.token == "" && ValidInput(i) {
      var d := Decide(t.rules, t.switches, i, draw.now);
      assert IssuesReceipt(t, mode, i, draw.now) <==> mode != OBSERVE && HasActor(i) && NeedsApproval(d);
    }
  }

  /** A disabled enforcer lets everything through and leaves no trace. */
  lemma DisabledPasses(t: Tables, i: Input, draw: Draw)
    ensures Enforced(t, "disabled", i, draw)
         == (t, Reply(Some(Outcome(true, "disabled", false, None, None, "", None)), None))
  {
  }

  /** A request with a token passes exactly if the token is that of a pending, unexpired receipt for the request's
      actor, subject and capability, wherever it names them. */
  lemma TokenPassesIff(t: Tables, i: Input, now: int)
    requires i.token != "" && Unique(t.receipts)
    ensures Passes(t, i, now) <==>
      !Blank(i.token)
      && exists id :: id in t.receipts
           && var r := t.receipts[id];
              && r.tokenHash == TokenHash(i.token) && r.status == ReceiptStatus.Pending && r.expires > now
              && i.actor in {None, Some(NIL_UUID), Some(r.actor)} && Trim(i.subjectType) in {"", r.subjectType}
              && Trim(i.subjectId) in {"", r.subjectId} && Trim(i.capability) in {"", r.capability}
  {
    AcceptedIff(t.receipts, i.token, now, ConstraintsOf(i));
  }

  /** In every mode a call changes at most one existing receipt, and that only from pending to consumed by a
      request that passes; rules and switches it never changes. */
  lemma EnforceTouchesOneReceipt(t: Tables, mode: string, i: Input, draw: Draw, id: nat)
    requires draw.receiptId !in t.receipts && id in t.receipts
    ensures var (after, reply) := Enforced(t, mode, i, draw);
            && after.rules == t.rules && after.switches == t.switches
            && id in after.receipts
            && (after.receipts[id] == t.receipts[id]
                || (Passes(t, i, draw.now) && reply.outcome.value.consumed == Some(id)
                    && t.receipts[id].status.Pending? && after.receipts[id].status.Consumed?))
  {
    if i.token != "" {
      ConsumeTouchesOne(t.receipts, i.token, Consumer(i), draw.now, ConstraintsOf(i), id);
    } else {
      PlainReceipts(t, mode, i, draw);
    }
  }

  lemma PlainReceipts(t: Tables, mode: string, i: Input, draw: Draw)
    ensures var after := EnforcedPlain(t, mode, i, draw).0;
            && after.rules == t.rules && after.switches == t.switches
            && after.receipts == if IssuesReceipt(t, mode, i, draw.now)
                                 then t.receipts[draw.receiptId := ReceiptFor(t, i, draw)] else t.receipts
  {
  }

  lemma ConsumeTouchesOne(
      receipts: Receipts, token: string, consumer: string, now: int, c: Constraints, id: nat)
    requires id in receipts
    ensures var after := AfterConsume(receipts, token, consumer, now, c);
            && id in after
            && (after[id] == receipts[id]
                || (Accepted(receipts, token, now, c) && Holder(receipts, TokenHash(token)) == Some(id)
                    && receipts[id].status.Pending? && after[id].status.Consumed?))
  {
  }

  /** Observing never blocks, and says of every valid request whether enforcing would have blocked it. */
  lemma ObserveForesees(t: Tables, i: Input, draw: Draw, draw': Draw)
    requires draw.now == draw'.now
    ensures var seen := Enforced(t, OBSERVE, i, draw).1;
            var acted := Enforced(t, ENFORCE, i, draw').1;
            && seen.outcome.Some? == acted.outcome.Some? == (i.token != "" || ValidInput(i))
            && (seen.outcome.Some? ==>
                  && seen.error.None? && seen.outcome.value.allowed
                  && seen.outcome.value.wouldBlock == !acted.outcome.value.allowed
                  && seen.outcome.value.decision == acted.outcome.value.decision
                  && seen.outcome.value.consumed == acted.outcome.value.consumed)
            && (seen.outcome.None? ==> seen.error == acted.error == Some(InvalidInput))
  {
  }

  /** A switch that stops a request blocks it, whatever the rules say; only an approval token gets past it. */
  lemma SwitchBlocks(t: Tables, i: Input, draw: Draw, s: Switch)
    requires s in t.switches && Stops(s, i, draw.now) && i.token == "" && ValidInput(i)
    ensures var reply := Enforced(t, ENFORCE, i, draw).1;
            reply.error == Some(Denied) && !reply.outcome.value.allowed
  {
    DecisionMeaning(t.rules, t.switches, i, draw.now);
  }

  predicate AsksForApproval(r: Reply, token: string) {
    r.error == Some(ApprovalRequired) && r.outcome.Some? && !r.outcome.value.allowed && r.outcome.value.issued == token
  }

  predicate PassesOn(r: Reply, receipt: nat) {
    r.error.None? && r.outcome.Some? && r.outcome.value.allowed && r.outcome.value.consumed == Some(receipt)
  }

  predicate RefusesToken(r: Reply) {
    r.error == Some(ApprovalInvalid) && r.outcome.Some? && !r.outcome.value.allowed
  }

  lemma NoSpaceInEffects()
    ensures NormalDecision(USER_APPROVAL) == USER_APPROVAL && NormalDecision(ADMIN_APPROVAL) == ADMIN_APPROVAL
  {
    TrimUnique(USER_APPROVAL, 0, |USER_APPROVAL|);
    TrimUnique(ADMIN_APPROVAL, 0, |ADMIN_APPROVAL|);
  }

  /** The receipt a request gets is for itself and good for 15 minutes. */
  lemma ReceiptMeaning(t: Tables, i: Input, draw: Draw)
    requires HasActor(i) && NeedsApproval(Decide(t.rules, t.switches, i, draw.now))
    ensures ReceiptFor(t, i, draw)
         == Receipt(|t.decisions| + 1, i.actor.value, Trim(i.subjectType), Trim(i.subjectId), Trim(i.capability),
                    Decide(t.rules, t.switches, i, draw.now).effect, TokenHash(draw.token), ReceiptStatus.Pending,
                    draw.later + 900_000_000_000, None, "")
  {
    NoSpaceInEffects();
  }

  /** A request that needs approval is refused, and its receipt goes out with the token. */
  lemma ApprovalIsIssued(t: Tables, i: Input, draw: Draw)
    requires i.token == "" && ValidInput(i) && HasActor(i)
    requires NeedsApproval(Decide(t.rules, t.switches, i, draw.now))
    ensures var (after, reply) := Enforced(t, ENFORCE, i, draw);
            && AsksForApproval(reply, draw.token)
            && after.receipts == t.receipts[draw.receiptId := ReceiptFor(t, i, draw)]
  {
  }

  /** A token whose receipt is for the request passes, and then no more. */
  lemma TokenPassesOnce(t: Tables, i: Input, draw: Draw, third: Draw, id: nat)
    requires Unique(t.receipts) && id in t.receipts && t.receipts[id].tokenHash == TokenHash(i.token)
    requires !Blank(i.token) && i.token != "" && Consumable(t.receipts[id], draw.now, ConstraintsOf(i))
    ensures var (after, reply) := Enforced(t, ENFORCE, i, draw);
            && PassesOn(reply, id) && RefusesToken(Enforced(after, ENFORCE, i, third).1)
            && after == t.(receipts := t.receipts[id := t.receipts[id].(
                             status := Consumed, consumedAt := Some(draw.now),
                             consumedBy := if Blank(i.consumedBy) then Trim(i.device) else Trim(i.consumedBy))])
  {
    var h := TokenHash(i.token);
    assert Holder(t.receipts, h) == Some(id);
    var after := EnforcedToken(t, ENFORCE, i, draw).0;
    assert Holder(after.receipts, h) == Some(id) by {
      assert after.receipts[id].tokenHash == h;
    }
  }

  /** Asking for approval and coming back in time with the token: the request passes once, and only once. `other` is
      whatever the tables hold by then, as long as that receipt is untouched. */
  lemma ApprovalRoundTrip(t: Tables, i: Input, draw: Draw, again: Draw, third: Draw, other: Tables)
    requires i.token == "" && ValidInput(i) && HasActor(i) && !Blank(draw.token)
    requires NeedsApproval(Decide(t.rules, t.switches, i, draw.now))
    requires again.now < draw.later + 15 * MINUTE
    requires Unique(other.receipts) && draw.receiptId in other.receipts
    requires other.receipts[draw.receiptId] == ReceiptFor(t, i, draw)
    ensures AsksForApproval(Enforced(t, ENFORCE, i, draw).1, draw.token)
    ensures var (after, second) := Enforced(other, ENFORCE, i.(token := draw.token), again);
            && PassesOn(second, draw.receiptId)
            && RefusesToken(Enforced(after, ENFORCE, i.(token := draw.token), third).1)
  {
    ApprovalIsIssued(t, i, draw);
    TokenPassesOnce(other, i.(token := draw.token), again, third, draw.receiptId);
  }

  // ---------- enforcement as part of the receipts' life ----------

  /** The step of the receipts' life that a call amounts to, if it touches receipts at all. */
  function ReceiptStep(t: Tables, mode: string, i: Input, draw: Draw): Option<Step> {
    if mode == DISABLED then None
    else if i.token != "" then Some(Consume(i.token, Consumer(i), draw.now, ConstraintsOf(i)))
    else if IssuesReceipt(t, mode, i, draw.now) then Some(Create(draw.receiptId, ReceiptFor(t, i, draw)))
    else None
  }

  /** The id and token drawn are new. */
  predicate FreshDraw(s: State, draw: Draw) {
    draw.receiptId !in s.receipts && !Blank(draw.token) && draw.token !in s.issuedTo
  }

  lemma EnforceIsAReceiptStep(s: State, t: Tables, mode: string, i: Input, draw: Draw)
    requires s.receipts == t.receipts && FreshDraw(s, draw)
    ensures var step := ReceiptStep(t, mode, i, draw);
            var after := Enforced(t, mode, i, draw).0.receipts;
            if step.None? then after == s.receipts
            else Enabled(s, step.value) && Next(s, step.value).receipts == after
  {
    PlainReceipts(t, mode, i, draw);
  }

  datatype EnforceCall = EnforceCall(mode: string, i: Input, draw: Draw)

  ghost function AfterCalls(t: Tables, calls: seq<EnforceCall>): Tables
    decreases |calls|
  {
    if calls == [] then t
    else AfterCalls(Enforced(t, calls[0].mode, calls[0].i, calls[0].draw).0, calls[1..])
  }

  ghost function StateAfter(s: State, step: Option<Step>): State {
    if step.None? then s else Next(s, step.value)
  }

  /** Every call of the run draws what is new by then. */
  ghost predicate FreshRun(s: State, t: Tables, calls: seq<EnforceCall>)
    decreases |calls|
  {
    calls != [] ==>
      var c := calls[0];
      FreshDraw(s, c.draw)
      && FreshRun(StateAfter(s, ReceiptStep(t, c.mode, c.i, c.draw)), Enforced(t, c.mode, c.i, c.draw).0, calls[1..])
  }

  /** Any run of enforced requests, in whatever modes, is a run of the receipts' life: all its theorems hold of it. */
  lemma {:induction false} EnforcementsAreARun(s: State, t: Tables, calls: seq<EnforceCall>) returns (steps: seq<Step>)
    requires s.receipts == t.receipts && FreshRun(s, t, calls)
    ensures Schedule(s, steps) && After(s, steps).receipts == AfterCalls(t, calls).receipts
    decreases |calls|
  {
    steps := [];
    if calls != [] {
      var c := calls[0];
      var step := ReceiptStep(t, c.mode, c.i, c.draw);
      EnforceIsAReceiptStep(s, t, c.mode, c.i, c.draw);
      steps := EnforcementsAreARun(StateAfter(s, step), Enforced(t, c.mode, c.i, c.draw).0, calls[1..]);
      if step.Some? {
        assert ([step.value] + steps)[1..] == steps;
        steps := [step.value] + steps;
      }
    }
  }

  /** Once a token has let a request through, no later request passes on it, whatever is enforced in between. */
  lemma TokenPassesOnceInAnyRun(s: State, t: Tables, c: EnforceCall, calls: seq<EnforceCall>, again: Input, now: int)
    requires Inv(s) && s.receipts == t.receipts && c.mode != DISABLED && c.i.token != "" && FreshDraw(s, c.draw)
    requires Passes(t, c.i, c.draw.now) && again.token == c.i.token
    requires var step := ReceiptStep(t, c.mode, c.i, c.draw);
             FreshRun(StateAfter(s, step), Enforced(t, c.mode, c.i, c.draw).0, calls)
    ensures !Passes(AfterCalls(Enforced(t, c.mode, c.i, c.draw).0, calls), again, now)
  {
    var step := ReceiptStep(t, c.mode, c.i, c.draw).value;
    var t1 := Enforced(t, c.mode, c.i, c.draw).0;
    EnforceIsAReceiptStep(s, t, c.mode, c.i, c.draw);
    ConsumeKeeps(s, step);
    var steps := EnforcementsAreARun(Next(s, step), t1, calls);
    DeadForever(Next(s, step), steps, c.i.token);
    DeadIsRefused(After(Next(s, step), steps), c.i.token, now, ConstraintsOf(again));
  }
}

/** The catalogue's document rules, checked twice: against a request and against what is stored. */
module Requirements {
  import opened Wrappers
  import opened Documents
  import opened DocumentHistory

  datatype Rule = Rule(code: string, mode: string, group: Option<string>, minRequired: int)

  datatype Group = Group(minimum: int, codes: set<string>)

  datatype Submission = Submission(kind: string, number: Option<string>, uploadId: Option<string>)

  datatype FieldError = FieldError(field: string, code: string)

  function GroupOf(r: Rule): string {
    if r.group.Some? && r.group.value != "" then r.group.value else "DEFAULT"
  }

  function MinimumOf(r: Rule): int {
    if r.minRequired == 0 then 1 else r.minRequired
  }

  predicate AnyOf(r: Rule) {
    r.mode == "ANY_OF"
  }

  function Codes(rules: seq<Rule>): set<string> {
    set r | r in rules :: r.code
  }

  function Required(rules: seq<Rule>): set<string> {
    set r | r in rules && r.mode == "REQUIRED" :: r.code
  }

  function GroupCodes(rules: seq<Rule>, group: string): set<string> {
    set r | r in rules && AnyOf(r) && GroupOf(r) == group :: r.code
  }

  function GroupNames(rules: seq<Rule>): set<string> {
    set r | r in rules && AnyOf(r) :: GroupOf(r)
  }

  /** What the rules mean: every required type is there, and of each group at least as many types as
      any of its rules asks for. */
  ghost predicate Meets(rules: seq<Rule>, have: set<string>) {
    && Required(rules) <= have
    && forall r :: r in rules && AnyOf(r) ==> |GroupCodes(rules, GroupOf(r)) * have| >= MinimumOf(r)
  }

  /** Some rule of the group asks for exactly this many. */
  ghost predicate HasMinimum(rules: seq<Rule>, g: string, minimum: int) {
    exists r :: r in rules && AnyOf(r) && GroupOf(r) == g && MinimumOf(r) == minimum
  }

  /** The dictionary of groups: all the codes of a group, and the largest minimum among its rules. */
  ghost predicate AreGroups(rules: seq<Rule>, groups: map<string, Group>) {
    && groups.Keys == GroupNames(rules)
    && (forall g :: g in groups ==> groups[g].codes == GroupCodes(rules, g))
    && (forall r :: r in rules && AnyOf(r) ==> MinimumOf(r) <= groups[GroupOf(r)].minimum)
    && (forall g :: g in groups ==> HasMinimum(rules, g, groups[g].minimum))
  }

  lemma GroupsGrow(rules: seq<Rule>, r: Rule, g: string)
    ensures GroupCodes(rules + [r], g) == GroupCodes(rules, g) + if AnyOf(r) && GroupOf(r) == g then {r.code} else {}
  {
  }

  /** The dictionary after one more ANY_OF rule. */
  function Joined(groups: map<string, Group>, r: Rule): map<string, Group> {
    var group := if GroupOf(r) in groups then groups[GroupOf(r)] else Group(MinimumOf(r), {});
    var minimum := if group.minimum < MinimumOf(r) then MinimumOf(r) else group.minimum;
    groups[GroupOf(r) := Group(minimum, group.codes + {r.code})]
  }

  lemma JoiningKeepsMinimum(rules: seq<Rule>, groups: map<string, Group>, r: Rule, g: string)
    requires AreGroups(rules, groups) && AnyOf(r) && g in Joined(groups, r)
    ensures HasMinimum(rules + [r], g, Joined(groups, r)[g].minimum)
  {
    var all := rules + [r];
    if g == GroupOf(r) && (g !in groups || groups[g].minimum < MinimumOf(r)) {
      assert r in all && MinimumOf(r) == Joined(groups, r)[g].minimum;
    } else {
      assert HasMinimum(rules, g, groups[g].minimum);
      var q :| q in rules && AnyOf(q) && GroupOf(q) == g && MinimumOf(q) == groups[g].minimum;
      assert q in all;
    }
  }

  lemma JoiningKeepsCodes(rules: seq<Rule>, groups: map<string, Group>, r: Rule, g: string)
    requires AreGroups(rules, groups) && AnyOf(r) && g in Joined(groups, r)
    ensures Joined(groups, r)[g].codes == GroupCodes(rules + [r], g)
  {
    GroupsGrow(rules, r, g);
    if g !in groups {
      assert g !in GroupNames(rules);
      assert GroupCodes(rules, g) == {};
    }
  }

  lemma JoiningKeepsCover(rules: seq<Rule>, groups: map<string, Group>, r: Rule, q: Rule)
    requires AreGroups(rules, groups) && AnyOf(r) && q in rules + [r] && AnyOf(q)
    ensures GroupOf(q) in Joined(groups, r) && MinimumOf(q) <= Joined(groups, r)[GroupOf(q)].minimum
  {
    if q in rules {
      assert GroupOf(q) in GroupNames(rules) && MinimumOf(q) <= groups[GroupOf(q)].minimum;
    }
  }

  lemma JoiningKeepsGroups(rules: seq<Rule>, groups: map<string, Group>, r: Rule)
    requires AreGroups(rules, groups) && AnyOf(r)
    ensures AreGroups(rules + [r], Joined(groups, r))
  {
    var all, after := rules + [r], Joined(groups, r);
    assert GroupNames(all) == GroupNames(rules) + {GroupOf(r)};
    forall g | g in after
      ensures after[g].codes == GroupCodes(all, g) && HasMinimum(all, g, after[g].minimum)
    {
      JoiningKeepsCodes(rules, groups, r, g);
      JoiningKeepsMinimum(rules, groups, r, g);
    }
    forall q | q in all && AnyOf(q)
      ensures MinimumOf(q) <= after[GroupOf(q)].minimum
    {
      JoiningKeepsCover(rules, groups, r, q);
    }
  }

  lemma OtherRulesKeepGroups(rules: seq<Rule>, groups: map<string, Group>, r: Rule)
    requires AreGroups(rules, groups) && !AnyOf(r)
    ensures AreGroups(rules + [r], groups)
  {
    var all := rules + [r];
    assert GroupNames(all) == GroupNames(rules);
    forall g | g in groups
      ensures groups[g].codes == GroupCodes(all, g) && HasMinimum(all, g, groups[g].minimum)
    {
      GroupsGrow(rules, r, g);
      assert HasMinimum(rules, g, groups[g].minimum);
      var q :| q in rules && AnyOf(q) && GroupOf(q) == g && MinimumOf(q) == groups[g].minimum;
      assert q in all;
    }
  }

  method CollectGroups(rules: seq<Rule>) returns (groups: map<string, Group>)
    ensures AreGroups(rules, groups)
  {
    groups := map[];
    for n := 0 to |rules|
      invariant AreGroups(rules[..n], groups)
    {
      assert rules[..n + 1] == rules[..n] + [rules[n]];
      if AnyOf(rules[n]) {
        JoiningKeepsGroups(rules[..n], groups, rules[n]);
        groups := Joined(groups, rules[n]);
      } else {
        OtherRulesKeepGroups(rules[..n], groups, rules[n]);
      }
    }
    assert rules[..|rules|] == rules;
  }

  lemma NothingMissing(wanted: set<string>, have: set<string>)
    ensures wanted - have == {} <==> wanted <= have
  {
    if wanted - have == {} {
      forall x | x in wanted
        ensures x in have
      {
        assert x !in wanted - have;
      }
    }
  }

  function Unmet(groups: map<string, Group>, have: set<string>): set<string> {
    set g | g in groups && |groups[g].codes * have| < groups[g].minimum
  }

  /** Comparing each group's largest minimum once is the same as comparing every rule. */
  lemma UnmetGroupsDecide(rules: seq<Rule>, groups: map<string, Group>, have: set<string>)
    requires AreGroups(rules, groups)
    ensures Meets(rules, have) <==> Required(rules) <= have && Unmet(groups, have) == {}
  {
    if Unmet(groups, have) == {} {
      forall r | r in rules && AnyOf(r)
        ensures |GroupCodes(rules, GroupOf(r)) * have| >= MinimumOf(r)
      {
        assert GroupOf(r) in groups && GroupOf(r) !in Unmet(groups, have);
      }
    } else {
      var g :| g in Unmet(groups, have);
      var r :| r in rules && AnyOf(r) && GroupOf(r) == g && MinimumOf(r) == groups[g].minimum;
      assert |GroupCodes(rules, GroupOf(r)) * have| < MinimumOf(r);
    }
  }

  /** Having more never breaks a rule that was met. */
  lemma MeetsIsMonotone(rules: seq<Rule>, have: set<string>, more: set<string>)
    requires Meets(rules, have) && have <= more
    ensures Meets(rules, more)
  {
    forall r | r in rules && AnyOf(r)
      ensures |GroupCodes(rules, GroupOf(r)) * more| >= MinimumOf(r)
    {
      var codes := GroupCodes(rules, GroupOf(r));
      assert codes * have <= codes * more;
      assert codes * more == codes * have + (codes * more - codes * have);
    }
  }

  // --- the stored check -----------------------------------------------------------------

  /** The document half of `missing_for_submit`: what the stored registration still lacks. */
  method MissingDocuments(rules: seq<Rule>, linked: set<string>)
    returns (missing: set<string>, unmetGroups: set<string>)
    ensures missing == Required(rules) - linked
    ensures missing == {} && unmetGroups == {} <==> Meets(rules, linked)
  {
    missing := Required(rules) - linked;
    var groups := CollectGroups(rules);
    unmetGroups := {};
    var left := groups.Keys;
    while left != {}
      invariant left <= groups.Keys
      invariant unmetGroups == Unmet(groups, linked) - left
      decreases left
    {
      var g :| g in left;
      if |groups[g].codes * linked| < groups[g].minimum {
        unmetGroups := unmetGroups + {g};
      }
      left := left - {g};
    }
    UnmetGroupsDecide(rules, groups, linked);
    NothingMissing(Required(rules), linked);
  }

  // --- the request-time check -----------------------------------------------------------

  /** `{submission.type: submission ...}`: a repeated type keeps its last submission. */
  function Supplied(submissions: seq<Submission>): (supplied: map<string, Submission>)
    ensures forall kind :: kind in supplied ==> supplied[kind] in submissions && supplied[kind].kind == kind
    ensures forall s :: s in submissions ==> s.kind in supplied
  {
    if submissions == [] then map[]
    else
      var last := submissions[|submissions| - 1];
      var rest := Supplied(submissions[..|submissions| - 1]);
      assert submissions == submissions[..|submissions| - 1] + [last];
      rest[last.kind := last]
  }

  /** The validator of document numbers: the normalised number, or none when it reported an error. */
  type NumberCheck = (string, Option<string>) -> Option<string>

  /** What one submission resolves to, if it is good. */
  function Resolve(rows: seq<Upload>, actor: Actor, check: NumberCheck, s: Submission): Option<Document> {
    var number := check(s.kind, s.number);
    if number.None? || s.uploadId.None? || s.uploadId.value == ""
        || Attachable(rows, actor, s.uploadId.value, s.kind).Refused? then None
    else Some(Document(s.kind, number.value, s.uploadId.value))
  }

  ghost predicate DistinctCodes(rules: seq<Rule>) {
    forall i, j :: 0 <= i < j < |rules| ==> rules[i].code != rules[j].code
  }

  /** Every submitted type is allowed and good, and the rules are met if they must be. */
  ghost predicate Acceptable(rules: seq<Rule>, submissions: seq<Submission>, rows: seq<Upload>, actor: Actor,
                             check: NumberCheck, require: bool) {
    var supplied := Supplied(submissions);
    && supplied.Keys <= Codes(rules)
    && (require ==> Meets(rules, supplied.Keys))
    && forall kind :: kind in supplied ==> Resolve(rows, actor, check, supplied[kind]).Some?
  }

  /** The documents resolved from the rules seen so far. */
  ghost predicate ResolvedFrom(rules: seq<Rule>, supplied: map<string, Submission>, rows: seq<Upload>, actor: Actor,
                               check: NumberCheck, resolved: seq<Document>)
  {
    && (forall d :: d in resolved ==>
          d.kind in Codes(rules) && d.kind in supplied && Resolve(rows, actor, check, supplied[d.kind]) == Some(d))
    && (forall j, k :: 0 <= j < k < |resolved| ==> resolved[j].kind != resolved[k].kind)
  }

  method ResolveOne(rows: seq<Upload>, actor: Actor, check: NumberCheck, s: Submission)
    returns (errors: seq<FieldError>, document: Option<Document>)
    ensures document == Resolve(rows, actor, check, s)
    ensures errors == [] <==> document.Some?
  {
    errors, document := [], None;
    var number := check(s.kind, s.number);
    if number.None? {
      errors := errors + [FieldError("doc." + s.kind + ".number", "invalid")];
    }
    if s.uploadId.None? || s.uploadId.value == "" {
      errors := errors + [FieldError("doc." + s.kind + ".file", "required")];
      return;
    }
    var upload := Attachable(rows, actor, s.uploadId.value, s.kind);
    if upload.Refused? {
      errors := errors + [FieldError("doc." + s.kind + ".file", upload.code)];
      return;
    }
    if number.Some? {
      document := Some(Document(s.kind, number.value, s.uploadId.value));
    }
  }

  /** One error for every supplied type the rules do not know. */
  method ExtraErrors(extras: set<string>) returns (errors: seq<FieldError>)
    ensures errors == [] <==> extras == {}
    ensures forall kind :: kind in extras <==> FieldError("doc." + kind, "not_applicable") in errors
  {
    errors := [];
    var left := extras;
    while left != {}
      invariant left <= extras
      invariant errors == [] <==> left == extras
      invariant forall kind :: kind in extras - left ==> FieldError("doc." + kind, "not_applicable") in errors
      invariant forall e :: e in errors ==>
        exists kind :: kind in extras && e == FieldError("doc." + kind, "not_applicable")
      decreases left
    {
      var kind :| kind in left;
      errors := errors + [FieldError("doc." + kind, "not_applicable")];
      left := left - {kind};
    }
    forall kind | FieldError("doc." + kind, "not_applicable") in errors
      ensures kind in extras
    {
      var other :| other in extras && FieldError("doc." + kind, "not_applicable")
          == FieldError("doc." + other, "not_applicable");
      assert ("doc." + kind)[4..] == ("doc." + other)[4..];
    }
  }

  /** One error for every group that is short. */
  method GroupErrors(groups: map<string, Group>, have: set<string>) returns (errors: seq<FieldError>)
    ensures errors == [] <==> Unmet(groups, have) == {}
  {
    errors := [];
    var left := groups.Keys;
    while left != {}
      invariant left <= groups.Keys
      invariant errors == [] <==> Unmet(groups, have) <= left
      decreases left
    {
      var g :| g in left;
      if |groups[g].codes * have| < groups[g].minimum {
        assert g in Unmet(groups, have);
        errors := errors + [FieldError("documents", "one_required")];
      }
      left := left - {g};
    }
  }

  /** What must hold of the rules looked at so far for no error to have been added. */
  ghost predicate NoComplaint(rules: seq<Rule>, required: set<string>, supplied: map<string, Submission>,
                              rows: seq<Upload>, actor: Actor, check: NumberCheck, require: bool)
  {
    forall r :: r in rules ==>
      if r.code in supplied then Resolve(rows, actor, check, supplied[r.code]).Some?
      else !(require && r.code in required)
  }

  lemma ResolvingOneMore(rules: seq<Rule>, r: Rule, supplied: map<string, Submission>, rows: seq<Upload>, actor: Actor,
                         check: NumberCheck, resolved: seq<Document>, d: Document)
    requires ResolvedFrom(rules, supplied, rows, actor, check, resolved) && r.code !in Codes(rules)
    requires r.code in supplied && supplied[r.code].kind == r.code
        && Resolve(rows, actor, check, supplied[r.code]) == Some(d)
    ensures ResolvedFrom(rules + [r], supplied, rows, actor, check, resolved + [d])
    ensures Kinds(resolved + [d]) == Kinds(resolved) + {r.code}
  {
    assert d.kind == r.code;
    assert Codes(rules + [r]) == Codes(rules) + {r.code};
    forall j | 0 <= j < |resolved|
      ensures resolved[j].kind != d.kind
    {
      assert resolved[j] in resolved;
    }
  }

  method ResolveAll(rules: seq<Rule>, supplied: map<string, Submission>, rows: seq<Upload>, actor: Actor,
                    check: NumberCheck, require: bool)
    returns (errors: seq<FieldError>, resolved: seq<Document>)
    requires DistinctCodes(rules)
    requires forall kind :: kind in supplied ==> supplied[kind].kind == kind
    ensures errors == [] <==> NoComplaint(rules, Required(rules), supplied, rows, actor, check, require)
    ensures ResolvedFrom(rules, supplied, rows, actor, check, resolved)
    ensures errors == [] ==> Kinds(resolved) == supplied.Keys * Codes(rules)
  {
    errors, resolved := [], [];
    var required := Required(rules);
    for n := 0 to |rules|
      invariant ResolvedFrom(rules[..n], supplied, rows, actor, check, resolved)
      invariant errors == [] <==> NoComplaint(rules[..n], required, supplied, rows, actor, check, require)
      invariant errors == [] ==> Kinds(resolved) == supplied.Keys * Codes(rules[..n])
    {
      var kind := rules[n].code;
      assert rules[..n + 1] == rules[..n] + [rules[n]];
      assert Codes(rules[..n + 1]) == Codes(rules[..n]) + {kind};
      if kind !in supplied {
        if require && kind in required {
          errors := errors + [FieldError("doc." + kind, "required")];
        }
      } else {
        var found, document := ResolveOne(rows, actor, check, supplied[kind]);
        errors := errors + found;
        if document.Some? {
          ResolvingOneMore(rules[..n], rules[n], supplied, rows, actor, check, resolved, document.value);
          resolved := resolved + [document.value];
        }
      }
    }
    assert rules[..|rules|] == rules;
  }

  lemma AcceptableIffNoComplaint(rules: seq<Rule>, submissions: seq<Submission>, rows: seq<Upload>, actor: Actor,
                                 check: NumberCheck, require: bool, groups: map<string, Group>)
    requires AreGroups(rules, groups)
    ensures var supplied := Supplied(submissions);
            Acceptable(rules, submissions, rows, actor, check, require) <==>
              && supplied.Keys <= Codes(rules)
              && (require ==> Unmet(groups, supplied.Keys) == {})
              && NoComplaint(rules, Required(rules), supplied, rows, actor, check, require)
  {
    var supplied := Supplied(submissions);
    UnmetGroupsDecide(rules, groups, supplied.Keys);
    if supplied.Keys <= Codes(rules) && NoComplaint(rules, Required(rules), supplied, rows, actor, check, require) {
      forall kind | kind in supplied
        ensures Resolve(rows, actor, check, supplied[kind]).Some?
      {
        var r :| r in rules && r.code == kind;
      }
      if require {
        assert Required(rules) <= supplied.Keys;
      }
    }
  }

  method ValidateDocuments(rules: seq<Rule>, submissions: seq<Submission>, rows: seq<Upload>, actor: Actor,
                           check: NumberCheck, require: bool)
    returns (errors: seq<FieldError>, resolved: seq<Document>)
    requires DistinctCodes(rules)
    ensures errors == [] <==> Acceptable(rules, submissions, rows, actor, check, require)
    ensures errors == [] ==> ResolvedFrom(rules, Supplied(submissions), rows, actor, check, resolved)
    ensures errors == [] ==> Kinds(resolved) == Supplied(submissions).Keys
  {
    var supplied := Supplied(submissions);
    var groups := CollectGroups(rules);
    AcceptableIffNoComplaint(rules, submissions, rows, actor, check, require, groups);
    errors := ExtraErrors(supplied.Keys - Codes(rules));
    NothingMissing(supplied.Keys, Codes(rules));
    if require {
      var short := GroupErrors(groups, supplied.Keys);
      errors := errors + short;
    }
    var complaints;
    complaints, resolved := ResolveAll(rules, supplied, rows, actor, check, require);
    errors := errors + complaints;
  }

  /** What validation lets through can be attached: staged files, each in its own slot, no slot twice. */
  lemma ResolvedIsAttached(rules: seq<Rule>, supplied: map<string, Submission>, rows: seq<Upload>, actor: Actor,
                           check: NumberCheck, resolved: seq<Document>)
    requires ResolvedFrom(rules, supplied, rows, actor, check, resolved)
    requires forall kind :: kind in supplied ==> supplied[kind].kind == kind
    ensures Attached(rows, resolved)
  {
  }
}

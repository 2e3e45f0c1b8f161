/** `validateTask`: the express-validator rule list run before a task is
    created or updated, and the step that turns the collected errors into a
    400 response or a call to `next()`. The ISO 8601 date check is the
    library's and is taken as a predicate parameter. */
module ValidationMiddleware {
  import opened Wrappers

  /** `req.body` after JSON parsing, restricted to string-valued fields. */
  type Body = map<string, string>

  /** The value a rule sees for a field: express-validator reads an absent
      field as the empty string. */
  function FieldText(body: Body, path: string): string
  {
    if path in body then body[path] else ""
  }

  /** The value an error reports: the raw field, `None` when absent. */
  function FieldValue(body: Body, path: string): Option<string>
  {
    if path in body then Some(body[path]) else None
  }

  /** The three validators the rule list uses. */
  datatype Check = NotEmpty | IsIn(options: seq<string>) | IsISO8601

  /** `body(path).<check>().withMessage(message)` */
  datatype Rule = Rule(path: string, check: Check, message: string)

  /** One entry of `validationResult(req).array()` (location `body`). */
  datatype FieldError = FieldError(path: string, value: Option<string>, msg: string)

  const Priorities: seq<string> := ["low", "medium", "high"]
  const Statuses: seq<string> := ["pending", "in-progress", "completed"]

  const TitleRule: Rule := Rule("title", NotEmpty, "Title is required")
  const PriorityRule: Rule :=
    Rule("priority", IsIn(Priorities), "Priority must be one of: low, medium, high")
  const DescriptionRule: Rule := Rule("description", NotEmpty, "Description is required")
  const DueDateRule: Rule :=
    Rule("due_date", IsISO8601, "Due date must be in a valid ISO8601 format")
  const StatusRule: Rule :=
    Rule("status", IsIn(Statuses), "Status must be one of: pending, in-progress, completed")

  /** The rule list of `validateTask`, in declaration order. */
  const TaskRules: seq<Rule> := [TitleRule, PriorityRule, DescriptionRule, DueDateRule, StatusRule]

  predicate Passes(check: Check, text: string, isIso8601: string -> bool)
  {
    match check
    case NotEmpty => text != ""
    case IsIn(options) => text in options
    case IsISO8601 => isIso8601(text)
  }

  predicate Holds(rule: Rule, body: Body, isIso8601: string -> bool)
  {
    Passes(rule.check, FieldText(body, rule.path), isIso8601)
  }

  function ErrorOf(rule: Rule, body: Body): FieldError
  {
    FieldError(rule.path, FieldValue(body, rule.path), rule.message)
  }

  /** Every rule is run, in order, and each failing rule adds its one error. */
  function Errors(rules: seq<Rule>, body: Body, isIso8601: string -> bool): (errs: seq<FieldError>)
    ensures |errs| <= |rules|
  {
    if rules == [] then []
    else
      var first := if Holds(rules[0], body, isIso8601) then [] else [ErrorOf(rules[0], body)];
      first + Errors(rules[1..], body, isIso8601)
  }

  /** No errors exactly when every rule holds. */
  lemma {:induction false} NoErrorsIffAllHold(rules: seq<Rule>, body: Body, isIso8601: string -> bool)
    ensures Errors(rules, body, isIso8601) == [] <==>
            forall k :: 0 <= k < |rules| ==> Holds(rules[k], body, isIso8601)
  {
    if rules != [] {
      NoErrorsIffAllHold(rules[1..], body, isIso8601);
      assert forall k :: 1 <= k < |rules| ==> rules[k] == rules[1..][k - 1];
    }
  }

  lemma ErrorsUnfold(rules: seq<Rule>, body: Body, isIso8601: string -> bool)
    requires rules != []
    ensures Holds(rules[0], body, isIso8601) ==>
              Errors(rules, body, isIso8601) == Errors(rules[1..], body, isIso8601)
    ensures !Holds(rules[0], body, isIso8601) ==>
              Errors(rules, body, isIso8601) == [ErrorOf(rules[0], body)] + Errors(rules[1..], body, isIso8601)
  {
  }

  /** The fields the rules are about. */
  function PathsOf(rules: seq<Rule>): set<string>
  {
    if rules == [] then {} else {rules[0].path} + PathsOf(rules[1..])
  }

  /** One rule per field. */
  predicate DistinctPaths(rules: seq<Rule>)
  {
    rules == [] || (rules[0].path !in PathsOf(rules[1..]) && DistinctPaths(rules[1..]))
  }

  lemma {:induction false} PathInPaths(rules: seq<Rule>, k: nat)
    requires k < |rules|
    ensures rules[k].path in PathsOf(rules)
  {
    if k > 0 {
      assert rules[1..][k - 1] == rules[k];
      PathInPaths(rules[1..], k - 1);
    }
  }

  /** Position of the first rule for `path`. */
  function PathIndex(rules: seq<Rule>, path: string): (i: nat)
    ensures i <= |rules|
    ensures i < |rules| ==> rules[i].path == path
  {
    if rules == [] then 0
    else if rules[0].path == path then 0
    else 1 + PathIndex(rules[1..], path)
  }

  /** With one rule per field, every error is the error of the rule for its
      field, and that rule failed. */
  lemma {:induction false} ErrorFromFailingRule(rules: seq<Rule>, body: Body, isIso8601: string -> bool, e: FieldError)
    requires DistinctPaths(rules)
    requires e in Errors(rules, body, isIso8601)
    ensures PathIndex(rules, e.path) < |rules|
    ensures e == ErrorOf(rules[PathIndex(rules, e.path)], body)
    ensures !Holds(rules[PathIndex(rules, e.path)], body, isIso8601)
  {
    if !Holds(rules[0], body, isIso8601) && e == ErrorOf(rules[0], body) {
    } else {
      var tail := rules[1..];
      ErrorFromFailingRule(tail, body, isIso8601, e);
      PathInPaths(tail, PathIndex(tail, e.path));
    }
  }

  /** With one rule per field, a field has an error exactly when its rule
      fails. */
  lemma {:induction false} ErrorIffRuleFails(rules: seq<Rule>, body: Body, isIso8601: string -> bool, k: nat)
    requires DistinctPaths(rules)
    requires k < |rules|
    ensures ErrorOf(rules[k], body) in Errors(rules, body, isIso8601) <==> !Holds(rules[k], body, isIso8601)
  {
    var e := ErrorOf(rules[k], body);
    if e in Errors(rules, body, isIso8601) {
      ErrorFromFailingRule(rules, body, isIso8601, e);
      PathIndexOf(rules, k);
    }
    if !Holds(rules[k], body, isIso8601) {
      FailingRuleReported(rules, body, isIso8601, k);
    }
  }

  /** Every failing rule reports its error. */
  lemma {:induction false} FailingRuleReported(rules: seq<Rule>, body: Body, isIso8601: string -> bool, k: nat)
    requires k < |rules|
    requires !Holds(rules[k], body, isIso8601)
    ensures ErrorOf(rules[k], body) in Errors(rules, body, isIso8601)
  {
    if k > 0 {
      assert rules[1..][k - 1] == rules[k];
      FailingRuleReported(rules[1..], body, isIso8601, k - 1);
    }
  }

  /** Each error is about a field whose rule comes strictly later in the
      list than the previous error's. */
  predicate Ascending(errs: seq<FieldError>, rules: seq<Rule>)
  {
    |errs| <= 1 ||
    (PathIndex(rules, errs[0].path) < PathIndex(rules, errs[1].path) && Ascending(errs[1..], rules))
  }

  /** With one rule per field, the errors come out in declaration order. */
  lemma {:induction false} ErrorsAscending(rules: seq<Rule>, body: Body, isIso8601: string -> bool)
    requires DistinctPaths(rules)
    ensures Ascending(Errors(rules, body, isIso8601), rules)
  {
    if rules != [] {
      var rest := Errors(rules[1..], body, isIso8601);
      ErrorsAscending(rules[1..], body, isIso8601);
      AscendingShift(rules, body, isIso8601, 0);
      ErrorsUnfold(rules, body, isIso8601);
      if !Holds(rules[0], body, isIso8601) && rest != [] {
        TailErrorIndex(rules, body, isIso8601, 0);
        var errs := [ErrorOf(rules[0], body)] + rest;
        assert errs[1..] == rest;
      }
    }
  }

  /** The errors of the rules after the first stay ascending when positions
      are counted in the whole list. */
  lemma {:induction false} AscendingShift(rules: seq<Rule>, body: Body, isIso8601: string -> bool, from: nat)
    requires DistinctPaths(rules) && rules != []
    requires from <= |Errors(rules[1..], body, isIso8601)|
    requires Ascending(Errors(rules[1..], body, isIso8601)[from..], rules[1..])
    ensures Ascending(Errors(rules[1..], body, isIso8601)[from..], rules)
    decreases |Errors(rules[1..], body, isIso8601)| - from
  {
    var rest := Errors(rules[1..], body, isIso8601);
    if from + 1 < |rest| {
      assert rest[from..][1..] == rest[from + 1..];
      AscendingShift(rules, body, isIso8601, from + 1);
      TailErrorIndex(rules, body, isIso8601, from);
      TailErrorIndex(rules, body, isIso8601, from + 1);
    }
  }

  /** Ascending positions are pairwise strictly increasing. */
  lemma {:induction false} AscendingPairwise(errs: seq<FieldError>, rules: seq<Rule>)
    requires Ascending(errs, rules)
    ensures forall i, j :: 0 <= i < j < |errs| ==>
              PathIndex(rules, errs[i].path) < PathIndex(rules, errs[j].path)
  {
    if |errs| > 1 {
      AscendingPairwise(errs[1..], rules);
      forall i, j | 0 <= i < j < |errs|
        ensures PathIndex(rules, errs[i].path) < PathIndex(rules, errs[j].path)
      {
        if i > 0 {
          assert errs[i] == errs[1..][i - 1] && errs[j] == errs[1..][j - 1];
        } else if j > 1 {
          assert errs[1] == errs[1..][0] && errs[j] == errs[1..][j - 1];
        }
      }
    }
  }

  /** An error from the rules after the first sits one position further
      along in the whole list. */
  lemma TailErrorIndex(rules: seq<Rule>, body: Body, isIso8601: string -> bool, i: nat)
    requires DistinctPaths(rules) && rules != []
    requires i < |Errors(rules[1..], body, isIso8601)|
    ensures var e := Errors(rules[1..], body, isIso8601)[i];
            PathIndex(rules, e.path) == 1 + PathIndex(rules[1..], e.path) < |rules|
  {
    var e := Errors(rules[1..], body, isIso8601)[i];
    ErrorFromFailingRule(rules[1..], body, isIso8601, e);
    PathInPaths(rules[1..], PathIndex(rules[1..], e.path));
  }

  /** The position of the rule at `k` is `k` when paths are distinct. */
  lemma {:induction false} PathIndexOf(rules: seq<Rule>, k: nat)
    requires DistinctPaths(rules)
    requires k < |rules|
    ensures PathIndex(rules, rules[k].path) == k
  {
    if k > 0 {
      assert rules[1..][k - 1] == rules[k];
      PathInPaths(rules[1..], k - 1);
      PathIndexOf(rules[1..], k - 1);
    }
  }

  // ---------------------------------------------------------------------
  // The task rules and the final step

  /** The outcome of the last middleware of the list: `next()`, or a
      response with a status and `{errors}`. */
  datatype Step = Next | BadRequest(status: nat, errors: seq<FieldError>)

  /** `validationResult(req)`, then 400 with the errors if there are any,
      otherwise `next()`. */
  function ValidateTask(body: Body, isIso8601: string -> bool): (step: Step)
    ensures step.BadRequest? ==> step.status == 400 && 1 <= |step.errors| <= 5
    ensures step.BadRequest? ==> step.errors == TaskErrors(body, isIso8601)
  {
    var errs := TaskErrors(body, isIso8601);
    if errs == [] then Next else BadRequest(400, errs)
  }

  /** What a valid task body is, field by field. */
  predicate ValidTask(body: Body, isIso8601: string -> bool)
  {
    FieldText(body, "title") != "" &&
    FieldText(body, "priority") in Priorities &&
    FieldText(body, "description") != "" &&
    isIso8601(FieldText(body, "due_date")) &&
    FieldText(body, "status") in Statuses
  }

  /** Every ISO 8601 date starts with a (four-digit) year, so no string
      shorter than four characters is accepted. */
  ghost predicate StartsWithYear(isIso8601: string -> bool)
  {
    forall s :: isIso8601(s) ==> |s| >= 4
  }

  lemma TaskRulesDistinct()
    ensures DistinctPaths(TaskRules)
  {
    var r := TaskRules;
    assert r[4..][1..] == [] && r[3..][1..] == r[4..] && r[2..][1..] == r[3..] && r[1..][1..] == r[2..];
    assert PathsOf(r[4..]) == {"status"};
    assert DistinctPaths(r[4..]);
    assert PathsOf(r[3..]) == {"due_date", "status"};
    assert DistinctPaths(r[3..]);
    assert PathsOf(r[2..]) == {"description", "due_date", "status"};
    assert DistinctPaths(r[2..]);
    assert PathsOf(r[1..]) == {"priority", "description", "due_date", "status"};
    assert DistinctPaths(r[1..]);
  }

  /** The errors `validationResult` collects for a task body. */
  function TaskErrors(body: Body, isIso8601: string -> bool): (errs: seq<FieldError>)
    ensures |errs| <= 5
  {
    Errors(TaskRules, body, isIso8601)
  }

  /** Each field contributes its error, with its message, exactly when its
      own check fails. */
  lemma TaskFieldErrors(body: Body, isIso8601: string -> bool)
    ensures FieldError("title", FieldValue(body, "title"), "Title is required")
              in TaskErrors(body, isIso8601)
            <==> FieldText(body, "title") == ""
    ensures FieldError("priority", FieldValue(body, "priority"), "Priority must be one of: low, medium, high")
              in TaskErrors(body, isIso8601)
            <==> FieldText(body, "priority") !in ["low", "medium", "high"]
    ensures FieldError("description", FieldValue(body, "description"), "Description is required")
              in TaskErrors(body, isIso8601)
            <==> FieldText(body, "description") == ""
    ensures FieldError("due_date", FieldValue(body, "due_date"), "Due date must be in a valid ISO8601 format")
              in TaskErrors(body, isIso8601)
            <==> !isIso8601(FieldText(body, "due_date"))
    ensures FieldError("status", FieldValue(body, "status"), "Status must be one of: pending, in-progress, completed")
              in TaskErrors(body, isIso8601)
            <==> FieldText(body, "status") !in ["pending", "in-progress", "completed"]
  {
    TaskRulesDistinct();
    ErrorIffRuleFails(TaskRules, body, isIso8601, 0);
    ErrorIffRuleFails(TaskRules, body, isIso8601, 1);
    ErrorIffRuleFails(TaskRules, body, isIso8601, 2);
    ErrorIffRuleFails(TaskRules, body, isIso8601, 3);
    ErrorIffRuleFails(TaskRules, body, isIso8601, 4);
  }

  /** Between zero and five errors, at most one per field, in the order
      title, priority, description, due_date, status. */
  lemma TaskErrorsOrdered(body: Body, isIso8601: string -> bool)
    ensures |TaskErrors(body, isIso8601)| <= 5
    ensures forall i, j :: 0 <= i < j < |TaskErrors(body, isIso8601)| ==>
              PathIndex(TaskRules, TaskErrors(body, isIso8601)[i].path)
                < PathIndex(TaskRules, TaskErrors(body, isIso8601)[j].path)
  {
    TaskRulesDistinct();
    ErrorsAscending(TaskRules, body, isIso8601);
    AscendingPairwise(TaskErrors(body, isIso8601), TaskRules);
  }

  /** `next()` is called exactly for a valid body; otherwise the answer is
      400 with a non-empty error list. */
  lemma ValidateTaskNextIffValid(body: Body, isIso8601: string -> bool)
    ensures ValidateTask(body, isIso8601) == Next <==> ValidTask(body, isIso8601)
    ensures ValidateTask(body, isIso8601).BadRequest? ==>
              ValidateTask(body, isIso8601).status == 400 &&
              1 <= |ValidateTask(body, isIso8601).errors| <= 5
  {
    NoErrorsIffAllHold(TaskRules, body, isIso8601);
    assert Holds(TaskRules[0], body, isIso8601) <==> FieldText(body, "title") != "";
    assert Holds(TaskRules[1], body, isIso8601) <==> FieldText(body, "priority") in Priorities;
    assert Holds(TaskRules[2], body, isIso8601) <==> FieldText(body, "description") != "";
    assert Holds(TaskRules[3], body, isIso8601) <==> isIso8601(FieldText(body, "due_date"));
    assert Holds(TaskRules[4], body, isIso8601) <==> FieldText(body, "status") in Statuses;
  }

  /** An empty due date is always an error. */
  lemma EmptyDueDateRejected(body: Body, isIso8601: string -> bool)
    requires StartsWithYear(isIso8601)
    requires FieldText(body, "due_date") == ""
    ensures ErrorOf(TaskRules[3], body) in TaskErrors(body, isIso8601)
  {
    assert !isIso8601("");
    FailingRuleReported(TaskRules, body, isIso8601, 3);
  }

  /** A body with empty title, priority, description and due date and a
      valid status draws four errors, for those four fields in that order. */
  lemma FourEmptyFields(body: Body, isIso8601: string -> bool)
    requires !isIso8601("")
    requires FieldText(body, "title") == "" && FieldText(body, "priority") == ""
    requires FieldText(body, "description") == "" && FieldText(body, "due_date") == ""
    requires FieldText(body, "status") in Statuses
    ensures |TaskErrors(body, isIso8601)| == 4
    ensures TaskErrors(body, isIso8601)[0].path == "title"
    ensures TaskErrors(body, isIso8601)[1].path == "priority"
    ensures TaskErrors(body, isIso8601)[2].path == "description"
    ensures TaskErrors(body, isIso8601)[3].path == "due_date"
  {
    var r := TaskRules;
    assert !Holds(r[0], body, isIso8601);
    assert !Holds(r[1], body, isIso8601);
    assert !Holds(r[2], body, isIso8601);
    assert !Holds(r[3], body, isIso8601);
    assert Holds(r[4], body, isIso8601);
    ErrorsUnfold(r[4..], body, isIso8601);
    assert r[4..][1..] == [];
    ErrorsUnfold(r[3..], body, isIso8601);
    assert r[3..][1..] == r[4..];
    ErrorsUnfold(r[2..], body, isIso8601);
    assert r[2..][1..] == r[3..];
    ErrorsUnfold(r[1..], body, isIso8601);
    assert r[1..][1..] == r[2..];
    ErrorsUnfold(r, body, isIso8601);
  }

  /** The request body of the "missing fields" case: four empty fields and
      a valid status. */
  const MissingFieldsBody: Body :=
    map["title" := "", "priority" := "", "description" := "", "due_date" := "", "status" := "pending"]

  /** That body draws four errors. */
  lemma MissingFieldsBodyExample(isIso8601: string -> bool)
    requires !isIso8601("")
    ensures |TaskErrors(MissingFieldsBody, isIso8601)| == 4
  {
    var body := MissingFieldsBody;
    assert FieldText(body, "title") == "";
    assert FieldText(body, "priority") == "";
    assert FieldText(body, "description") == "";
    assert FieldText(body, "due_date") == "";
    assert FieldText(body, "status") == "pending";
    FourEmptyFields(body, isIso8601);
  }
}
